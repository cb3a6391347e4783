/** The strict-mode outcome shared by every layer: an operation either returns a value or stops
    with the kind of error that was thrown.  Nothing runs after an error. */
module Outcomes {

  /** The kinds of `throw_error`, plus the exceptions and assertions that no mode can permit. */
  datatype ErrorKind =
    | BadOpcode
    | Trap
    | DebugTrap
    | IllegalMemoryAddress
    | IllegalMemoryWrite
    | UndefinedData
    | CallFrameViolation
    | PcOutsideProgramMemory
    | ClobberedReturnAddress
    | ReadingReturnAddress
    | PpuViolation
    | LcdDisableViolation
    | DmaBusConflict
    | UnsupportedWrite   // std::runtime_error: writes to DIV and LY
    | AssertionFailure   // a C++ assert that does not hold
    | OutOfRange         // an index outside the ROM image

  datatype Outcome<+T> = Ok(value: T) | Err(error: ErrorKind) {
    predicate IsFailure() {
      Err?
    }

    function PropagateFailure<U>(): Outcome<U>
      requires Err?
    {
      Err(error)
    }

    function Extract(): T
      requires Ok?
    {
      value
    }
  }

  datatype Option<+T> = None | Some(value: T)
}
