/** Integers that carry an "undefined" mark.  In strict mode every operator that would have to
    look at an undefined payload stops instead; only `&` may absorb one, into a defined zero. */
module CheckedInt {
  import opened Outcomes
  import opened Bits

  datatype Byte = Byte(data: u8, undefined: bool)

  /** A 16-bit value as its two separately marked halves. */
  datatype Word = Word(upper: Byte, lower: Byte) {
    predicate Undefined() {
      upper.undefined || lower.undefined
    }

    function Data(): u16 {
      upper.data * 0x100 + lower.data
    }
  }

  /** The default-constructed byte. */
  const UNDEFINED_BYTE := Byte(0, true)

  function Known(data: u8): Byte {
    Byte(data, false)
  }

  function KnownWord(data: u16): (w: Word)
    ensures w.Data() == data
  {
    Word(Known(data / 0x100), Known(data % 0x100))
  }

  function Decay(b: Byte): Outcome<u8> {
    if b.undefined then Err(UndefinedData) else Ok(b.data)
  }

  function Add(a: Byte, b: Byte): Outcome<Byte> {
    if a.undefined || b.undefined then Err(UndefinedData) else Ok(Known(Wrap8(a.data + b.data)))
  }

  function Sub(a: Byte, b: Byte): Outcome<Byte> {
    if a.undefined || b.undefined then Err(UndefinedData) else Ok(Known(Wrap8(a.data - b.data)))
  }

  function Or(a: Byte, b: Byte): Outcome<Byte> {
    if a.undefined || b.undefined then Err(UndefinedData) else Ok(Known(Or8(a.data, b.data)))
  }

  function Xor(a: Byte, b: Byte): Outcome<Byte> {
    if a.undefined || b.undefined then Err(UndefinedData) else Ok(Known(Xor8(a.data, b.data)))
  }

  /** A defined zero on either side decides the result, whatever the other payload is. */
  function And(a: Byte, b: Byte): Outcome<Byte> {
    if (!b.undefined && b.data == 0) || (!a.undefined && a.data == 0) || (!a.undefined && !b.undefined)
    then Ok(Known(And8(a.data, b.data)))
    else Err(UndefinedData)
  }

  function Not(a: Byte): Outcome<Byte> {
    if a.undefined then Err(UndefinedData) else Ok(Known(0xFF - a.data))
  }

  function ShiftLeft(a: Byte, n: nat): Outcome<Byte> {
    if a.undefined then Err(UndefinedData) else Ok(Known(Shl8(a.data, n)))
  }

  function ShiftRight(a: Byte, n: nat): Outcome<Byte> {
    if a.undefined then Err(UndefinedData) else Ok(Known(Shr8(a.data, n)))
  }

  function Equal(a: Byte, b: Byte): Outcome<bool> {
    if a.undefined || b.undefined then Err(UndefinedData) else Ok(a.data == b.data)
  }

  function Less(a: Byte, b: Byte): Outcome<bool> {
    if a.undefined || b.undefined then Err(UndefinedData) else Ok(a.data < b.data)
  }

  function DecayWord(w: Word): Outcome<u16> {
    if w.Undefined() then Err(UndefinedData) else Ok(w.Data())
  }

  function AddWord(a: Word, b: Word): Outcome<Word> {
    if a.Undefined() || b.Undefined() then Err(UndefinedData) else Ok(KnownWord(Wrap16(a.Data() + b.Data())))
  }

  function SubWord(a: Word, b: Word): Outcome<Word> {
    if a.Undefined() || b.Undefined() then Err(UndefinedData) else Ok(KnownWord(Wrap16(a.Data() - b.Data())))
  }

  function AndWord(a: Word, b: Word): Outcome<Word> {
    if (!b.Undefined() && b.Data() == 0) || (!a.Undefined() && a.Data() == 0) || (!a.Undefined() && !b.Undefined())
    then Ok(KnownWord(BitAnd(a.Data(), b.Data())))
    else Err(UndefinedData)
  }

  function LessWord(a: Word, b: Word): Outcome<bool> {
    if a.Undefined() || b.Undefined() then Err(UndefinedData) else Ok(a.Data() < b.Data())
  }
}
