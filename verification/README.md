# A verified model of the libgb Game Boy core

This project models libgb, the library of a Game Boy emulator that doubles as a sanitizer for Game Boy
programs, in strict mode: every violation stops the machine. It covers the processor with its shadow call
stack and its tracking of undefined data, the memory map with MBC1 cartridges and DMA, the lazy timers, the LCD
state machine and pixel compositor, the audio unit, and the packet framing of the GDB stub.

## How it is built

Each part of the machine appears twice.

- **Functions on values** say what a step does: `CheckedInt`, `Alu`, `Registers`, `Audio`, `Picture`, `IoBlock`,
  `Cartridges`, `AddressBus` and `Processor`. An operation that can stop returns an `Outcome`, which is the new state
  or the error; nothing is claimed about a machine after an error.
- **Classes over fields and arrays** are the program as it is written, with its loops and its updates in place:
  `AudioDevice` (channels, audio unit), `PictureDevice` (picture unit, front end), `IoDevice` (I/O block),
  `MemoryDevice` (MBC1, cartridge, memory map) and `ProcessorDevice` (CPU, console). Each method ensures that it stops
  with the error of its function, or leaves an object whose `View()` is that function's result, so the functions are its
  complete specification. `ProcessorDevice.PowerOn` builds these objects in the power-on state and `GB.Run` runs them, ending
  where `Console.Run` ends. The assertions of the audio code stand in these bodies and are proved there.

The other modules prove properties of those functions, step by step and then over whole runs. `Console.Step` is one
step of the machine and `Runs.Sound` the invariant of error-free runs from power-on:

- `Noninterference`, `Runs`: undefined payloads never decide anything, a two-run property.
- `Manual`, `Conformance`: what each opcode does, in numbers and from its own bits, and that the processor does it.
- `GuardedAccess`, `Effects`, `Evolution`, `ShadowStack`, `GuardLimits`, `ControlFlow`, `StackLaws`: calls, returns and the guard on return addresses.
- `Timing`, `Console`: cycles per instruction and per clock.
- `Timers`, `AudioEvents`: lazy timers, the frame sequencer, and what its rates mean for a channel.
- `LcdLaws`, `FrameTrace`: registers and interrupt requests of an update, and what the screen is sent, frame after frame.
- `SoundBytes`: waveforms, noise, mixer, triggering and reads by address and bit.
- `AudioInvariants`, `AudioClocking`: ranges, assertion freedom, sample bound, batching, closed forms.
- `PowerUp`: what construction leaves in every register and byte.
- `InterruptLine`: EI and DI as a delay line, and what a dispatch takes.
- `Arithmetic`, `AluLaws`: binary and decimal arithmetic of any length; rotates, shifts, bits, 16-bit sums.
- `MemoryBytes`, `VideoMemory`, `FlatMemory`: the memory map and registers by address, and memory as a flat store with one alias.
- `Compositor`, `ScreenBytes`: pixels as layers, and from the bytes of memory.
- `GdbFraming`: packets.

The bounds chain together: the cycles of each instruction bound a clock by 9 cycles, which bounds the dots between LCD
updates, which gives the frame trace, and the cycles between timer catch-ups, which gives the frame sequencer.

## Reading the model

- A byte is a payload and an undefined mark; a word is two such bytes, undefined when either half is. The mark that
  a value was derived from SP decides nothing in the program and is not modelled.
- F is four booleans: its low nibble is 0 at construction and masked by every assignment.
- An opcode is decoded to an `Instruction`, which is then executed; the program does both in one switch.
- A failed assertion and each thrown exception is an error of its own; the plain exceptions that writes to DIV and LY raise
  are `UnsupportedWrite`, and a ROM index outside the image is `OutOfRange`.
- The front end is input and record: per step it says whether a frame is wanted, which keys are down and how many
  samples it took (`Env`), and the pixels and commits it is sent are recorded (`Io.shown`).
- The audio unit carries a tally of the length, sweep and envelope events it has run (`Apu.fired`), which nothing reads; in
  the class it is a ghost field.
- Cycle counters are unbounded; the two counters that are decremented as `size_t` (an envelope timer, the noise counter)
  wrap explicitly. Samples are real numbers.
- `BanksOk(cart)` in the run theorems holds of every freshly made cartridge (`Evolution.NewCartridgesOk`).

Where the code differs from its comments or from the hardware the model follows the code: the serial register is
overwritten on a control write without a transfer (`libgb/io/io.cpp:93-99`), the vertical sprite mirror counts from the
height and not from the last row (`libgb/io/gpu.cpp:308-310`), a low-bank write clears the upper bank bits
(`libgb/controller/mbc1.cpp:63-118`), the power-up writes to the sound registers are
ignored because the sound unit is switched on only after them (`libgb/memory_map.cpp:25-46`, `libgb/io/apu.cpp:89-92`), DI is as delayed as EI (`libgb/cpu/instructions.cpp:730-750`), and dispatching switches the
whole interrupt-enable line off (`libgb/cpu/cpu.cpp:129-162`).

One expected property fails. The guard on return addresses compares addresses, and memory can change without its address
being written: work RAM below 0xDE00 answers to two addresses, a DMA fills sprite memory, a bank switch replaces cartridge
RAM. `GuardLimits` gives the exact reach. A CALL leaves its address intact in any kind of memory; after a permitted write it
is still intact if and only if the write spares the frame, a condition on the write and the memory before it, spelled out for
each kind of memory; nothing but a write can damage it; and RET succeeds if and only if SP is back at the frame and the frame is intact and readable.
`GuardLimits.EchoDefeatsTheGuard` is the failing input, for every call with an echoed frame and every other byte, a half of an
undefined pair included. Where only its own addresses reach a byte (tiles, maps, 0xDE00-0xDFFF, 0xFF80-0xFFFF) no write that
the guard permits can do damage, and `ShadowStack` carries that through whole runs.

## Model

| member | source | states |
|---|---|---|
| Noninterference.OperateAlike | libgb/utils/checked_int.hpp:28-201 | every accumulator operation on operands that differ only in undefined payloads has the same outcome, flags included |
| Noninterference.WordsAlike | libgb/utils/checked_int.hpp:28-201 | the same for 16-bit addition, subtraction and decay, with the two halves tracked separately |
| Noninterference.BusWriteAlike | libgb/memory_map.cpp:119-173 | a write of alike bytes to alike memories fails alike or leaves alike memories, through MBC1, video memory, I/O and DMA |
| Noninterference.BusReadAlike | libgb/memory_map.cpp:74-117 | a read from alike memories returns alike bytes, or the same error |
| Noninterference.ExecuteAlike | libgb/cpu/opcodes.cpp:21-500 | every instruction takes alike machines to alike machines, or stops both with the same error |
| Noninterference.ClockAlike | libgb/cpu/cpu.cpp:164-181 | so does one CPU clock, interrupt dispatch included |
| Runs.RunAlike | libgb/gb.cpp:47-54 | two-run property over whole runs: machines that differ only in the payloads of undefined bytes end in the same error, or in machines with the same pc, SP, flags, cycle count, I/O block and defined bytes, having sent the screen the same events |
| Conformance.ProcessorConforms | libgb/cpu/opcodes.cpp:21-500 | for every byte the program counter can point at, in every state, the processor does what the manual says of it: the same error, or the same registers, flags, memory accesses, cycles and shadow stack |
| Conformance.DoesIs | libgb/cpu/opcodes.cpp:21-500 | decoding and executing an opcode is its manual entry, which reads operands, conditions and operations off the bits of the opcode |
| Conformance.CombineIs | libgb/cpu/instructions.cpp:322-471 | the accumulator rows ADD, ADC, SUB, SBC, AND, XOR, OR, CP in numbers, flags included; an undefined operand stops, except in AND with a defined 0 |
| Conformance.CountIs | libgb/cpu/instructions.cpp:473-510 | INC and DEC of any operand in numbers, memory operands read and then written |
| Conformance.BitPageIs | libgb/cpu/opcodes.cpp:328-377 | the whole CB page: eight shifts, BIT, RES and SET on every operand |
| Conformance.PushIs | libgb/cpu/instructions.cpp:297-308 | PUSH writes the low byte at SP-2 and then the high one, half an undefined pair included |
| Conformance.PopIs | libgb/cpu/instructions.cpp:310-320 | POP reads the high byte first; AF takes the upper four bits of a defined byte |
| Conformance.CallIs | libgb/cpu/instructions.cpp:1107-1123 | a call in numbers: two writes, two shadow records, a checked jump |
| Conformance.ReturnIs | libgb/cpu/instructions.cpp:1152-1201 | a return in numbers: the checks in order, two reads, a checked jump |
| GuardedAccess.ReadIsGuarded | libgb/cpu/cpu.cpp:18-45 | a read succeeds if and only if the bus is free, there is something to read, it is defined or need not be, and it is no pending return address; each failure has its own error, a pending address exactly the reading-return-address one |
| GuardedAccess.WriteIsGuarded | libgb/cpu/cpu.cpp:69-92 | the same for writes, a pending address being the clobbered-address error |
| GuardedAccess.InstructionsSpareReturnAddresses | libgb/cpu/cpu.cpp:18-92 | no instruction that succeeds has read or written a pending return address through a register pair, a port, an immediate address or the stack pointer, nor run one as its opcode |
| ShadowStack.CallToCalls | libgb/cpu/instructions.cpp:1107-1123 | a successful call writes two addresses below SP that no pending frame owns, records both and the address, and jumps; a frame in memory without aliases holds the address (in any memory: GuardLimits.CallLeavesIntact), pending frames stay, three cycles pass |
| ShadowStack.CallKeepsShadow | libgb/cpu/instructions.cpp:1107-1123 | calls keep the mirror: pointers come in pairs (sp+1, sp), all distinct, and every pending frame in memory that only its own addresses reach (tiles, maps, 0xDE00-0xDFFF, 0xFF80-0xFFFF) is intact there |
| ShadowStack.ReturnReturns | libgb/cpu/instructions.cpp:1152-1201 | a return that succeeds was at the innermost pending frame, goes to exactly the recorded address and moves SP past it; with nothing pending only from SP = 0 to address 0 |
| ShadowStack.ReturnKeepsShadow | libgb/cpu/instructions.cpp:1152-1201 | returns keep the mirror too |
| ShadowStack.QuietKeepsShadow | libgb/cpu/cpu.cpp:69-113 | and so does everything that passes the write-time guard |
| ShadowStack.DepthBound | libgb/cpu/cpu.cpp:84-92 | pending pointers are pairwise distinct, so at most 32768 calls are pending |
| ShadowStack.SafeReturnSucceeds | libgb/cpu/instructions.cpp:1152-1201 | the write-time guard suffices at a frame in 0x8000-0x9FFF, 0xDE00-0xDFFF or 0xFF80-0xFFFF: a return succeeds if and only if SP is back at it and its bytes can be read; the value check of RET cannot fail; in high RAM nothing can stop it |
| GuardLimits.CallLeavesIntact | libgb/cpu/instructions.cpp:1107-1123 | a call leaves its return address in its frame, in any kind of memory |
| GuardLimits.WriteSpares | libgb/cpu/cpu.cpp:69-92 | a frame anywhere in memory is intact after a permitted write if and only if the write spares it, a condition on the write and the memory before it |
| GuardLimits.WorkRamFrame | libgb/memory_map.cpp:132-140 | in work RAM the guard misses exactly the writes, defined or not, through another address of the frame that write another byte |
| GuardLimits.SpriteFrame | libgb/memory_map.cpp:57-72 | in sprite memory it misses exactly the DMAs that bring other bytes |
| GuardLimits.BankedFrame | libgb/controller/mbc1.cpp:80-113 | in cartridge RAM it misses exactly the switches to a bank with other bytes there |
| GuardLimits.SafeFrame | libgb/cpu/cpu.cpp:84-92 | in tile and map memory and where nothing has an alias it misses nothing, DMA included |
| GuardLimits.OnlyWritesDamage | libgb/cpu/cpu.cpp:18-45 | no read and no device update changes any byte of memory (what reads refuse: GuardedAccess.ReadIsGuarded) |
| GuardLimits.ReturnChecks | libgb/cpu/instructions.cpp:1152-1201 | a return to a frame in any memory succeeds if and only if SP is back, the frame can be read and it is intact; damage to a readable frame is always reported, as undefined data or a clobbered address |
| GuardLimits.CallWriteReturn | libgb/cpu/instructions.cpp:1107-1201 | a call, one permitted write and the return: it succeeds if and only if the write spared the frame, unless the frame cannot be read |
| GuardLimits.EchoDefeatsTheGuard | libgb/memory_map.cpp:132-140 | the failing input: after any call with an echoed frame, any other byte written through the echo passes the guard, and the return that would have succeeded stops |
| ControlFlow.ReturnUnwinds | libgb/cpu/instructions.cpp:1152-1201 | each return matches the innermost unmatched call, its address and its stack pointer |
| ControlFlow.RunUnwinds | libgb/gb.cpp:47-54 | the transfers of any error-free run, replayed on the pending frames at its start, give the pending frames at its end |
| ControlFlow.RunsAreWellBracketed | libgb/cpu/instructions.cpp:1107-1228 | from power-on every RET and RETI matches the most recent open CALL, RST or dispatch, resumes at the saved pc and restores the SP before the call |
| StackLaws.PopUndoesPush | libgb/cpu/instructions.cpp:297-320 | in RAM without aliases PUSH then POP of the same pair restores every register, undefined halves included; into another pair it copies the word, refused exactly when F would get an undefined byte; five cycles |
| Runs.StepKeeps | libgb/gb.cpp:47-54 | one step keeps the shadow mirror, audio ranges, bank ranges and sequencer count, and adds 1 to 9 cycles |
| Runs.PowerOnSound | libgb/memory_map.cpp:17-55 | construction succeeds for every cartridge and ends in a sound state at cycle 0 |
| PowerUp.PoweredOn | libgb/memory_map.cpp:17-55 | construction byte by byte: RAM undefined, processor registers, display and palettes set; the sound unit has power but its registers stay 0, being switched on after the writes to them |
| PowerUp.RamStartsUndefined | libgb/memory_map.cpp:20-22 | after construction every guarded read of RAM is undefined data |
| Runs.RunShowsAll | libgb/io/io.cpp:200-220 | from power-on the front end is sent exactly the events of the run |
| Runs.RunsAreSound | libgb/gb.cpp:47-54 | every error-free run from power-on stays sound: mirror, audio ranges, bank ranges, event rates, with at most 32768 pending calls and every buffered sample in [-1, 1] |
| Timing.TableAgrees | tests/instr_timing/readme.txt:26-41 | for every opcode the cycle charges agree with the documented table, not-taken branches; opcodes without an instruction stop (what each does: Conformance.ProcessorConforms) |
| Timing.BitTableAgrees | tests/instr_timing/readme.txt:45-60 | the same for the CB page |
| Timing.InstructionTiming | libgb/cpu/opcodes.cpp:21-500 | every instruction that does not stop, in every state whatever, takes exactly its documented cycles, plus 1 for a taken JP/JR and 3 for a taken CALL/RET |
| Effects.PlainQuiet | libgb/cpu/instructions.cpp:109-1105 | an instruction that is not a call or return takes its exact cycles and leaves the shadow stack, the guarded memory and the interrupt line alone |
| Console.InterruptEffect | libgb/cpu/cpu.cpp:129-162 | interrupt handling either calls the handler of the lowest pending enabled request, or only wakes the processor |
| Console.ClockKeeps | libgb/cpu/cpu.cpp:164-181 | one clock adds between 1 and 9 cycles, dispatch included, and keeps the shadow stack mirrored |
| LcdLaws.LcdRequests | libgb/io/gpu.cpp:187-269 | an LCD update raises bit 0 of IF if and only if it shows a VBlank, bit 1 if and only if it enters a stage whose STAT enable is on or starts the line in LYC with bit 6 on; no other bit changes and none is cleared |
| LcdLaws.LcdRegisters | libgb/io/gpu.cpp:209-269 | LY, the stage and the coincidence flag in STAT, the dot and window counters and the events after any update, from the dot alone; nothing else changes |
| LcdLaws.UpdateRequests | libgb/io/io.cpp:200-220 | which interrupts a whole update requests: VBlank, LCD, timer when TIMA passes 0xFF, and a newly pressed key at the end of a frame |
| FrameTrace.AllVBlanksRequested | libgb/io/gpu.cpp:250-257 | in any sequence of updates bit 0 of IF is set after one if and only if it was set before or the update shows a VBlank |
| FrameTrace.UpdateOnTrack | libgb/io/gpu.cpp:209-269 | an update at most 208 dots after the last emits at most the next event of the frame |
| FrameTrace.UpdatesFollowTheFrame | libgb/io/gpu.cpp:187-269 | any sequence of updates at most gap <= 52 cycles apart, with the LCD on and frames wanted, sends the screen lines 0..143 once each in order, one VBlank request and one commit, over and over, each VBlank being a request in bit 0 of IF; a frame takes at least 70224 dots and less than 70224 + 4*gap |
| FrameTrace.RunUpdates | libgb/gb.cpp:47-54 | the updates of a console run are such a sequence with gap 9 |
| FrameTrace.RunTracks | libgb/gb.cpp:47-54 | with the LCD kept on, the screen events of a run continue the frame pattern from wherever it stands, each frame on time |
| FrameTrace.FramesFromPowerOn | libgb/io/gpu.cpp:187-269 | from power-on: lines 0..143 once each in order, one VBlank request, one commit, repeatedly and nothing else, each VBlank requested in bit 0 of IF; each frame takes 70224 dots plus fewer than 36 (17556 to 17564 cycles) |
| Timers.ReduceTimerClosedForm | libgb/io/io.cpp:146-160 | the catch-up loop in closed form: with k = cycles/threshold, TIMA goes from T to T+k below 256 and else to TMA + (T+k-256) mod (256-TMA), the interrupt is raised iff T+k >= 256, and cycles mod threshold remain |
| Timers.TimaAdds | libgb/io/io.cpp:146-160 | ticking j times and then k times is ticking j+k times, whether the interrupt was raised included |
| Timers.UpdateTimersEffect | libgb/io/io.cpp:162-194 | one catch-up moves TIMA, DIV, interrupt flag, residue and dot count as the closed form says (in numbers: Timers.TimersOverAnInterval) and leaves the other registers alone |
| Timers.CatchUpsClosedForm | libgb/io/io.cpp:162-194 | however an interval is cut up, the result is the closed form over the whole interval (in numbers: Timers.TimersOverAnInterval) |
| Timers.TimersOverAnInterval | libgb/io/io.cpp:162-194 | over any interval, however cut up, TIMA ticks once per 256, 4, 16 or 64 cycles for TAC mod 8 = 4, 5, 6 or 7 and not at all below 4; reload, request, residue, DIV and dots in numbers |
| Timers.LazyRefinesEager | libgb/io/io.cpp:146-194 | lazy catch-ups equal catching up after every single cycle |
| Timers.CatchUpInStep | libgb/io/apu.cpp:46-77 | a catch-up after at most 1024 cycles keeps the edge count at cycle/2048, and the tally of events run at cycle/4096 length, cycle/8192 sweep, cycle/16384 envelope |
| Timers.SequencerNeverLosesAnEdge | libgb/io/apu.cpp:46-77 | so no falling edge of DIV bit 4 is lost, and the events keep those rates, on any sequence of catch-ups with gaps of at most 1024 cycles |
| Runs.EventsAtTheirRates | libgb/io/apu.cpp:46-77 | the same for any error-free console run, register writes included: over the run exactly the edges between its ends are counted and their length, sweep and envelope events run |
| AudioEvents.OnlySweepEventsSweep | libgb/io/apu.cpp:46-77 | only every fourth edge touches the sweep |
| AudioEvents.SweepFiresAtPace | libgb/io/apu.cpp:489-551 | an active sweep with n events to go moves the period exactly at the n-th, to its target, reloads its countdown from the pace, and silences the channel if and only if this or the next target passes 11 bits |
| AudioEvents.ChannelFollowsTheClock | libgb/io/apu.cpp:446-487 | while registers are left alone, each channel hears cycle/4096 length events and cycle/16384 envelope events: silent after exactly the events its length timer has left (channel 1 perhaps earlier), volume one step per pace, clamped to 0..15 |
| AudioInvariants.MixBound | libgb/io/apu.cpp:261-321 | each mixed side lies in [-1, 1] whenever the four levels are at most 15 |
| AudioInvariants.TickInv | libgb/io/apu.cpp:250-321 | one audio clock keeps counters below 0x800, points and levels in range, length timers below 64 or 256, pace nonzero with the envelope timer in 1..pace, and every buffered sample in [-1, 1] |
| AudioInvariants.FrameSequencerInv | libgb/io/apu.cpp:46-77 | the events of an edge keep the same ranges, an active sweep with countdown at least 1 |
| AudioInvariants.ClockToInv | libgb/io/apu.cpp:238-248 | clocking to any target keeps them |
| AudioInvariants.WriteApuInv | libgb/io/apu.cpp:79-188 | every register write keeps them |
| AudioClocking.ClockToBatch | libgb/io/apu.cpp:238-248 | without a DIV change in between, clocking to t1 and then t2 is clocking to t2 |
| AudioClocking.PulseClosedForm | libgb/io/apu.cpp:323-345 | after n ticks the sample point has advanced 0 or 1 + (c+n-2048)/(2048-p) times and the counter is where that leaves it |
| AudioClocking.TicksDrivePulses | libgb/io/apu.cpp:250-259 | clocking the whole unit ticks each pulse channel once per four clocks |
| AudioClocking.DrainingLosesNothing | libgb/io/apu.cpp:426-444 | samples drained plus samples buffered are, in order, exactly the samples an undrained run of the same writes and clockings produces |
| AudioClocking.SessionInv | libgb/io/apu.cpp:79-188 | the ranges and the sample bound hold after any interleaving of writes, clocking and draining |
| SoundBytes.PulseSounds | libgb/io/apu.cpp:323-345 | after n ticks a pulse channel puts out its duty waveform at the point the overflows of its 11-bit period lead to |
| SoundBytes.WaveSounds | libgb/io/apu.cpp:347-388 | after n ticks the wave channel puts out that nibble of 0xFF30-0xFF3F, muted or shifted by its volume |
| SoundBytes.TicksDriveWave | libgb/io/apu.cpp:250-259 | the wave channel ticks every second clock |
| SoundBytes.NoiseBits | libgb/io/apu.cpp:390-424 | one noise step bit by bit, short mode included |
| SoundBytes.NoiseSounds | libgb/io/apu.cpp:390-424 | noise reloads, steps and is heard as 0xFF22 says |
| SoundBytes.MixerSides | libgb/io/apu.cpp:261-321 | each side is the sum of the channels its panning bits select, scaled by its volume bits |
| SoundBytes.SamplesOnTime | libgb/io/apu.cpp:261-268 | n clocks produce one sample every clocksPerSample + 1 |
| SoundBytes.TriggerWrites | libgb/io/apu.cpp:553-592 | bit 7 of a control register restarts its channel from its registers, the sweep of channel 1 included |
| SoundBytes.PlainWrites | libgb/io/apu.cpp:128-177 | length writes reload the timer, silent envelopes and the wave DAC switch off, in the one channel |
| SoundBytes.SweepWrites | libgb/io/apu.cpp:109-127 | an unlocked sweep reloads, a locked one only notices that it is switched off |
| SoundBytes.PowerWrites | libgb/io/apu.cpp:598-616 | 0xFF26 switches the power; off clears 0xFF10-0xFF25 and ignores writes |
| SoundBytes.SoundReads | libgb/io/apu.cpp:190-236 | what every sound register reads as, mask by mask, and the status byte |
| Arithmetic.AdcAdds | libgb/cpu/instructions.cpp:322-359 | ADC adds with carry modulo 256; C and H are the carries out of bits 7 and 3 |
| Arithmetic.SbcSubtracts | libgb/cpu/instructions.cpp:361-400 | SBC subtracts with borrow modulo 256; C and H are the borrows |
| Arithmetic.DaaAfterAdc | libgb/cpu/instructions.cpp:630-661 | after ADC of packed digits DAA leaves the decimal sum and carry |
| Arithmetic.DaaAfterSbc | libgb/cpu/instructions.cpp:630-661 | after SBC of packed digits DAA leaves the decimal difference and borrow |
| Arithmetic.ChainAddsBinary | libgb/cpu/instructions.cpp:346-359 | ADC over byte strings of any length is base-256 addition with carry in and out |
| Arithmetic.ChainSubtractsBinary | libgb/cpu/instructions.cpp:387-400 | SBC over byte strings of any length is base-256 subtraction with borrow |
| Arithmetic.ChainAddsDecimal | libgb/cpu/instructions.cpp:630-661 | ADC with DAA over packed-decimal strings of any length gives the digits of the sum modulo 100^n and its carry |
| Arithmetic.ChainSubtractsDecimal | libgb/cpu/instructions.cpp:630-661 | SBC with DAA gives the digits of the difference modulo 100^n and its borrow |
| AluLaws.ShiftMeans | libgb/cpu/instructions.cpp:752-1007 | every CB-page rotate and shift computes its number, Z iff it is 0, C the bit that fell out (SWAP clears it) |
| AluLaws.ShiftsUndo | libgb/cpu/instructions.cpp:752-1007 | right rotates undo left ones, through the carry they restore the carry too; SWAP undoes itself; SRA halves the signed value rounding down |
| AluLaws.BitInstructions | libgb/cpu/instructions.cpp:1009-1048 | BIT reports bit b; SET and RES put it and leave the other seven alone |
| AluLaws.LogicIsBitwise | libgb/cpu/instructions.cpp:402-452 | AND, OR, XOR and CPL work bit by bit |
| AluLaws.IncrementUndone | libgb/cpu/instructions.cpp:473-510 | DEC undoes INC; H marks the nibble wrap, C is untouched |
| AluLaws.CompareSubtracts | libgb/cpu/instructions.cpp:454-471 | CP leaves exactly the flags of SUB and keeps A |
| AluLaws.AddWordsAdds | libgb/cpu/instructions.cpp:512-528 | ADD HL adds modulo 65536; H and C are the carries out of bits 11 and 15, Z stays |
| AluLaws.AddSignedAdds | libgb/cpu/instructions.cpp:530-550 | SP plus a signed byte modulo 65536; H and C as for the unsigned low bytes |
| InterruptLine.DispatchTakesTheLowest | libgb/cpu/cpu.cpp:129-162 | a dispatch takes the lowest pending enabled bit and clears exactly that bit of IF and nothing else |
| InterruptLine.InterruptsExactly | libgb/cpu/cpu.cpp:129-162 | interrupt handling exactly: an undefined enable register stops, an enabled request wakes, and is dispatched to 0x40 + 8 * bit if the line is on |
| InterruptLine.EnabledSince | libgb/cpu/instructions.cpp:730-750 | if interrupts are enabled some time after a dispatch, a RETI ran since, or an EI and one further instruction |
| InterruptLine.RunFollows | libgb/cpu/cpu.cpp:164-181 | the enable line of any error-free run is the delay line of what its instructions asked for |
| InterruptLine.InterruptsFromPowerOn | libgb/cpu/cpu.cpp:129-181 | from power-on: the enable at each boundary is what EI/DI asked for one instruction earlier (RETI at once, dispatch off at once), and no second dispatch before a RETI or an EI and one instruction |
| Evolution.WriteEvolves | libgb/memory_map.cpp:119-173 | a write changes no unaliased byte but the one addressed, not even through a DMA, and no write moves the clock |
| Evolution.CartWriteKeepsBanks | libgb/controller/mbc1.cpp:63-118 | over any MBC1 writes the ROM bank is at most 127 and never a multiple of 32 |
| FlatMemory.BanksInRange | libgb/controller/mbc1.cpp:32-61 | so every ROM access stays inside a 2 MB image, the switchable window never shows bank 0, and RAM indices stay below 0x8000 |
| VideoMemory.VideoReadOverWrite | libgb/io/gpu.cpp:123-157 | pattern, map and sprite decoders: a read after a write sees it at the same address only |
| VideoMemory.VideoCovered | libgb/io/gpu.cpp:123-157 | and together the addresses reach every byte: the decoders are bijections |
| FlatMemory.ReadIsStored | libgb/memory_map.cpp:74-117 | reading storage returns what is stored and changes nothing, unless the picture unit is busy |
| FlatMemory.WriteIsStored | libgb/memory_map.cpp:119-173 | a successful write to storage changes exactly the address and its echo alias |
| MemoryBytes.ReadsByAddress | libgb/memory_map.cpp:74-117 | what the CPU reads at every address, range by range |
| MemoryBytes.WritesByAddress | libgb/memory_map.cpp:119-173 | what the CPU writes at every address, range by range |
| MemoryBytes.BankWrites | libgb/controller/mbc1.cpp:63-118 | every MBC1 write in numbers: enable, five low bank bits with 0 as 1, RAM bank or upper bits, mode, banked RAM |
| MemoryBytes.RegisterReads | libgb/io/io.cpp:37-78 | what every I/O register reads as, and which catch up first |
| MemoryBytes.RegisterWrites | libgb/io/io.cpp:80-144 | what every I/O register stores, masks and refuses |
| MemoryBytes.JoypadBits | libgb/io/io.cpp:39-51 | the joypad register bit by bit |
| MemoryBytes.SerialSends | libgb/io/io.cpp:85-96 | a serial transfer sends the data byte, and requests its interrupt |
| FlatMemory.WriteLeavesDevices | libgb/memory_map.cpp:119-173 | and no register, clock, bank register or RAM of another bank |
| FlatMemory.WriteChanges | libgb/memory_map.cpp:119-173 | what every storage cell holds after any successful write anywhere: aliases, DMA and bank switches are the only ways to change it |
| FlatMemory.DmaCopies | libgb/memory_map.cpp:57-72 | a DMA that succeeds sets sprite byte i to the byte at page*256+i before it, for all 160, starts the bus lock and changes nothing else |
| Compositor.ScanFindsFirst | libgb/io/gpu.cpp:271-341 | the sprite scan stops at the first sprite in table order that is among the first ten of the line, covers the column and is opaque there |
| Compositor.SpriteAtIsFirst | libgb/io/gpu.cpp:271-341 | the sprite layer at every pixel is that sprite, or none if there is none or sprites are off |
| Compositor.PixelIsTopmost | libgb/io/gpu.cpp:159-185 | a pixel is the topmost of front sprite, window, background and back sprite (from bytes: ScreenBytes.PixelFromBytes) |
| Compositor.LineShades | libgb/io/gpu.cpp:159-185 | a line is one pixel per column 0..159 in order, every shade below 4 |
| Compositor.MapLookupPeriodic | libgb/io/gpu.cpp:343-369 | background and window lookups wrap every 256 pixels in both directions (which bytes they read: ScreenBytes.MapShadeIs) |
| ScreenBytes.MapShadeIs | libgb/io/gpu.cpp:343-369 | a background or window pixel from the bytes of memory: map byte at 0x9800 or 0x9C00, tile row at 0x8000 or signed from 0x9000, bit 7 - x mod 8 of two bytes, field of 0xFF47 |
| ScreenBytes.SpriteAtIs | libgb/io/gpu.cpp:271-341 | the sprite layer from the bytes of 0xFE00-0xFE9F: rows, mirrors, tile, palette and priority by attribute bits |
| ScreenBytes.PixelFromBytes | libgb/io/gpu.cpp:159-185 | every pixel has the shade that the bytes of memory and the registers give it, by address and bit |
| ScreenBytes.LineFromBytes | libgb/io/gpu.cpp:159-185 | a rendered line is those shades for the line in LY |
| GdbFraming.FrameText | libgb/gdb/remote_server.cpp:144-157 | a frame is '$', payload, '#' and the byte sum modulo 256 as two lower-case hexadecimal digits |
| GdbFraming.ParseFrame | libgb/gdb/remote_server.cpp:103-157 | every payload survives framing and parsing, with or without a leading acknowledgement |
| GdbFraming.CorruptionDetected | libgb/gdb/remote_server.cpp:103-134 | a packet with any one payload byte changed is rejected |
| GdbFraming.DecodeEncode | libgb/gdb/remote_server.cpp:40-72 | hex decoding undoes hex encoding for all byte strings |
| GdbFraming.CalculateChecksum | libgb/gdb/remote_server.cpp:74-80 | the loop computes the hex of the byte sum modulo 256 |
| GdbFraming.EncodeAsHex | libgb/gdb/remote_server.cpp:65-72 | the loop computes the hex encoding of the whole string |
| GdbFraming.DecodeHexString | libgb/gdb/remote_server.cpp:56-63 | the loop decodes pair by pair, failing where a pair has no number |
| GdbFraming.SendResponse | libgb/gdb/remote_server.cpp:144-157 | what is sent is the frame of the data, and it parses back to the data |
| AudioDevice.APU.TickDivApu | libgb/io/apu.cpp:46-77 | in place: counts the edge and fires its events |
| AudioDevice.APU.ClockTo | libgb/io/apu.cpp:238-248 | in place: the clocking loop computes the closed clocking function |
| AudioDevice.APU.Write | libgb/io/apu.cpp:79-188 | in place: a register write with its effects; no assertion of the switch can fail |
| AudioDevice.APU.TickPulseChannel | libgb/io/apu.cpp:323-345 | in place: one pulse tick; its duty assertion holds |
| AudioDevice.APU.TickChannel3 | libgb/io/apu.cpp:347-388 | in place: one wave tick; its unreachable case is unreachable |
| AudioDevice.APU.TickChannel4 | libgb/io/apu.cpp:390-424 | in place: one noise tick; its level assertion holds |
| AudioDevice.APU.Ch1FreqSweepEvent | libgb/io/apu.cpp:489-514 | in place: one sweep event; the 11-bit assertion on a written period holds |
| PictureDevice.GPU.SpriteOverridesPixel | libgb/io/gpu.cpp:271-341 | the sprite loop finds the first sprite that shows |
| PictureDevice.GPU.RenderLine | libgb/io/gpu.cpp:159-185 | the pixel loop sends the front end the 160 pixels of the line |
| PictureDevice.GPU.UpdateLCD | libgb/io/gpu.cpp:209-269 | in place: one LCD update; the front end is sent exactly its events |
| IoDevice.IO.ReduceTimer | libgb/io/io.cpp:146-160 | in place: the TIMA loop |
| IoDevice.IO.IoRead | libgb/io/io.cpp:37-78 | in place: register reads with their masks, catch-ups and refusals |
| IoDevice.IO.IoWrite | libgb/io/io.cpp:80-144 | in place: register writes with their effects and refusals |
| IoDevice.IO.Update | libgb/io/io.cpp:200-220 | in place: catch-up, drain, LCD update and key polling in order |
| MemoryDevice.MBC1.Write | libgb/controller/mbc1.cpp:63-118 | in place: bank registers and banked RAM, or the error |
| MemoryDevice.MemoryMap.Write | libgb/memory_map.cpp:119-173 | in place: the address decoder over arrays, DMA trigger included |
| MemoryDevice.MemoryMap.DMA | libgb/memory_map.cpp:57-72 | in place: the copy loop |
| ProcessorDevice.CPU.Return | libgb/cpu/instructions.cpp:1152-1201 | in place: the return and its checks, in order |
| ProcessorDevice.CPU.HandleInterrupts | libgb/cpu/cpu.cpp:129-162 | in place: the bit loop takes the lowest request |
| ProcessorDevice.CPU.Execute | libgb/cpu/opcodes.cpp:21-500 | in place: every instruction |
| ProcessorDevice.PowerOn | libgb/memory_map.cpp:17-55 | builds front end, I/O block, cartridge, memory map and processor; the console stands in exactly the power-on state |
| ProcessorDevice.GB.Run | libgb/gb.cpp:47-54 | in place: any number of steps end in exactly the state of the modelled run, or stop with its error |
| ProcessorDevice.Play | libgb/gb.cpp:47-54 | a console built and run: it ends where the modelled run from power-on ends, and its front end has received exactly that run's pixels and commits |

## Left out

- Permissive mode, where violations are reported and execution goes on: undefined results are then marked defined, and the undefined-data property does not hold.
- States after an error, and the `reset()` paths: a reset keeps the shadow stacks and the audio clock. Runs start at construction.
- Sockets, GDB command dispatch, breakpoints, ELF and ROM loading, threads, the SDL front end and the audio filters: I/O and foreign calls.
- The debug copy of the registers, and the sample statistics the audio unit keeps without using them.
- Wrap-around of the 64-bit cycle counters, which take over 100 000 years to fill.
- Floating-point rounding of samples.
- AudioEvents.ChannelFollowsTheClock: for channel 1 says when it must be silent but not that it still sounds, since its sweep can silence it earlier.
- AudioInvariants.TickInv: says nothing of the counter of channel 4, which is zero after a trigger and is decremented before it is tested.
- FrameTrace.FramesFromPowerOn: assumes that the program leaves the LCD on and the front end wants every frame; the program decides the one and the front end the other.
- GuardLimits.CallLeavesIntact: frames with a byte in ROM, in the I/O page or in the unused page are not memory, and a CALL that writes there is left to the bus functions.
- PictureDevice.GPU.UpdateLCD: the three video tables are sequence-valued fields, not nested arrays, so the C++ references into them are not modelled.
- ProcessorDevice.CPU.Execute: decoding is a function of the opcode instead of one case per opcode with its call inline.
