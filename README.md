# CHIP-8 interpreter core in Dafny

A model of the CHIP-8 virtual machine that `src/main.rs` implements: the
`Machine` record (4 KiB of memory, a 64×32 monochrome framebuffer, sixteen
8-bit registers V0–VF, a 16-entry call stack, sixteen keys, the index register
I, the program counter, the stack pointer, the delay and sound timers, the
draw flag and the key-wait state), `init_machine`, `load_program`,
`run_cycle` with its full instruction set, and the three kinds of event the
main loop handles: an update runs one cycle unless a key wait is pending, a
render counts the timers down, and a key press or release updates the keypad
and can end a key wait.

The model has two layers.

- `Chip8State`, `Chip8Cpu` and `Sprite` describe the machine as a `State`
  value and every operation as a function returning `Result<State>`. A
  result is either the next state or the `Fault` that stops the Rust
  process. A fault is an `exit` on an unknown opcode, or a panic on an index
  past an array or on a `u8`/`u16` overflow. `Chip8Properties` and `Sprite`
  prove what the instructions promise about these functions.
- `Chip8Machine.Machine` is the same record as an object. Its memory,
  screen, registers, stack and keys are arrays that its methods update in
  place, with loops where the Rust code loops. Each method is proved to
  leave the object in the state the corresponding function computes, or to
  report the same fault. So every lemma about the functions holds for the
  object.

The draw instruction `Dxyn` is described twice. `DrawCols`/`DrawRows` follow
the source's nested loops, clipping tests included. `RowMask`/`SpriteMask`
give the set of framebuffer indices the sprite toggles. The lemmas prove that
the two agree, and derive the XOR, collision, redraw and clipping
properties from that.

The source's integer widths are written out. `u8` arithmetic wraps with
`% 0x100` where the source uses `overflowing_*`, and the `u16` index
register wraps in `Fx1E`. Where the source uses plain `-=` or `+=` on a
`u8`/`u16`, the overflow panic of a build with overflow checks on (the debug
profile) becomes a fault; a release build would wrap silently instead:

- `00EE` on an empty stack is `StackUnderflow`;
- a return to a stored address above 0xFFFD is `ProgramCounterOverflow`.

The source has these quirks, and the model keeps them:

- The draw loop clips rows only once `y + line > 32` and columns once
  `x + col > 64`. So column 64 lands on column 0 of the next row, and a set
  bit in row 32 indexes past the framebuffer and faults.
- `8xy6` and `8xyE` write VF before shifting V[x], so with x = F the result
  is the shifted flag.
- `8xyE` stores the masked top bit in VF: 0x80, not 1.
- `Bnnn` can set `pc` past memory, and the next fetch then faults.
- `2nnn` pushes the address of the call itself, and `00EE` adds 2 to it.

## Model

| member | source | states |
|---|---|---|
| Chip8State.InitState | src/main.rs:220-242 | the font occupies bytes 0..80; every other byte, pixel, register, stack slot, key, timer and flag is zero or false; `pc` is 0x200 |
| Chip8State.Load | src/main.rs:244-252 | succeeds exactly when the image fits above 0x200; the image then lies at 0x200.., every other byte and all other fields unchanged; otherwise the fault is the index 4096 the copy loop reaches |
| Chip8State.Fetch | src/main.rs:258 | succeeds exactly when `pc + 1` is inside memory, and the opcode's high byte is `memory[pc]` and its low byte `memory[pc + 1]`; otherwise the first out-of-range index is the fault |
| Chip8Cpu.ExecSystem | src/main.rs:263-281 | `00E0`, `00EE` and `0NNN` keep the state well formed; their effects are stated by `ClearScreen`, `ReturnPops`/`CallThenReturn` and `SystemNop` |
| Chip8Cpu.ExecAlu | src/main.rs:328-384 | register arithmetic keeps the state well formed; each of the nine operations' effect is stated by a lemma below (`Assign`, `BitwiseKeepsFlag`, `AddWithCarry`, `SubtractWithBorrow`, `ShiftRight`, `ReverseSubtract`, `ShiftLeft`), and every other `8xyN` by `UnknownOpcodeExactly` |
| Chip8Cpu.ExecDraw | src/main.rs:411-441 | `Dxyn` keeps the state well formed; its effect, through the loop model `Sprite.DrawSprite` (lines 420-438), is stated by `DrawInstruction` |
| Chip8Cpu.ExecKeySkip | src/main.rs:442-464 | `Ex9E`/`ExA1` keep the state well formed; their effect is stated by `KeySkips` |
| Chip8Cpu.ExecMisc | src/main.rs:465-521 | the `Fx**` group keeps the state well formed; each instruction's effect is stated by a lemma below: `TimerTransfers`, `WaitThenPress`, `AddToIndex`, `GlyphIndex` and `FontAddress`, `BcdDigits` (memory as `Bcd` gives it, lines 496-499), `DumpRegisters` (`Dumped`, lines 503-505), `LoadRegisters` (`Loaded`, lines 510-512) |
| Chip8Cpu.Execute | src/main.rs:262-526 | every instruction keeps the state well formed; each of the 35 instructions' effect is stated by a lemma below (`Cxnn`, whose value is `RandomMasked` of lines 405-408, by `RandomMask`) |
| Chip8Cpu.Cycle | src/main.rs:254-262 | a cycle whose `pc` cannot be fetched faults with the out-of-range index, and any result is well formed |
| Chip8Cpu.Step | src/main.rs:89-99 | during a key wait an update event changes nothing, but still faults when the opcode at `pc` lies past memory; otherwise it is exactly one `Cycle` |
| Chip8Cpu.Countdown | src/main.rs:148-153 | a timer never increases, and stays put exactly when it is 0 or a key wait is pending |
| Chip8Cpu.TickTimers | src/main.rs:144-153 | a render event clears the draw flag, counts each timer down as `Countdown` does, and changes nothing else |
| Chip8Cpu.SetKey | src/main.rs:182-210 | the key's state is set; a press during a key wait also stores the key in the waiting register and ends the wait, and changes nothing else; any other press or release changes nothing else |
| Sprite.DrawCols | src/main.rs:427-437 | one sprite row keeps the framebuffer at 2048 pixels; `DrawColsIsMask` gives its effect |
| Sprite.DrawRows | src/main.rs:422-438 | the row loop keeps the framebuffer at 2048 pixels; `DrawRowsIsMask` gives its effect |
| Sprite.RowMaskBound | src/main.rs:427-435 | every index a row toggles lies between its first column and its column x+7 on that row, inside the grid |
| Sprite.SpriteMaskBound | src/main.rs:422-435 | every index a sprite toggles lies at or after its first row, inside the grid |
| Sprite.DrawColsIsMask | src/main.rs:427-437 | the column loop equals XOR with the row's mask, with the collision flag set when a lit pixel in the mask is toggled, and the same fault |
| Sprite.DrawRowsIsMask | src/main.rs:422-438 | the row loop equals XOR with the sprite's mask, with the same fault |
| Sprite.DrawIsXor | src/main.rs:420-438 | whether a draw faults does not depend on the screen; every pixel ends as its old value XOR membership in the mask |
| Sprite.DrawCollision | src/main.rs:432-434 | the collision flag is set exactly when some lit pixel was turned off |
| Sprite.DrawOnBlankScreen | src/main.rs:420-435 | drawing on a blank screen never reports a collision |
| Sprite.DrawTwiceRestores | src/main.rs:431-435 | drawing the same sprite twice restores the screen; the second draw collides exactly when the first lit a pixel |
| Sprite.DrawInsideScreen | src/main.rs:422-436 | a sprite inside the screen and memory does not fault, flips exactly the pixels under its set bits, and leaves every pixel outside its box alone |
| Sprite.ColumnSixtyFourWraps | src/main.rs:428-435 | a full row at x ≥ 57, drawn above the last screen row, toggles column 0 of the next screen row |
| Sprite.RowThirtyTwoFaults | src/main.rs:423-435 | a sprite on row 31 whose first row is blank and whose second row has its first bit set faults at index x + 2048 |
| Chip8Properties.LoadIntoFreshMachine | src/main.rs:238-249 | a fresh machine with an image that fits holds font, image and zeros elsewhere, and is ready to fetch at 0x200 |
| Chip8Properties.CycleRunsWordAtPc | src/main.rs:256-258 | a cycle executes the big-endian word at `pc` |
| Chip8Properties.RegisterSkips | src/main.rs:290-393 | `3xnn`, `4xnn`, `5xy0`, `9xy0` change only `pc`, by 4 exactly when their comparison holds, by 2 otherwise |
| Chip8Properties.KeySkips | src/main.rs:442-463 | `Ex9E`/`ExA1` fault exactly when V[x] names no key; otherwise they change only `pc`, by 4 exactly when the key is down (up) |
| Chip8Properties.Jumps | src/main.rs:282-284 | `1nnn` sets `pc` to nnn and `Bnnn` to nnn + V0, with no advance and no other change |
| Chip8Properties.JumpPastMemoryFaults | src/main.rs:398-400 | a `Bnnn` whose target has no room for a full opcode makes the next cycle fault at the fetch |
| Chip8Properties.ClearScreen | src/main.rs:265-269 | `00E0` blanks every pixel, raises the draw flag and advances; nothing else changes |
| Chip8Properties.SystemNop | src/main.rs:275-278 | every other `0NNN` is not an error: it only advances `pc` |
| Chip8Properties.CallPushes | src/main.rs:285-289 | `2nnn` faults exactly on a full stack; otherwise it stores the current `pc` in the next slot, keeps the other slots, and jumps |
| Chip8Properties.ReturnPops | src/main.rs:270-274 | `00EE` faults on an empty stack or a stored address past 0xFFFD; otherwise it pops and resumes 2 past the popped address |
| Chip8Properties.CallThenReturn | src/main.rs:270-289 | after a call and a callee that leaves the stack as it found it, a return restores `sp` and lands just past the call |
| Chip8Properties.LoadImmediate | src/main.rs:318-322 | `6xnn` sets V[x] to nn and advances; nothing else changes |
| Chip8Properties.SetIndex | src/main.rs:394-397 | `Annn` sets I to nnn (below 0x1000) and advances; nothing else changes |
| Chip8Properties.RandomMask | src/main.rs:401-409 | `Cxnn` sets V[x] to the random byte AND nn and advances, nothing else changes; mask 0 gives 0, mask 0xFF the random byte |
| Chip8Properties.AddImmediate | src/main.rs:323-327 | `7xnn` adds modulo 256, leaves VF and every other register alone, and advances |
| Chip8Properties.Assign | src/main.rs:332-335 | `8xy0` copies V[y] into V[x]; VF and the other registers are kept unless VF is the target |
| Chip8Properties.BitwiseKeepsFlag | src/main.rs:336-347 | `8xy1`–`8xy3` set V[x] to the OR/AND/XOR of V[x] and V[y] and leave VF and every other register alone |
| Chip8Properties.AddWithCarry | src/main.rs:348-354 | `8xy4`: V[x] + 256·VF is the exact sum; with x = F the carry is what remains |
| Chip8Properties.SubtractWithBorrow | src/main.rs:355-361 | `8xy5`: VF = 1 exactly when V[x] ≥ V[y]; V[x] is the difference modulo 256 |
| Chip8Properties.ShiftRight | src/main.rs:362-366 | `8xy6`: 2·V[x] + VF is the old V[x]; with x = F the result is 0 |
| Chip8Properties.ReverseSubtract | src/main.rs:367-373 | `8xy7`: VF = 1 exactly when V[y] ≥ V[x]; V[x] is V[y] − V[x] modulo 256 |
| Chip8Properties.ShiftLeft | src/main.rs:374-378 | `8xyE`: VF is 0 or 0x80, and V[x] + 2·VF is twice the old V[x]; with x = F the result is 0 |
| Chip8Properties.DrawInstruction | src/main.rs:411-441 | `Dxyn` at (V[x] mod 64, V[y] mod 32) faults exactly when the mask does; otherwise it XORs the mask, sets VF to 1 exactly when a lit pixel went dark, raises the draw flag and advances |
| Chip8Properties.DrawTwiceRestoresScreen | src/main.rs:411-441 | executing the same `Dxyn` twice (coordinates not in VF) restores the screen |
| Chip8Properties.DrawInsideScreenInstruction | src/main.rs:411-441 | an on-screen `Dxyn` flips exactly the pixels under the sprite's set bits and nothing outside its box |
| Chip8Properties.RowMaskFault | src/main.rs:427-435 | a sprite row can only fault by indexing past the framebuffer |
| Chip8Properties.SpriteMaskFault | src/main.rs:422-436 | a draw can only fault by reading past memory or indexing past the framebuffer |
| Chip8Properties.TimerTransfers | src/main.rs:468-484 | `Fx07` copies the delay timer to V[x], `Fx15`/`Fx18` copy V[x] to the delay/sound timer; each advances and changes nothing else |
| Chip8Properties.AddToIndex | src/main.rs:485-490 | `Fx1E`: I + 0x10000·VF is the exact sum of the old I and V[x], VF ≤ 1, no other register changes |
| Chip8Properties.BcdDigits | src/main.rs:495-501 | `Fx33` faults exactly when I+2 is past memory; otherwise it writes three decimal digits that recombine to V[x], at I..I+2 only |
| Chip8Properties.GlyphIndex | src/main.rs:491-494 | `Fx29` sets I to 5·V[x] for every V[x] (at most 1275), advances pc by 2 and keeps everything else |
| Chip8Properties.FontAddress | src/main.rs:491-494 | with the font loaded, `Fx29` points I at the five-byte glyph of the digit in V[x] |
| Chip8Properties.DumpRegisters | src/main.rs:502-508 | `Fx55` faults exactly when I+x is past memory; otherwise memory I..I+x holds V0..Vx, no other byte changes, and I advances by x+1 |
| Chip8Properties.LoadRegisters | src/main.rs:509-515 | `Fx65` faults exactly when I+x is past memory; otherwise V0..Vx hold memory I..I+x, the registers above x are kept, and I advances by x+1 |
| Chip8Properties.DumpThenLoad | src/main.rs:502-515 | `Fx55` then `Fx65` from the same I gives back exactly the registers that were dumped |
| Chip8Properties.OnlyStoresWriteMemory | src/main.rs:262-526 | no instruction other than `Fx33` and `Fx55` changes memory |
| Chip8Properties.UnknownOpcodeExactly | src/main.rs:262-526 | the interpreter stops with "unknown opcode" exactly on the opcodes outside the instruction table |
| Chip8Properties.TimersCountDown | src/main.rs:148-153 | without a key wait, n render events take each timer to max(t − n, 0) and change nothing but the draw flag |
| Chip8Properties.TimersFrozenWhileAwaiting | src/main.rs:148-153 | during a key wait any number of render events only clear the draw flag |
| Chip8Properties.TickAtZero | src/main.rs:145-153 | with both timers at 0 a render event only clears the draw flag |
| Chip8Properties.AwaitingIsFixedPoint | src/main.rs:94-96 | during a key wait any sequence of update events leaves the machine unchanged |
| Chip8Properties.WaitThenPress | src/main.rs:472-476 | `Fx0A` starts a wait on V[x], advances pc by 2 and changes nothing else; a key press then stores the key in V[x], ends the wait, and the next update runs a cycle |
| Chip8Properties.ReleaseKeepsWaiting | src/main.rs:191-211 | a release only clears its key: it never ends a wait or writes a register |
| Chip8Properties.RandomAsWrittenMissesFF | src/main.rs:405 | with the generator's range as written, `CxFF` never sets V[x] to 0xFF |
| Chip8Properties.RandomReachesEveryByte | src/main.rs:401-409 | with a full-range random byte, `CxFF` can set V[x] to any byte |
| Chip8Machine.Machine.constructor | src/main.rs:220-242 | builds the arrays and fills the font with a loop; the result is the state `InitState` describes |
| Chip8Machine.Machine.LoadProgram | src/main.rs:244-252 | copies the image byte by byte; the outcome and the new state are those of `Load` |
| Chip8Machine.Machine.RunSystem | src/main.rs:263-281 | in-place `00E0`/`00EE`/`0NNN` with the outcome and state of `ExecSystem` |
| Chip8Machine.Machine.RunAlu | src/main.rs:328-384 | in-place `8xy*` in the source's order of writes, with the outcome and state of `ExecAlu` |
| Chip8Machine.Machine.RunBitwise | src/main.rs:332-347 | in-place `8xy0`–`8xy3`, with the state of `ExecAlu` |
| Chip8Machine.Machine.RunDraw | src/main.rs:411-441 | in-place `Dxyn`, with the outcome and state of `ExecDraw` |
| Chip8Machine.Machine.DrawSpriteRows | src/main.rs:420-438 | the row loop over the framebuffer array gives the screen and VF `DrawSprite` computes, or its fault |
| Chip8Machine.Machine.DrawRow | src/main.rs:427-437 | the column loop over the framebuffer array gives the screen and VF `DrawCols` computes, or its fault |
| Chip8Machine.Machine.RunKeySkip | src/main.rs:442-464 | in-place `Ex9E`/`ExA1`, with the outcome and state of `ExecKeySkip` |
| Chip8Machine.Machine.StoreBcd | src/main.rs:495-501 | the three writes of `Fx33`; faults when I+2 is past memory, else memory becomes `Bcd` |
| Chip8Machine.Machine.DumpRegisters | src/main.rs:502-508 | the `Fx55` loop; faults when I+x is past memory, else memory becomes `Dumped` and I advances |
| Chip8Machine.Machine.LoadRegisters | src/main.rs:509-515 | the `Fx65` loop; faults when I+x is past memory, else the registers become `Loaded` and I advances |
| Chip8Machine.Machine.RunMisc | src/main.rs:465-521 | in-place `Fx**`, with the outcome and state of `ExecMisc` |
| Chip8Machine.Machine.RunTimerOrWait | src/main.rs:468-484 | in-place `Fx07`/`Fx0A`/`Fx15`/`Fx18`, with the state of `ExecMisc` |
| Chip8Machine.Machine.RunFlow | src/main.rs:282-289 | in-place `1nnn`/`2nnn` (and `Bnnn`, lines 398-400), with the outcome and state of `Execute` |
| Chip8Machine.Machine.RunSkip | src/main.rs:290-317 | in-place `3xnn`/`4xnn`/`5xy0` (and `9xy0`, lines 385-393), with the state of `Execute` |
| Chip8Machine.Machine.RunSet | src/main.rs:318-327 | in-place `6xnn`/`7xnn` (and `Annn`, `Cxnn`, lines 394-410), with the state of `Execute` |
| Chip8Machine.Machine.RunExecute | src/main.rs:262-526 | the top-level dispatch, with the outcome and state of `Execute` |
| Chip8Machine.Machine.RunCycle | src/main.rs:254-262 | fetch and execute, with the outcome and state of `Cycle` |
| Chip8Machine.Machine.Step | src/main.rs:89-99 | an update event, with the outcome and state of `Chip8Cpu.Step` |
| Chip8Machine.Machine.TickTimers | src/main.rs:144-153 | the timer part of a render event, leaving the state `Chip8Cpu.TickTimers` computes |
| Chip8Machine.Machine.SetKey | src/main.rs:182-210 | a key press or release, leaving the state `Chip8Cpu.SetKey` computes |

## Left out

- Window, rendering of the framebuffer, the opcode-history panel, the sound indicator, fonts and textures: output only, no effect on the machine.
- Command-line arguments, reading the program file, debug mode, `print_mem` and `_print_gfx`: I/O; the program image is a parameter.
- Event pacing (500 updates and 60 renders per second): timing belongs to the windowing library; the model takes events one at a time.
- The mapping from keyboard keys to hex keys, and unmapped keys: the model's key events carry the hex key 0..15 directly.
- The pause toggle on the space bar: it only suppresses events and never changes the machine.
- The opcode history that update events record: it feeds the display only.
- The random-number generator: its byte is a parameter of every cycle, so the model covers every byte it could return.
- `println!` on `0NNN` and on unknown opcodes: output only; the exit itself is modelled as `UnknownOpcode`.
- Chip8Cpu.TickTimers: does not fault when the opcode at `pc` lies past memory, though the main loop reads it before every event, render events included.
- Chip8Cpu.SetKey: likewise does not model the opcode read that precedes input events.
- Chip8Machine.Machine.RunExecute: after a fault, the state of the object is unspecified, since the Rust process has already stopped; only well-formedness is promised.
- Chip8Machine.Machine.LoadProgram: the source panics on the first byte past memory after copying the bytes before it; the model reports the same index but promises nothing about the partly written memory.

## Findings

| source | as written | input that shows it | evidently intended | confidence | as-written member | corrected member |
|---|---|---|---|---|---|---|
| src/main.rs:405 | `rng.gen_range(0, 255)` excludes its upper bound, so the random byte is never 0xFF | opcode `C0FF`: V0 can never become 0xFF | a uniformly random byte over 0..=255 | not executed | Chip8Properties.RandomAsWrittenMissesFF | Chip8Properties.RandomReachesEveryByte |
