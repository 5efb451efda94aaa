/**
 * `run_cycle` as a function on `State`: fetch the opcode at `pc`, dispatch on
 * its nibbles, and produce the next state or the fault that stops the
 * interpreter. Also the per-event state changes of the main loop: the
 * await-gated update step, the timer tick of the render branch and the
 * key press/release handlers.
 */
module Chip8Cpu {
  import opened Chip8Types
  import opened Chip8State
  import opened Sprite

  /** The instruction at `pc` can be fetched: both of its bytes are in memory. */
  predicate Fetchable(s: State)
  {
    s.pc + 1 < MemorySize
  }

  /** A conditional skip: `pc += 4` when the condition holds, `pc += 2` otherwise. */
  function SkipIf(s: State, cond: bool): State
    requires Fetchable(s)
  {
    s.(pc := s.pc + if cond then 4 else 2)
  }

  /** The plain advance past a two-byte instruction. */
  function Next(s: State): State
    requires Fetchable(s)
  {
    s.(pc := s.pc + 2)
  }

  /** Memory after `Fx55`: `v[0..count]` written to `memory[i..i+count]`, every other byte kept. */
  function Dumped(memory: seq<byte>, v: seq<byte>, i: nat, count: nat): (r: seq<byte>)
    requires |memory| == MemorySize && |v| == RegisterCount && count <= RegisterCount
    ensures |r| == MemorySize
  {
    seq(MemorySize, a requires 0 <= a < MemorySize => if i <= a < i + count then v[a - i] else memory[a])
  }

  /** Registers after `Fx65`: `v[k] = memory[i + k]` for `k < count`, the others kept. */
  function Loaded(v: seq<byte>, memory: seq<byte>, i: nat, count: nat): (r: seq<byte>)
    requires |memory| == MemorySize && |v| == RegisterCount && count <= RegisterCount && (count == 0 || i + count <= MemorySize)
    ensures |r| == RegisterCount
  {
    seq(RegisterCount, k requires 0 <= k < RegisterCount => if k < count then memory[i + k] else v[k])
  }

  /** Memory after `Fx33`: hundreds, tens and units of `value` at `i`, `i + 1`, `i + 2`. */
  function Bcd(memory: seq<byte>, i: nat, value: byte): (r: seq<byte>)
    requires |memory| == MemorySize && i + 2 < MemorySize
    ensures |r| == MemorySize
  {
    memory[i := value / 100][i + 1 := (value / 10) % 10][i + 2 := value % 10]
  }

  /** `rand_val & rand_mask` for `Cxnn`: the random byte arrives as the 8-bit pattern the generator produced. */
  function RandomMasked(rnd: bv8, nn: byte): byte
  {
    (rnd & (nn as bv8)) as int
  }

  /** Group 0x0: clear screen, return, and every other `0NNN`, which only advances. */
  function ExecSystem(s: State, op: u16): (r: Result<State>)
    requires WellFormed(s) && Fetchable(s) && Group(op) == 0x0
    ensures r.Ok? ==> WellFormed(r.value)
  {
    if op == 0x00E0 then
      Ok(s.(gfx := seq(PixelCount, _ => false), drawFlag := true, pc := s.pc + 2))
    else if op == 0x00EE then
      // with overflow checks on, `sp -= 1` panics at 0 and `pc += 2` past 0xFFFF
      if s.sp == 0 then Err(StackUnderflow)
      else if s.stack[s.sp - 1] as int + 2 > 0xFFFF then Err(ProgramCounterOverflow)
      else Ok(s.(sp := s.sp - 1, pc := s.stack[s.sp - 1] + 2))
    else
      Ok(Next(s))
  }

  /** Group 0x8: register-to-register arithmetic; VF is written after V[x] except for the two shifts. */
  function ExecAlu(s: State, op: u16): (r: Result<State>)
    requires WellFormed(s) && Fetchable(s) && Group(op) == 0x8
    ensures r.Ok? ==> WellFormed(r.value)
  {
    var x, y := X(op), Y(op);
    var vx, vy := s.v[x] as int, s.v[y] as int;
    match N(op)
    case 0x0 => Ok(Next(s.(v := s.v[x := vy])))
    case 0x1 => Ok(Next(s.(v := s.v[x := Or8(vx, vy)])))
    case 0x2 => Ok(Next(s.(v := s.v[x := And8(vx, vy)])))
    case 0x3 => Ok(Next(s.(v := s.v[x := Xor8(vx, vy)])))
    case 0x4 => Ok(Next(s.(v := s.v[x := (vx + vy) % 0x100][0xF := if vx + vy > 0xFF then 1 else 0])))
    case 0x5 => Ok(Next(s.(v := s.v[x := (vx - vy) % 0x100][0xF := if vx < vy then 0 else 1])))
    case 0x6 =>
      // VF first, then V[x] is shifted: when x is F the shift reads the new VF
      var v1 := s.v[0xF := vx % 2];
      Ok(Next(s.(v := v1[x := v1[x] / 2])))
    case 0x7 => Ok(Next(s.(v := s.v[x := (vy - vx) % 0x100][0xF := if vy < vx then 0 else 1])))
    case 0xE =>
      var v1 := s.v[0xF := if vx >= 0x80 then 0x80 else 0];
      Ok(Next(s.(v := v1[x := (2 * v1[x] as int) % 0x100])))
    case _ => Err(UnknownOpcode(op))
  }

  /** `Dxyn`: draw `n` sprite rows from memory at I at (V[x] mod 64, V[y] mod 32); VF reports a collision. */
  function ExecDraw(s: State, op: u16): (r: Result<State>)
    requires WellFormed(s) && Fetchable(s) && Group(op) == 0xD
    ensures r.Ok? ==> WellFormed(r.value)
  {
    match DrawSprite(s.memory, s.gfx, s.i, s.v[X(op)] % ScreenWidth, s.v[Y(op)] % ScreenHeight, N(op))
    case Err(f) => Err(f)
    case Ok(c) => Ok(s.(gfx := c.pixels, v := s.v[0xF := if c.collided then 1 else 0], drawFlag := true, pc := s.pc + 2))
  }

  /** Group 0xE: skip on the state of key V[x]. */
  function ExecKeySkip(s: State, op: u16): (r: Result<State>)
    requires WellFormed(s) && Fetchable(s) && Group(op) == 0xE
    ensures r.Ok? ==> WellFormed(r.value)
  {
    var k := s.v[X(op)];
    if NN(op) != 0x9E && NN(op) != 0xA1 then Err(UnknownOpcode(op))
    else if k >= KeyCount then Err(KeyOutOfBounds(k))
    else if NN(op) == 0x9E then Ok(SkipIf(s, s.key[k]))
    else Ok(SkipIf(s, !s.key[k]))
  }

  /** Group 0xF: timers, key wait, I arithmetic, font address, BCD, register dump and load. */
  function ExecMisc(s: State, op: u16): (r: Result<State>)
    requires WellFormed(s) && Fetchable(s) && Group(op) == 0xF
    ensures r.Ok? ==> WellFormed(r.value)
  {
    var x := X(op);
    match NN(op)
    case 0x07 => Ok(Next(s.(v := s.v[x := s.delayTimer])))
    case 0x0A => Ok(Next(s.(awaitKeypress := true, keypressRegister := x)))
    case 0x15 => Ok(Next(s.(delayTimer := s.v[x])))
    case 0x18 => Ok(Next(s.(soundTimer := s.v[x])))
    case 0x1E =>
      var sum := s.i + s.v[x];
      Ok(Next(s.(i := sum % 0x1_0000, v := s.v[0xF := if sum > 0xFFFF then 1 else 0])))
    case 0x29 => Ok(Next(s.(i := s.v[x] as int * 5)))
    case 0x33 =>
      if s.i + 2 >= MemorySize then Err(OutOfRange(s.i))
      else Ok(Next(s.(memory := Bcd(s.memory, s.i, s.v[x]))))
    case 0x55 =>
      if s.i + x >= MemorySize then Err(OutOfRange(s.i))
      else Ok(Next(s.(memory := Dumped(s.memory, s.v, s.i, x + 1), i := s.i + x + 1)))
    case 0x65 =>
      if s.i + x >= MemorySize then Err(OutOfRange(s.i))
      else Ok(Next(s.(v := Loaded(s.v, s.memory, s.i, x + 1), i := s.i + x + 1)))
    case _ => Err(UnknownOpcode(op))
  }

  /** Execute one fetched opcode: the `match opcode & 0xF000` of `run_cycle`. */
  function Execute(s: State, op: u16, rnd: bv8): (r: Result<State>)
    requires WellFormed(s) && Fetchable(s)
    ensures r.Ok? ==> WellFormed(r.value)
  {
    var x, y, nn := X(op), Y(op), NN(op);
    match Group(op)
    case 0x0 => ExecSystem(s, op)
    case 0x1 => Ok(s.(pc := NNN(op)))
    case 0x2 =>
      // indexing `stack[sp]` panics once all 16 entries are in use
      if s.sp >= StackDepth then Err(StackOverflow)
      else Ok(s.(stack := s.stack[s.sp := s.pc], sp := s.sp + 1, pc := NNN(op)))
    case 0x3 => Ok(SkipIf(s, s.v[x] == nn))
    case 0x4 => Ok(SkipIf(s, s.v[x] != nn))
    case 0x5 => Ok(SkipIf(s, s.v[x] == s.v[y]))
    case 0x6 => Ok(Next(s.(v := s.v[x := nn])))
    case 0x7 => Ok(Next(s.(v := s.v[x := (s.v[x] + nn) % 0x100])))
    case 0x8 => ExecAlu(s, op)
    case 0x9 => Ok(SkipIf(s, s.v[x] != s.v[y]))
    case 0xA => Ok(Next(s.(i := NNN(op))))
    case 0xB => Ok(s.(pc := NNN(op) + s.v[0]))
    case 0xC => Ok(Next(s.(v := s.v[x := RandomMasked(rnd, nn)])))
    case 0xD => ExecDraw(s, op)
    case 0xE => ExecKeySkip(s, op)
    case 0xF => ExecMisc(s, op)
    case _ => Err(UnknownOpcode(op))
  }

  /** `run_cycle`: fetch, then execute; `rnd` is the byte the random-number generator supplies. */
  function Cycle(s: State, rnd: bv8): (r: Result<State>)
    requires WellFormed(s)
    ensures r.Ok? ==> WellFormed(r.value)
    ensures !Fetchable(s) ==> r == Err(OutOfRange(s.pc))
  {
    match Fetch(s)
    case Err(f) => Err(f)
    case Ok(op) => Execute(s, op, rnd)
  }

  /**
   * One update event of the main loop: the loop reads the opcode at `pc`
   * before anything else (a fault when it lies past memory), then skips the
   * cycle while a key wait is pending.
   */
  function Step(s: State, rnd: bv8): (r: Result<State>)
    requires WellFormed(s)
    ensures r.Ok? ==> WellFormed(r.value)
    ensures s.awaitKeypress ==> r == if Fetchable(s) then Ok(s) else Err(OutOfRange(s.pc))
    ensures !s.awaitKeypress ==> r == Cycle(s, rnd)
  {
    match Fetch(s)
    case Err(f) => Err(f)
    case Ok(_) => if s.awaitKeypress then Ok(s) else Cycle(s, rnd)
  }

  /** A timer counts down by one, unless it is already 0 or a key wait is pending. */
  function Countdown(timer: byte, awaiting: bool): (r: byte)
    ensures r <= timer
    ensures r == timer <==> timer == 0 || awaiting
  {
    if timer > 0 && !awaiting then timer - 1 else timer
  }

  /** The render branch: clear the draw flag, then count both timers down. */
  function TickTimers(s: State): (r: State)
    ensures r == s.(drawFlag := false, delayTimer := r.delayTimer, soundTimer := r.soundTimer)
    ensures r.delayTimer == Countdown(s.delayTimer, s.awaitKeypress)
    ensures r.soundTimer == Countdown(s.soundTimer, s.awaitKeypress)
  {
    s.(drawFlag := false,
       delayTimer := Countdown(s.delayTimer, s.awaitKeypress),
       soundTimer := Countdown(s.soundTimer, s.awaitKeypress))
  }

  /**
   * Press or release hex key `k`. A press during a key wait also stores `k`
   * in the register the wait names and ends the wait.
   */
  function SetKey(s: State, k: nat, pressed: bool): (r: State)
    requires WellFormed(s) && k < KeyCount
    ensures WellFormed(r)
    ensures r.key == s.key[k := pressed]
    ensures pressed && s.awaitKeypress ==> r == s.(key := r.key, v := s.v[s.keypressRegister := k], awaitKeypress := false)
    ensures !(pressed && s.awaitKeypress) ==> r == s.(key := r.key)
  {
    if !pressed then s.(key := s.key[k := false])
    else if s.awaitKeypress then s.(key := s.key[k := true], v := s.v[s.keypressRegister := k], awaitKeypress := false)
    else s.(key := s.key[k := true])
  }
}
