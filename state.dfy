/**
 * The CHIP-8 machine state as a value, the built-in font, and the two
 * operations that produce the state a program starts from: construction
 * (`init_machine`) and program loading (`load_program`), plus instruction fetch.
 */
module Chip8State {
  import opened Chip8Types

  /**
   * The `Machine` struct. The fixed-size Rust arrays are sequences whose
   * lengths `WellFormed` pins down; `gfx` is the 64x32 grid in row-major order.
   */
  datatype State = State(
    memory: seq<byte>,
    gfx: seq<bool>,
    v: seq<byte>,
    stack: seq<u16>,
    key: seq<bool>,
    i: u16,
    pc: u16,
    sp: byte,
    delayTimer: byte,
    soundTimer: byte,
    drawFlag: bool,
    awaitKeypress: bool,
    keypressRegister: byte)

  /**
   * Array sizes, plus the two bounds every reachable state keeps: the stack
   * pointer never passes the 16-entry stack, and the key-wait target is a register.
   */
  predicate WellFormed(s: State)
  {
    |s.memory| == MemorySize && |s.gfx| == PixelCount && |s.v| == RegisterCount &&
    |s.stack| == StackDepth && |s.key| == KeyCount &&
    s.sp <= StackDepth && s.keypressRegister < RegisterCount
  }

  /** The 16 hexadecimal glyphs, five rows of four pixels each, glyph d at offset 5 * d. */
  const FontSet: seq<byte> := [
    0xF0, 0x90, 0x90, 0x90, 0xF0, // 0
    0x20, 0x60, 0x20, 0x20, 0x70, // 1
    0xF0, 0x10, 0xF0, 0x80, 0xF0, // 2
    0xF0, 0x10, 0xF0, 0x10, 0xF0, // 3
    0x90, 0x90, 0xF0, 0x10, 0x10, // 4
    0xF0, 0x80, 0xF0, 0x10, 0xF0, // 5
    0xF0, 0x80, 0xF0, 0x90, 0xF0, // 6
    0xF0, 0x10, 0x20, 0x40, 0x40, // 7
    0xF0, 0x90, 0xF0, 0x90, 0xF0, // 8
    0xF0, 0x90, 0xF0, 0x10, 0xF0, // 9
    0xF0, 0x90, 0xF0, 0x90, 0x90, // A
    0xE0, 0x90, 0xE0, 0x90, 0xE0, // B
    0xF0, 0x80, 0x80, 0x80, 0xF0, // C
    0xE0, 0x90, 0x90, 0x90, 0xE0, // D
    0xF0, 0x80, 0xF0, 0x80, 0xF0, // E
    0xF0, 0x80, 0xF0, 0x80, 0x80  // F
  ]

  /** The glyph for hexadecimal digit `d`. */
  function Glyph(d: nat): seq<byte>
    requires d < 16
  {
    FontSet[5 * d .. 5 * d + 5]
  }

  /** The machine `init_machine` builds: all zero except the font and the program counter. */
  function InitState(): (r: State)
    ensures WellFormed(r)
    ensures r.memory[..80] == FontSet
    ensures forall a :: 80 <= a < MemorySize ==> r.memory[a] == 0
    ensures forall p :: 0 <= p < PixelCount ==> !r.gfx[p]
    ensures forall k :: 0 <= k < RegisterCount ==> r.v[k] == 0
    ensures forall k :: 0 <= k < StackDepth ==> r.stack[k] == 0
    ensures forall k :: 0 <= k < KeyCount ==> !r.key[k]
    ensures r.pc == ProgramStart && r.sp == 0 && r.i == 0
    ensures r.delayTimer == 0 && r.soundTimer == 0
    ensures !r.drawFlag && !r.awaitKeypress && r.keypressRegister == 0
  {
    State(
      FontSet + seq(MemorySize - 80, _ => 0),
      seq(PixelCount, _ => false),
      seq(RegisterCount, _ => 0),
      seq(StackDepth, _ => 0),
      seq(KeyCount, _ => false),
      0, ProgramStart as u16, 0, 0, 0, false, false, 0)
  }

  /**
   * `load_program`: the image goes to memory from 0x200 on. An image longer
   * than the space above 0x200 makes the copy loop index byte 4096.
   */
  function Load(s: State, program: seq<byte>): (r: Result<State>)
    requires WellFormed(s)
    ensures r.Ok? <==> |program| <= MaxProgramSize
    ensures r.Err? ==> r.fault == MemoryOutOfBounds(MemorySize)
    ensures r.Ok? ==> WellFormed(r.value) && r.value == s.(memory := r.value.memory)
    ensures r.Ok? ==> forall k :: 0 <= k < |program| ==> r.value.memory[ProgramStart + k] == program[k]
    ensures r.Ok? ==> forall a :: 0 <= a < ProgramStart ==> r.value.memory[a] == s.memory[a]
    ensures r.Ok? ==> forall a :: ProgramStart + |program| <= a < MemorySize ==> r.value.memory[a] == s.memory[a]
  {
    if |program| > MaxProgramSize then Err(MemoryOutOfBounds(MemorySize))
    else Ok(s.(memory := s.memory[..ProgramStart] + program + s.memory[ProgramStart + |program|..]))
  }

  /**
   * Instruction fetch: the big-endian word at `pc`, `pc + 1`. Both bytes
   * must lie inside memory (the Rust indexing panics otherwise).
   */
  function Fetch(s: State): (r: Result<u16>)
    requires WellFormed(s)
    ensures r.Ok? <==> s.pc + 1 < MemorySize
    ensures r.Err? ==> r.fault == OutOfRange(s.pc)
    ensures r.Ok? ==> r.value / 0x100 == s.memory[s.pc] && r.value % 0x100 == s.memory[s.pc + 1]
  {
    if s.pc + 1 >= MemorySize then Err(OutOfRange(s.pc))
    else Ok(s.memory[s.pc] as int * 0x100 + s.memory[s.pc + 1])
  }

  /** `(opcode & 0x0F00) >> 8`: the first register operand. */
  function X(op: u16): nat { (op / 0x100) % 0x10 }

  /** `(opcode & 0x00F0) >> 4`: the second register operand. */
  function Y(op: u16): nat { (op / 0x10) % 0x10 }

  /** `opcode & 0x000F`. */
  function N(op: u16): nat { op % 0x10 }

  /** `opcode & 0x00FF`. */
  function NN(op: u16): byte { op % 0x100 }

  /** `opcode & 0x0FFF`. */
  function NNN(op: u16): u16 { op % 0x1000 }

  /** `opcode & 0xF000`, shifted down to the group number 0..15. */
  function Group(op: u16): nat { op / 0x1000 }
}
