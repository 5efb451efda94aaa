/** Machine-word types, the fault taxonomy and the result wrapper shared by the CHIP-8 model. */
module Chip8Types {

  /** Rust `u8`. */
  type byte = x: int | 0 <= x < 0x100

  /** Rust `u16` (addresses, opcodes, the index register, the program counter). */
  type u16 = x: int | 0 <= x < 0x1_0000

  const MemorySize: nat := 4096
  const ScreenWidth: nat := 64
  const ScreenHeight: nat := 32
  const PixelCount: nat := 2048
  const RegisterCount: nat := 16
  const StackDepth: nat := 16
  const KeyCount: nat := 16
  /** Programs are loaded, and execution starts, at 0x200. */
  const ProgramStart: nat := 0x200
  /** Largest program image that fits between ProgramStart and the end of memory. */
  const MaxProgramSize: nat := 4096 - 0x200

  /**
   * Every way the interpreter can stop. The Rust source either calls
   * `std::process::exit` (unknown opcodes) or panics on an out-of-bounds index
   * or an arithmetic overflow (with overflow checks on, as in a debug build);
   * the model reports each of these as a value.
   */
  datatype Fault =
    | UnknownOpcode(opcode: u16)
    | StackOverflow
    | StackUnderflow
    | MemoryOutOfBounds(address: int)
    | FramebufferOutOfBounds(index: int)
    | KeyOutOfBounds(key: int)
    | ProgramCounterOverflow

  datatype Result<T> = Ok(value: T) | Err(fault: Fault)

  /** What a state-changing method reports: it either completed or stopped with a fault. */
  datatype Outcome = Pass | Fail(fault: Fault)

  function OutcomeOf<T>(r: Result<T>): Outcome
  {
    match r
    case Ok(_) => Pass
    case Err(f) => Fail(f)
  }

  /**
   * The fault raised by touching the bytes `start, start + 1, ...` when at
   * least one of them lies past the end of memory: Rust reports the first
   * address that does.
   */
  function OutOfRange(start: int): Fault
  {
    MemoryOutOfBounds(if start >= MemorySize then start else MemorySize)
  }

  /** Rust `a & b` on `u8`. */
  function And8(a: byte, b: byte): byte
  {
    ((a as bv8) & (b as bv8)) as int
  }

  /** Rust `a | b` on `u8`. */
  function Or8(a: byte, b: byte): byte
  {
    ((a as bv8) | (b as bv8)) as int
  }

  /** Rust `a ^ b` on `u8`. */
  function Xor8(a: byte, b: byte): byte
  {
    ((a as bv8) ^ (b as bv8)) as int
  }
}
