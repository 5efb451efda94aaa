/**
 * The `Machine` struct as an object whose fields the interpreter updates in
 * place, the way `run_cycle` updates its working copy and the main loop
 * updates `machine`. Every method is proved to leave the machine in the state
 * the corresponding function of `Chip8Cpu` / `Chip8State` computes, so every
 * lemma of `Chip8Properties` and `Sprite` applies to it.
 *
 * When a method reports `Fail`, the Rust process has panicked or exited; the
 * method then promises only that the object is still well formed.
 */
module Chip8Machine {
  import opened Chip8Types
  import opened Chip8State
  import opened Sprite
  import opened Chip8Cpu

  class Machine {
    const memory: array<byte>
    const gfx: array<bool>
    const v: array<byte>
    const stack: array<u16>
    const key: array<bool>
    var i: u16
    var pc: u16
    var sp: byte
    var delayTimer: byte
    var soundTimer: byte
    var drawFlag: bool
    var awaitKeypress: bool
    var keypressRegister: byte

    /** The machine's current contents as a `State` value. */
    ghost function Snapshot(): State
      reads this, memory, gfx, v, stack, key
    {
      State(memory[..], gfx[..], v[..], stack[..], key[..],
            i, pc, sp, delayTimer, soundTimer, drawFlag, awaitKeypress, keypressRegister)
    }

    ghost predicate Valid()
      reads this, memory, gfx, v, stack, key
    {
      memory != v && gfx != key && WellFormed(Snapshot())
    }

    /** `init_machine`: zeroed state, the font copied to memory 0..80, `pc` at 0x200. */
    constructor ()
      ensures Valid() && Snapshot() == InitState()
      ensures fresh(memory) && fresh(gfx) && fresh(v) && fresh(stack) && fresh(key)
    {
      var m := new byte[MemorySize](_ => 0);
      for a := 0 to 80
        invariant m[..] == FontSet[..a] + seq(MemorySize - a, _ => 0)
      {
        m[a] := FontSet[a];
      }
      assert FontSet[..80] == FontSet;
      memory := m;
      gfx := new bool[PixelCount](_ => false);
      v := new byte[RegisterCount](_ => 0);
      stack := new u16[StackDepth](_ => 0);
      key := new bool[KeyCount](_ => false);
      i, pc, sp := 0, ProgramStart as u16, 0;
      delayTimer, soundTimer := 0, 0;
      drawFlag, awaitKeypress, keypressRegister := false, false, 0;
    }

    /** `load_program`: copy the image to memory from 0x200 on; an image past the end of memory faults. */
    method LoadProgram(program: seq<byte>) returns (outcome: Outcome)
      requires Valid()
      modifies memory
      ensures Valid()
      ensures outcome == OutcomeOf(Load(old(Snapshot()), program))
      ensures outcome.Pass? ==> Snapshot() == Load(old(Snapshot()), program).value
    {
      for k := 0 to |program|
        invariant ProgramStart + k <= MemorySize
        invariant memory[..] == old(memory[..])[..ProgramStart] + program[..k] + old(memory[..])[ProgramStart + k..]
      {
        if ProgramStart + k >= MemorySize {
          return Fail(MemoryOutOfBounds(ProgramStart + k));
        }
        memory[ProgramStart + k] := program[k];
        assert memory[..] == old(memory[..])[..ProgramStart] + program[..k + 1] + old(memory[..])[ProgramStart + k + 1..];
      }
      assert program[..|program|] == program;
      return Pass;
    }

    /** Group 0x0: clear screen, return, and every other `0NNN`. */
    method RunSystem(op: u16) returns (outcome: Outcome)
      requires Valid() && Fetchable(Snapshot()) && Group(op) == 0x0
      modifies this, gfx
      ensures Valid()
      ensures outcome == OutcomeOf(ExecSystem(old(Snapshot()), op))
      ensures outcome.Pass? ==> Snapshot() == ExecSystem(old(Snapshot()), op).value
    {
      if op == 0x00E0 {
        forall p | 0 <= p < gfx.Length {
          gfx[p] := false;
        }
        drawFlag := true;
        pc := pc + 2;
      } else if op == 0x00EE {
        if sp == 0 {
          return Fail(StackUnderflow);
        }
        sp := sp - 1;
        if stack[sp] as int + 2 > 0xFFFF {
          return Fail(ProgramCounterOverflow);
        }
        pc := stack[sp] + 2;
      } else {
        pc := pc + 2;
      }
      return Pass;
    }

    /** Group 0x8: register arithmetic, in the source's order of writes. */
    method RunAlu(op: u16) returns (outcome: Outcome)
      requires Valid() && Fetchable(Snapshot()) && Group(op) == 0x8
      modifies this, v
      ensures Valid()
      ensures outcome == OutcomeOf(ExecAlu(old(Snapshot()), op))
      ensures outcome.Pass? ==> Snapshot() == ExecAlu(old(Snapshot()), op).value
    {
      if N(op) <= 0x3 {
        RunBitwise(op);
        return Pass;
      }
      var x, y := X(op), Y(op);
      var vx, vy := v[x] as int, v[y] as int;
      match N(op) {
      case 0x4 =>
        v[x] := (vx + vy) % 0x100;
        v[0xF] := if vx + vy > 0xFF then 1 else 0;
      case 0x5 =>
        v[x] := (vx - vy) % 0x100;
        v[0xF] := if vx < vy then 0 else 1;
      case 0x6 =>
        v[0xF] := v[x] % 2;
        v[x] := v[x] / 2;
      case 0x7 =>
        v[x] := (vy - vx) % 0x100;
        v[0xF] := if vy < vx then 0 else 1;
      case 0xE =>
        v[0xF] := if v[x] >= 0x80 then 0x80 else 0;
        v[x] := (2 * v[x] as int) % 0x100;
      case _ =>
        return Fail(UnknownOpcode(op));
      }
      pc := pc + 2;
      return Pass;
    }

    /** `8xy0` to `8xy3`: copy, or, and, exclusive or. */
    method RunBitwise(op: u16)
      requires Valid() && Fetchable(Snapshot()) && Group(op) == 0x8 && N(op) <= 0x3
      modifies this, v
      ensures Valid() && ExecAlu(old(Snapshot()), op).Ok?
      ensures Snapshot() == ExecAlu(old(Snapshot()), op).value
    {
      var x, y := X(op), Y(op);
      v[x] := match N(op)
        case 0x0 => v[y]
        case 0x1 => Or8(v[x], v[y])
        case 0x2 => And8(v[x], v[y])
        case _ => Xor8(v[x], v[y]);
      pc := pc + 2;
    }

    /** `Dxyn`: draw the sprite, then set VF from the collision flag, raise the draw flag and advance. */
    method RunDraw(op: u16) returns (outcome: Outcome)
      requires Valid() && Fetchable(Snapshot()) && Group(op) == 0xD
      modifies this, gfx, v
      ensures Valid()
      ensures outcome == OutcomeOf(ExecDraw(old(Snapshot()), op))
      ensures outcome.Pass? ==> Snapshot() == ExecDraw(old(Snapshot()), op).value
    {
      outcome := DrawSpriteRows(v[X(op)] % ScreenWidth, v[Y(op)] % ScreenHeight, N(op));
      if outcome.Fail? {
        return;
      }
      drawFlag := true;
      pc := pc + 2;
    }

    /**
     * The outer `'rows` loop of `Dxyn`. It keeps the rest of the draw, as
     * `DrawRows` describes it, equal to the whole draw from the old screen;
     * VF carries the collision flag.
     */
    method DrawSpriteRows(x: nat, y: nat, height: nat) returns (outcome: Outcome)
      requires memory.Length == MemorySize && gfx.Length == PixelCount && v.Length == RegisterCount
      modifies gfx, v
      ensures var r := DrawSprite(memory[..], old(gfx[..]), i, x, y, height);
        outcome == OutcomeOf(r) &&
        (outcome.Pass? ==> gfx[..] == r.value.pixels && v[..] == old(v[..])[0xF := if r.value.collided then 1 else 0])
    {
      v[0xF] := 0;
      var yline := 0;
      while yline < height
        invariant 0 <= yline <= height
        invariant v[..] == old(v[..])[0xF := v[0xF]] && v[0xF] <= 1
        invariant DrawSprite(memory[..], old(gfx[..]), i, x, y, height)
          == DrawRows(memory[..], Canvas(gfx[..], v[0xF] == 1), i, x, y, height, y + yline)
      {
        if y + yline > ScreenHeight {
          break;
        }
        if i + yline >= MemorySize {
          return Fail(MemoryOutOfBounds(i + yline));
        }
        outcome := DrawRow(memory[i + yline], x, y + yline);
        if outcome.Fail? {
          return;
        }
        yline := yline + 1;
      }
      return Pass;
    }

    /** The inner `'cols` loop of `Dxyn`: one sprite row at screen row `sy`, as `DrawCols` describes it. */
    method DrawRow(pixel: byte, x: nat, sy: nat) returns (outcome: Outcome)
      requires gfx.Length == PixelCount && v.Length == RegisterCount && v[0xF] <= 1
      modifies gfx, v
      ensures var r := DrawCols(Canvas(old(gfx[..]), old(v[0xF]) == 1), pixel, x, sy, x);
        outcome == OutcomeOf(r) &&
        (outcome.Pass? ==> gfx[..] == r.value.pixels && v[..] == old(v[..])[0xF := if r.value.collided then 1 else 0])
    {
      ghost var rowStart := Canvas(gfx[..], v[0xF] == 1);
      var xline := 0;
      while xline < 8
        invariant 0 <= xline <= 8
        invariant v[..] == old(v[..])[0xF := v[0xF]] && v[0xF] <= 1
        invariant DrawCols(rowStart, pixel, x, sy, x) == DrawCols(Canvas(gfx[..], v[0xF] == 1), pixel, x, sy, x + xline)
      {
        if x + xline > ScreenWidth {
          break;
        }
        if SpriteBit(pixel, xline) {
          var p := x + xline + sy * 64;
          if p >= PixelCount {
            return Fail(FramebufferOutOfBounds(p));
          }
          if gfx[p] {
            v[0xF] := 1;
          }
          gfx[p] := !gfx[p];
        }
        xline := xline + 1;
      }
      return Pass;
    }

    /** Group 0xE: skip on the state of key V[x]. */
    method RunKeySkip(op: u16) returns (outcome: Outcome)
      requires Valid() && Fetchable(Snapshot()) && Group(op) == 0xE
      modifies this
      ensures Valid()
      ensures outcome == OutcomeOf(ExecKeySkip(old(Snapshot()), op))
      ensures outcome.Pass? ==> Snapshot() == ExecKeySkip(old(Snapshot()), op).value
    {
      var k := v[X(op)];
      if NN(op) == 0x9E {
        if k >= KeyCount {
          return Fail(KeyOutOfBounds(k));
        }
        pc := pc + if key[k] then 4 else 2;
      } else if NN(op) == 0xA1 {
        if k >= KeyCount {
          return Fail(KeyOutOfBounds(k));
        }
        pc := pc + if !key[k] then 4 else 2;
      } else {
        return Fail(UnknownOpcode(op));
      }
      return Pass;
    }

    /** `Fx33`: the three decimal digits of V[x] to I, I+1, I+2, one write at a time. */
    method StoreBcd(x: nat) returns (outcome: Outcome)
      requires Valid() && Fetchable(Snapshot()) && x < RegisterCount
      modifies this, memory
      ensures Valid()
      ensures var s := old(Snapshot());
        outcome == (if s.i + 2 >= MemorySize then Fail(OutOfRange(s.i)) else Pass)
      ensures var s := old(Snapshot());
        outcome.Pass? ==> Snapshot() == Next(s.(memory := Bcd(s.memory, s.i, s.v[x])))
    {
      var value := v[x];
      if i >= MemorySize {
        return Fail(MemoryOutOfBounds(i));
      }
      memory[i] := value / 100;
      if i + 1 >= MemorySize {
        return Fail(MemoryOutOfBounds(MemorySize));
      }
      memory[i + 1] := (value / 10) % 10;
      if i + 2 >= MemorySize {
        return Fail(MemoryOutOfBounds(MemorySize));
      }
      memory[i + 2] := value % 10;
      pc := pc + 2;
      return Pass;
    }

    /** `Fx55`: store V0..Vx at I.., one byte at a time, then advance I. */
    method DumpRegisters(x: nat) returns (outcome: Outcome)
      requires Valid() && Fetchable(Snapshot()) && x < RegisterCount
      modifies this, memory
      ensures Valid()
      ensures var s := old(Snapshot());
        outcome == (if s.i + x >= MemorySize then Fail(OutOfRange(s.i)) else Pass)
      ensures var s := old(Snapshot());
        outcome.Pass? ==> Snapshot() == Next(s.(memory := Dumped(s.memory, s.v, s.i, x + 1), i := s.i + x + 1))
    {
      for offset := 0 to x + 1
        invariant unchanged(this) && (offset == 0 || i + offset <= MemorySize)
        invariant memory[..] == Dumped(old(memory[..]), v[..], i, offset)
      {
        if i + offset >= MemorySize {
          return Fail(MemoryOutOfBounds(i + offset));
        }
        memory[i + offset] := v[offset];
      }
      i := i + x + 1;
      pc := pc + 2;
      return Pass;
    }

    /** `Fx65`: load V0..Vx from I.., one byte at a time, then advance I. */
    method LoadRegisters(x: nat) returns (outcome: Outcome)
      requires Valid() && Fetchable(Snapshot()) && x < RegisterCount
      modifies this, v
      ensures Valid()
      ensures var s := old(Snapshot());
        outcome == (if s.i + x >= MemorySize then Fail(OutOfRange(s.i)) else Pass)
      ensures var s := old(Snapshot());
        outcome.Pass? ==> Snapshot() == Next(s.(v := Loaded(s.v, s.memory, s.i, x + 1), i := s.i + x + 1))
    {
      for offset := 0 to x + 1
        invariant unchanged(this) && (offset == 0 || i + offset <= MemorySize)
        invariant v[..] == Loaded(old(v[..]), memory[..], i, offset)
      {
        if i + offset >= MemorySize {
          return Fail(MemoryOutOfBounds(i + offset));
        }
        v[offset] := memory[i + offset];
      }
      i := i + x + 1;
      pc := pc + 2;
      return Pass;
    }

    /** Group 0xF: timers, key wait, I arithmetic, font address, BCD, register dump and load. */
    method RunMisc(op: u16) returns (outcome: Outcome)
      requires Valid() && Fetchable(Snapshot()) && Group(op) == 0xF
      modifies this, memory, v
      ensures Valid()
      ensures outcome == OutcomeOf(ExecMisc(old(Snapshot()), op))
      ensures outcome.Pass? ==> Snapshot() == ExecMisc(old(Snapshot()), op).value
    {
      var x := X(op);
      match NN(op) {
      case 0x07 => RunTimerOrWait(op); outcome := Pass;
      case 0x0A => RunTimerOrWait(op); outcome := Pass;
      case 0x15 => RunTimerOrWait(op); outcome := Pass;
      case 0x18 => RunTimerOrWait(op); outcome := Pass;
      case 0x1E =>
        var sum := i + v[x];
        i := sum % 0x1_0000;
        v[0xF] := if sum > 0xFFFF then 1 else 0;
        pc := pc + 2;
        outcome := Pass;
      case 0x29 =>
        i := v[x] as int * 5;
        pc := pc + 2;
        outcome := Pass;
      case 0x33 => outcome := StoreBcd(x);
      case 0x55 => outcome := DumpRegisters(x);
      case 0x65 => outcome := LoadRegisters(x);
      case _ => outcome := Fail(UnknownOpcode(op));
      }
    }

    /** `Fx07`, `Fx0A`, `Fx15`, `Fx18`: read the delay timer, wait for a key, set either timer. */
    method RunTimerOrWait(op: u16)
      requires Valid() && Fetchable(Snapshot()) && Group(op) == 0xF && NN(op) in {0x07, 0x0A, 0x15, 0x18}
      modifies this, v
      ensures Valid() && ExecMisc(old(Snapshot()), op).Ok?
      ensures Snapshot() == ExecMisc(old(Snapshot()), op).value
    {
      var x := X(op);
      match NN(op) {
      case 0x07 => v[x] := delayTimer;
      case 0x0A =>
        awaitKeypress := true;
        keypressRegister := x;
      case 0x15 => delayTimer := v[x];
      case _ => soundTimer := v[x];
      }
      pc := pc + 2;
    }

    /** Groups 0x1, 0x2 and 0xB: jump, call (pushing `pc`) and jump to NNN + V0. */
    method RunFlow(op: u16) returns (outcome: Outcome)
      requires Valid() && Fetchable(Snapshot()) && Group(op) in {0x1, 0x2, 0xB}
      modifies this, stack
      ensures Valid()
      ensures outcome == OutcomeOf(Execute(old(Snapshot()), op, 0))
      ensures outcome.Pass? ==> Snapshot() == Execute(old(Snapshot()), op, 0).value
    {
      if Group(op) == 0x2 {
        if sp >= StackDepth {
          return Fail(StackOverflow);
        }
        stack[sp] := pc;
        sp := sp + 1;
        pc := NNN(op);
      } else if Group(op) == 0x1 {
        pc := NNN(op);
      } else {
        pc := NNN(op) + v[0];
      }
      return Pass;
    }

    /** Groups 0x3, 0x4, 0x5 and 0x9: skip the next instruction on a register comparison. */
    method RunSkip(op: u16)
      requires Valid() && Fetchable(Snapshot()) && Group(op) in {0x3, 0x4, 0x5, 0x9}
      modifies this
      ensures Valid() && Execute(old(Snapshot()), op, 0).Ok?
      ensures Snapshot() == Execute(old(Snapshot()), op, 0).value
    {
      var x, y, nn := X(op), Y(op), NN(op);
      var skip := match Group(op)
        case 0x3 => v[x] == nn
        case 0x4 => v[x] != nn
        case 0x5 => v[x] == v[y]
        case _ => v[x] != v[y];
      pc := pc + if skip then 4 else 2;
    }

    /** Groups 0x6, 0x7, 0xA and 0xC: set or add to V[x], set I, random byte under a mask. */
    method RunSet(op: u16, rnd: bv8)
      requires Valid() && Fetchable(Snapshot()) && Group(op) in {0x6, 0x7, 0xA, 0xC}
      modifies this, v
      ensures Valid() && Execute(old(Snapshot()), op, rnd).Ok?
      ensures Snapshot() == Execute(old(Snapshot()), op, rnd).value
    {
      var x, nn := X(op), NN(op);
      match Group(op) {
      case 0x6 => v[x] := nn;
      case 0x7 => v[x] := (v[x] as int + nn) % 0x100;
      case 0xA => i := NNN(op);
      case _ => v[x] := RandomMasked(rnd, nn);
      }
      pc := pc + 2;
    }

    /** The `match opcode & 0xF000` of `run_cycle`. */
    method RunExecute(op: u16, rnd: bv8) returns (outcome: Outcome)
      requires Valid() && Fetchable(Snapshot())
      modifies this, memory, gfx, v, stack
      ensures Valid()
      ensures outcome == OutcomeOf(Execute(old(Snapshot()), op, rnd))
      ensures outcome.Pass? ==> Snapshot() == Execute(old(Snapshot()), op, rnd).value
    {
      var g := Group(op);
      if g in {0x1, 0x2, 0xB} {
        outcome := RunFlow(op);
      } else if g in {0x3, 0x4, 0x5, 0x9} {
        RunSkip(op);
        outcome := Pass;
      } else if g in {0x6, 0x7, 0xA, 0xC} {
        RunSet(op, rnd);
        outcome := Pass;
      } else if g == 0x0 {
        outcome := RunSystem(op);
      } else if g == 0x8 {
        outcome := RunAlu(op);
      } else if g == 0xD {
        outcome := RunDraw(op);
      } else if g == 0xE {
        outcome := RunKeySkip(op);
      } else {
        outcome := RunMisc(op);
      }
    }

    /** `run_cycle`: fetch the big-endian opcode at `pc`, then execute it. */
    method RunCycle(rnd: bv8) returns (outcome: Outcome)
      requires Valid()
      modifies this, memory, gfx, v, stack
      ensures Valid()
      ensures outcome == OutcomeOf(Cycle(old(Snapshot()), rnd))
      ensures outcome.Pass? ==> Snapshot() == Cycle(old(Snapshot()), rnd).value
    {
      if pc + 1 >= MemorySize {
        return Fail(OutOfRange(pc));
      }
      var op := memory[pc] as int * 0x100 + memory[pc + 1];
      outcome := RunExecute(op, rnd);
    }

    /** An update event: the loop reads the opcode first, then skips the cycle during a key wait. */
    method Step(rnd: bv8) returns (outcome: Outcome)
      requires Valid()
      modifies this, memory, gfx, v, stack
      ensures Valid()
      ensures outcome == OutcomeOf(Chip8Cpu.Step(old(Snapshot()), rnd))
      ensures outcome.Pass? ==> Snapshot() == Chip8Cpu.Step(old(Snapshot()), rnd).value
    {
      if pc + 1 >= MemorySize {
        return Fail(OutOfRange(pc));
      }
      if awaitKeypress {
        return Pass;
      }
      outcome := RunCycle(rnd);
    }

    /** The timer part of a render event. */
    method TickTimers()
      requires Valid()
      modifies this
      ensures Valid() && Snapshot() == Chip8Cpu.TickTimers(old(Snapshot()))
    {
      if drawFlag {
        drawFlag := false;
      }
      if delayTimer > 0 && !awaitKeypress {
        delayTimer := delayTimer - 1;
      }
      if soundTimer > 0 && !awaitKeypress {
        soundTimer := soundTimer - 1;
      }
    }

    /** A press or release of hex key `k`. */
    method SetKey(k: nat, pressed: bool)
      requires Valid() && k < KeyCount
      modifies this, key, v
      ensures Valid() && Snapshot() == Chip8Cpu.SetKey(old(Snapshot()), k, pressed)
    {
      key[k] := pressed;
      if pressed && awaitKeypress {
        v[keypressRegister] := k;
        awaitKeypress := false;
      }
    }
  }
}
