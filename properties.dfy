/**
 * What the instruction set, the timers and the key wait promise, proved
 * about the functions of `Chip8Cpu`.
 */
module Chip8Properties {
  import opened Chip8Types
  import opened Chip8State
  import opened Sprite
  import opened Chip8Cpu

  // ---------------------------------------------------------------------------
  // Construction and loading.

  /** A fresh machine with a program loaded: font, image, zeros elsewhere, ready to run at 0x200. */
  lemma LoadIntoFreshMachine(program: seq<byte>)
    requires |program| <= MaxProgramSize
    ensures Load(InitState(), program).Ok?
    ensures var s := Load(InitState(), program).value;
      WellFormed(s) && Fetchable(s) && s.pc == ProgramStart && s.sp == 0 &&
      s.memory[..80] == FontSet &&
      s.memory[ProgramStart .. ProgramStart + |program|] == program &&
      (forall a :: 80 <= a < ProgramStart ==> s.memory[a] == 0) &&
      (forall a :: ProgramStart + |program| <= a < MemorySize ==> s.memory[a] == 0)
  {
    var s0 := InitState();
    var s := Load(s0, program).value;
    assert s.memory[..80] == s0.memory[..80];
    assert s.memory[ProgramStart .. ProgramStart + |program|] == program;
  }

  // ---------------------------------------------------------------------------
  // Program-counter discipline.

  /** `run_cycle` executes the big-endian word at `pc`. */
  lemma CycleRunsWordAtPc(s: State, rnd: bv8)
    requires WellFormed(s) && Fetchable(s)
    ensures Cycle(s, rnd) == Execute(s, s.memory[s.pc] as int * 0x100 + s.memory[s.pc + 1], rnd)
  {
  }

  /**
   * The four register skips change nothing but `pc`, and advance it by 4
   * exactly when their condition holds, by 2 otherwise.
   */
  lemma RegisterSkips(s: State, op: u16, rnd: bv8)
    requires WellFormed(s) && Fetchable(s)
    requires Group(op) == 0x3 || Group(op) == 0x4 || Group(op) == 0x5 || Group(op) == 0x9
    ensures Execute(s, op, rnd).Ok?
    ensures var r := Execute(s, op, rnd).value;
      r == s.(pc := r.pc) && (r.pc == s.pc + 2 || r.pc == s.pc + 4) &&
      (Group(op) == 0x3 ==> (r.pc == s.pc + 4 <==> s.v[X(op)] == NN(op))) &&
      (Group(op) == 0x4 ==> (r.pc == s.pc + 4 <==> s.v[X(op)] != NN(op))) &&
      (Group(op) == 0x5 ==> (r.pc == s.pc + 4 <==> s.v[X(op)] == s.v[Y(op)])) &&
      (Group(op) == 0x9 ==> (r.pc == s.pc + 4 <==> s.v[X(op)] != s.v[Y(op)]))
  {
  }

  /**
   * `Ex9E` / `ExA1` fault when V[x] names no key; otherwise they change only
   * `pc`, advancing by 4 exactly when the key is down (up, for ExA1).
   */
  lemma KeySkips(s: State, op: u16, rnd: bv8)
    requires WellFormed(s) && Fetchable(s)
    requires Group(op) == 0xE && (NN(op) == 0x9E || NN(op) == 0xA1)
    ensures Execute(s, op, rnd).Err? <==> s.v[X(op)] >= KeyCount
    ensures Execute(s, op, rnd).Err? ==> Execute(s, op, rnd).fault == KeyOutOfBounds(s.v[X(op)])
    ensures Execute(s, op, rnd).Ok? ==>
      var r := Execute(s, op, rnd).value;
      r == s.(pc := r.pc) && (r.pc == s.pc + 2 || r.pc == s.pc + 4) &&
      (r.pc == s.pc + 4 <==> s.key[s.v[X(op)]] == (NN(op) == 0x9E))
  {
  }

  /** `1nnn` and `Bnnn` set `pc` without the usual advance; nothing else changes. */
  lemma Jumps(s: State, op: u16, rnd: bv8)
    requires WellFormed(s) && Fetchable(s) && (Group(op) == 0x1 || Group(op) == 0xB)
    ensures Execute(s, op, rnd).Ok?
    ensures var r := Execute(s, op, rnd).value;
      r == s.(pc := r.pc) &&
      r.pc == NNN(op) + (if Group(op) == 0xB then s.v[0] else 0)
  {
  }

  /** `Bnnn` can jump past memory (up to 0xFFF + 0xFF); the next cycle then faults at fetch. */
  lemma JumpPastMemoryFaults(s: State, op: u16, rnd: bv8, rnd': bv8)
    requires WellFormed(s) && Fetchable(s) && Group(op) == 0xB && NNN(op) + s.v[0] >= MemorySize - 1
    ensures Execute(s, op, rnd).Ok?
    ensures Cycle(Execute(s, op, rnd).value, rnd') == Err(OutOfRange(NNN(op) + s.v[0]))
  {
  }

  /** `00E0` blanks the whole screen, raises the draw flag and advances; nothing else changes. */
  lemma ClearScreen(s: State, rnd: bv8)
    requires WellFormed(s) && Fetchable(s)
    ensures Execute(s, 0x00E0, rnd).Ok?
    ensures var r := Execute(s, 0x00E0, rnd).value;
      (forall p :: 0 <= p < PixelCount ==> !r.gfx[p]) &&
      r == s.(gfx := r.gfx, drawFlag := true, pc := s.pc + 2)
  {
  }

  /** Every `0NNN` other than `00E0` and `00EE` is not an error: it only advances `pc`. */
  lemma SystemNop(s: State, op: u16, rnd: bv8)
    requires WellFormed(s) && Fetchable(s) && Group(op) == 0x0 && op != 0x00E0 && op != 0x00EE
    ensures Execute(s, op, rnd) == Ok(s.(pc := s.pc + 2))
  {
  }

  // ---------------------------------------------------------------------------
  // Subroutines.

  /** `2nnn` pushes the address of the call itself (not the next one) and jumps. */
  lemma CallPushes(s: State, op: u16, rnd: bv8)
    requires WellFormed(s) && Fetchable(s) && Group(op) == 0x2
    ensures Execute(s, op, rnd).Ok? <==> s.sp < StackDepth
    ensures Execute(s, op, rnd).Err? ==> Execute(s, op, rnd).fault == StackOverflow
    ensures Execute(s, op, rnd).Ok? ==>
      var r := Execute(s, op, rnd).value;
      r.pc == NNN(op) && r.sp == s.sp + 1 && r.stack[s.sp] == s.pc &&
      (forall k :: 0 <= k < StackDepth && k != s.sp ==> r.stack[k] == s.stack[k]) &&
      r == s.(stack := r.stack, sp := r.sp, pc := r.pc)
  {
  }

  /** `00EE` faults on an empty stack; otherwise it pops and resumes two bytes past the popped address. */
  lemma ReturnPops(s: State, rnd: bv8)
    requires WellFormed(s) && Fetchable(s)
    ensures Execute(s, 0x00EE, rnd).Err? <==> s.sp == 0 || s.stack[s.sp - 1] > 0xFFFD
    ensures s.sp == 0 ==> Execute(s, 0x00EE, rnd) == Err(StackUnderflow)
    ensures Execute(s, 0x00EE, rnd).Ok? ==>
      Execute(s, 0x00EE, rnd).value == s.(sp := s.sp - 1, pc := s.stack[s.sp - 1] + 2)
  {
  }

  /**
   * A call, then (after a callee that leaves its frame as it found it) a
   * return, restores `sp` and lands just past the call.
   */
  lemma CallThenReturn(s: State, call: u16, t: State, rnd: bv8, rnd': bv8)
    requires WellFormed(s) && Fetchable(s) && Group(call) == 0x2 && s.sp < StackDepth
    requires WellFormed(t) && Fetchable(t)
    requires t.sp == Execute(s, call, rnd).value.sp && t.stack == Execute(s, call, rnd).value.stack
    ensures Execute(t, 0x00EE, rnd') == Ok(t.(sp := s.sp, pc := s.pc + 2))
  {
    CallPushes(s, call, rnd);
  }

  // ---------------------------------------------------------------------------
  // Arithmetic and the VF flag.

  /** `6xnn` puts nn in V[x] and advances; nothing else changes. */
  lemma LoadImmediate(s: State, op: u16, rnd: bv8)
    requires WellFormed(s) && Fetchable(s) && Group(op) == 0x6
    ensures Execute(s, op, rnd) == Ok(s.(v := s.v[X(op) := NN(op)], pc := s.pc + 2))
    ensures Execute(s, op, rnd).value.v[X(op)] == op % 0x100
  {
  }

  /** `Annn` puts nnn in I and advances; nothing else changes. */
  lemma SetIndex(s: State, op: u16, rnd: bv8)
    requires WellFormed(s) && Fetchable(s) && Group(op) == 0xA
    ensures Execute(s, op, rnd) == Ok(s.(i := NNN(op), pc := s.pc + 2))
    ensures Execute(s, op, rnd).value.i < 0x1000
  {
  }

  /**
   * `Cxnn` puts the random byte masked by nn in V[x] and advances; nothing
   * else changes. Mask 0 always gives 0, mask 0xFF passes the random byte through.
   */
  lemma RandomMask(s: State, op: u16, rnd: bv8)
    requires WellFormed(s) && Fetchable(s) && Group(op) == 0xC
    ensures Execute(s, op, rnd) == Ok(s.(v := s.v[X(op) := (rnd & (NN(op) as bv8)) as int], pc := s.pc + 2))
    ensures NN(op) == 0x00 ==> Execute(s, op, rnd).value.v[X(op)] == 0
    ensures NN(op) == 0xFF ==> Execute(s, op, rnd).value.v[X(op)] == rnd as int
  {
    if NN(op) == 0xFF {
      assert rnd & 0xFF == rnd;
    }
  }

  /** `7xnn` adds modulo 256 and never touches VF (unless VF is the target). */
  lemma AddImmediate(s: State, op: u16, rnd: bv8)
    requires WellFormed(s) && Fetchable(s) && Group(op) == 0x7
    ensures Execute(s, op, rnd) == Ok(s.(v := s.v[X(op) := Execute(s, op, rnd).value.v[X(op)]], pc := s.pc + 2))
    ensures Execute(s, op, rnd).value.v[X(op)] as int + (if s.v[X(op)] as int + NN(op) > 0xFF then 0x100 else 0) == s.v[X(op)] as int + NN(op)
  {
  }

  /** Only VF and V[x] change in an 8xyN instruction, and `pc` advances by 2. */
  predicate AluFrame(s: State, r: State, x: nat)
    requires WellFormed(s) && WellFormed(r) && x < RegisterCount
  {
    r == s.(v := r.v, pc := r.pc) && r.pc == s.pc + 2 &&
    forall k :: 0 <= k < RegisterCount && k != x && k != 0xF ==> r.v[k] == s.v[k]
  }

  /** `8xy0` copies V[y] into V[x]; VF is left alone unless it is the target. */
  lemma Assign(s: State, op: u16, rnd: bv8)
    requires WellFormed(s) && Fetchable(s) && Group(op) == 0x8 && N(op) == 0x0
    ensures Execute(s, op, rnd).Ok?
    ensures var r := Execute(s, op, rnd).value;
      AluFrame(s, r, X(op)) && r.v[X(op)] == s.v[Y(op)] &&
      (X(op) != 0xF ==> r.v[0xF] == s.v[0xF])
  {
  }

  /** `8xy1` to `8xy3` combine V[x] with V[y] bit by bit and leave VF alone (no flag reset). */
  lemma BitwiseKeepsFlag(s: State, op: u16, rnd: bv8)
    requires WellFormed(s) && Fetchable(s) && Group(op) == 0x8 && 0x1 <= N(op) <= 0x3
    ensures Execute(s, op, rnd).Ok?
    ensures var r := Execute(s, op, rnd).value;
      var a, b := s.v[X(op)], s.v[Y(op)];
      AluFrame(s, r, X(op)) &&
      (X(op) != 0xF ==> r.v[0xF] == s.v[0xF]) &&
      r.v[X(op)] == (if N(op) == 0x1 then Or8(a, b) else if N(op) == 0x2 then And8(a, b) else Xor8(a, b))
  {
  }

  /** `8xy4`: V[x] and VF together hold the 9-bit sum; when x is F the carry wins. */
  lemma AddWithCarry(s: State, op: u16, rnd: bv8)
    requires WellFormed(s) && Fetchable(s) && Group(op) == 0x8 && N(op) == 0x4
    ensures Execute(s, op, rnd).Ok?
    ensures var r := Execute(s, op, rnd).value;
      AluFrame(s, r, X(op)) && r.v[0xF] <= 1 &&
      (X(op) != 0xF ==> r.v[X(op)] as int + 0x100 * (r.v[0xF] as int) == s.v[X(op)] as int + s.v[Y(op)]) &&
      (X(op) == 0xF ==> (r.v[0xF] == 1 <==> s.v[X(op)] as int + s.v[Y(op)] > 0xFF))
  {
  }

  /** `8xy5`: VF is 1 exactly when there is no borrow; V[x] is the difference modulo 256. */
  lemma SubtractWithBorrow(s: State, op: u16, rnd: bv8)
    requires WellFormed(s) && Fetchable(s) && Group(op) == 0x8 && N(op) == 0x5
    ensures Execute(s, op, rnd).Ok?
    ensures var r := Execute(s, op, rnd).value;
      AluFrame(s, r, X(op)) && r.v[0xF] <= 1 &&
      (r.v[0xF] == 1 <==> s.v[X(op)] >= s.v[Y(op)]) &&
      (X(op) != 0xF ==> r.v[X(op)] as int - 0x100 * (1 - r.v[0xF] as int) == s.v[X(op)] as int - s.v[Y(op)])
  {
  }

  /** `8xy7`: the reversed subtraction, V[y] - V[x], with the same flag convention. */
  lemma ReverseSubtract(s: State, op: u16, rnd: bv8)
    requires WellFormed(s) && Fetchable(s) && Group(op) == 0x8 && N(op) == 0x7
    ensures Execute(s, op, rnd).Ok?
    ensures var r := Execute(s, op, rnd).value;
      AluFrame(s, r, X(op)) && r.v[0xF] <= 1 &&
      (r.v[0xF] == 1 <==> s.v[Y(op)] >= s.v[X(op)]) &&
      (X(op) != 0xF ==> r.v[X(op)] as int - 0x100 * (1 - r.v[0xF] as int) == s.v[Y(op)] as int - s.v[X(op)])
  {
  }

  /** `8xy6`: VF gets the bit shifted out; when x is F the shift then clears it. */
  lemma ShiftRight(s: State, op: u16, rnd: bv8)
    requires WellFormed(s) && Fetchable(s) && Group(op) == 0x8 && N(op) == 0x6
    ensures Execute(s, op, rnd).Ok?
    ensures var r := Execute(s, op, rnd).value;
      AluFrame(s, r, X(op)) &&
      (X(op) != 0xF ==> r.v[0xF] <= 1 && 2 * r.v[X(op)] as int + r.v[0xF] == s.v[X(op)]) &&
      (X(op) == 0xF ==> r.v[0xF] == 0)
  {
  }

  /** `8xyE`: VF gets the top bit masked in place (0 or 0x80, not 1); when x is F the shift clears it. */
  lemma ShiftLeft(s: State, op: u16, rnd: bv8)
    requires WellFormed(s) && Fetchable(s) && Group(op) == 0x8 && N(op) == 0xE
    ensures Execute(s, op, rnd).Ok?
    ensures var r := Execute(s, op, rnd).value;
      AluFrame(s, r, X(op)) &&
      (X(op) != 0xF ==> (r.v[0xF] == 0 || r.v[0xF] == 0x80) && r.v[X(op)] as int + 2 * (r.v[0xF] as int) == 2 * s.v[X(op)] as int) &&
      (X(op) == 0xF ==> r.v[0xF] == 0)
  {
  }

  // ---------------------------------------------------------------------------
  // Drawing.

  /** `Dxyn` at the instruction level: XOR of the sprite mask, VF = collision, draw flag, advance. */
  lemma DrawInstruction(s: State, op: u16, rnd: bv8)
    requires WellFormed(s) && Fetchable(s) && Group(op) == 0xD
    ensures var x, y := s.v[X(op)] % ScreenWidth, s.v[Y(op)] % ScreenHeight;
      Execute(s, op, rnd).Ok? == SpriteMask(s.memory, s.i, x, y, N(op), y).Ok?
    ensures Execute(s, op, rnd).Ok? ==>
      var x, y := s.v[X(op)] % ScreenWidth, s.v[Y(op)] % ScreenHeight;
      var r := Execute(s, op, rnd).value;
      var m := SpriteMask(s.memory, s.i, x, y, N(op), y).value;
      r == s.(gfx := r.gfx, v := s.v[0xF := r.v[0xF]], drawFlag := true, pc := s.pc + 2) &&
      (forall p :: 0 <= p < PixelCount ==> r.gfx[p] == (s.gfx[p] != (p in m))) &&
      r.v[0xF] <= 1 &&
      (r.v[0xF] == 1 <==> exists p :: 0 <= p < PixelCount && s.gfx[p] && !r.gfx[p])
  {
    var x, y := s.v[X(op)] % ScreenWidth, s.v[Y(op)] % ScreenHeight;
    DrawIsXor(s.memory, s.gfx, s.i, x, y, N(op));
    if Execute(s, op, rnd).Ok? {
      DrawCollision(s.memory, s.gfx, s.i, x, y, N(op));
    }
  }

  /**
   * Executing the same `Dxyn` twice restores the screen (the coordinates
   * must not come from VF, which the first draw overwrites).
   */
  lemma DrawTwiceRestoresScreen(s: State, op: u16, rnd: bv8)
    requires WellFormed(s) && s.pc + 3 < MemorySize && Group(op) == 0xD && X(op) != 0xF && Y(op) != 0xF
    requires Execute(s, op, rnd).Ok?
    ensures Execute(Execute(s, op, rnd).value, op, rnd).Ok?
    ensures Execute(Execute(s, op, rnd).value, op, rnd).value.gfx == s.gfx
  {
    var x, y := s.v[X(op)] % ScreenWidth, s.v[Y(op)] % ScreenHeight;
    DrawTwiceRestores(s.memory, s.gfx, s.i, x, y, N(op));
  }

  /**
   * A sprite that fits on the screen toggles the pixel at screen position
   * (cx, cy) of its box exactly when the sprite bit drawn there is set, and
   * no pixel outside its box.
   */
  lemma DrawInsideScreenInstruction(s: State, op: u16, rnd: bv8)
    requires WellFormed(s) && Fetchable(s) && Group(op) == 0xD
    requires s.v[X(op)] % ScreenWidth + 8 <= ScreenWidth && s.v[Y(op)] % ScreenHeight + N(op) <= ScreenHeight
    requires s.i + N(op) <= MemorySize
    ensures Execute(s, op, rnd).Ok?
    ensures var x, y := s.v[X(op)] % ScreenWidth, s.v[Y(op)] % ScreenHeight;
      var r := Execute(s, op, rnd).value;
      (forall cx, cy :: x <= cx < x + 8 && y <= cy < y + N(op) ==>
        r.gfx[ScreenIndex(cx, cy)] == (s.gfx[ScreenIndex(cx, cy)] != SpriteBit(s.memory[s.i + (cy - y)], cx - x))) &&
      (forall p :: 0 <= p < PixelCount && !InBox(p, x, y, N(op)) ==> r.gfx[p] == s.gfx[p])
  {
    var x, y := s.v[X(op)] % ScreenWidth, s.v[Y(op)] % ScreenHeight;
    DrawInsideScreen(s.memory, s.gfx, s.i, x, y, N(op));
    assert Execute(s, op, rnd) == ExecDraw(s, op);
    assert Execute(s, op, rnd).value.gfx == DrawSprite(s.memory, s.gfx, s.i, x, y, N(op)).value.pixels;
  }

  /** A row's fault is always a framebuffer index past the grid. */
  lemma {:induction false} RowMaskFault(pixel: byte, x: nat, sy: nat, sx: nat)
    requires x <= sx <= x + 8
    ensures RowMask(pixel, x, sy, sx).Err? ==> RowMask(pixel, x, sy, sx).fault.FramebufferOutOfBounds?
    decreases x + 8 - sx
  {
    if sx < x + 8 && sx <= ScreenWidth {
      RowMaskFault(pixel, x, sy, sx + 1);
    }
  }

  /** A draw faults only by reading past memory or indexing past the framebuffer. */
  lemma {:induction false} SpriteMaskFault(memory: seq<byte>, i: nat, x: nat, y: nat, height: nat, sy: nat)
    requires |memory| == MemorySize && y <= sy <= y + height
    ensures var r := SpriteMask(memory, i, x, y, height, sy);
      r.Err? ==> r.fault.FramebufferOutOfBounds? || r.fault.MemoryOutOfBounds?
    decreases y + height - sy
  {
    if sy < y + height && sy <= ScreenHeight && i + (sy - y) < MemorySize {
      RowMaskFault(memory[i + (sy - y)], x, sy, x);
      SpriteMaskFault(memory, i, x, y, height, sy + 1);
    }
  }

  // ---------------------------------------------------------------------------
  // BCD, font, register dump and load.

  /** `Fx07`, `Fx15`, `Fx18` copy between V[x] and the delay or sound timer and advance; nothing else changes. */
  lemma TimerTransfers(s: State, op: u16, rnd: bv8)
    requires WellFormed(s) && Fetchable(s) && Group(op) == 0xF && NN(op) in {0x07, 0x15, 0x18}
    ensures Execute(s, op, rnd).Ok?
    ensures var r := Execute(s, op, rnd).value;
      (NN(op) == 0x07 ==> r == s.(v := s.v[X(op) := s.delayTimer], pc := s.pc + 2)) &&
      (NN(op) == 0x15 ==> r == s.(delayTimer := s.v[X(op)], pc := s.pc + 2)) &&
      (NN(op) == 0x18 ==> r == s.(soundTimer := s.v[X(op)], pc := s.pc + 2))
  {
  }

  /**
   * `Fx1E` adds V[x] to I in 16 bits: I and VF together hold the 17-bit sum,
   * VF is the carry, and no other register changes.
   */
  lemma AddToIndex(s: State, op: u16, rnd: bv8)
    requires WellFormed(s) && Fetchable(s) && Group(op) == 0xF && NN(op) == 0x1E
    ensures Execute(s, op, rnd).Ok?
    ensures var r := Execute(s, op, rnd).value;
      r == s.(i := r.i, v := s.v[0xF := r.v[0xF]], pc := s.pc + 2) &&
      r.v[0xF] <= 1 &&
      r.i as int + 0x1_0000 * (r.v[0xF] as int) == s.i as int + s.v[X(op)]
  {
  }

  /**
   * `Fx33` writes three decimal digits that recombine to V[x], at I, I+1,
   * I+2, and no other byte; it faults when I+2 is past memory.
   */
  lemma BcdDigits(s: State, op: u16, rnd: bv8)
    requires WellFormed(s) && Fetchable(s) && Group(op) == 0xF && NN(op) == 0x33
    ensures Execute(s, op, rnd).Ok? <==> s.i + 2 < MemorySize
    ensures Execute(s, op, rnd).Err? ==> Execute(s, op, rnd).fault == OutOfRange(s.i)
    ensures Execute(s, op, rnd).Ok? ==>
      var r := Execute(s, op, rnd).value;
      var m := r.memory;
      m[s.i] < 10 && m[s.i + 1] < 10 && m[s.i + 2] < 10 &&
      100 * m[s.i] + 10 * m[s.i + 1] + m[s.i + 2] == s.v[X(op)] &&
      (forall a :: 0 <= a < MemorySize && !(s.i <= a < s.i + 3) ==> m[a] == s.memory[a]) &&
      r == s.(memory := m, pc := s.pc + 2)
  {
    var value := s.v[X(op)];
    assert 100 * (value / 100) + 10 * ((value / 10) % 10) + value % 10 == value by {
      assert value / 10 == 10 * (value / 100) + (value / 10) % 10;
      assert value == 10 * (value / 10) + value % 10;
    }
  }

  /** `Fx29` sets I to five times V[x] for every V[x], up to 1275, and only advances otherwise. */
  lemma GlyphIndex(s: State, op: u16, rnd: bv8)
    requires WellFormed(s) && Fetchable(s) && Group(op) == 0xF && NN(op) == 0x29
    ensures Execute(s, op, rnd) == Ok(s.(i := 5 * (s.v[X(op)] as int), pc := s.pc + 2))
    ensures Execute(s, op, rnd).value.i <= 5 * 0xFF
  {
  }

  /** With the font in place, `Fx29` points I at the glyph for the digit in V[x]. */
  lemma FontAddress(s: State, op: u16, rnd: bv8)
    requires WellFormed(s) && Fetchable(s) && Group(op) == 0xF && NN(op) == 0x29
    requires s.memory[..80] == FontSet && s.v[X(op)] < 16
    ensures Execute(s, op, rnd).Ok?
    ensures var r := Execute(s, op, rnd).value;
      r.i == 5 * s.v[X(op)] && r.i + 5 <= MemorySize && r.memory[r.i .. r.i + 5] == Glyph(s.v[X(op)])
  {
    var d := s.v[X(op)];
    var r := Execute(s, op, rnd).value;
    assert r == Next(s.(i := d as int * 5));
    GlyphInMemory(s.memory, d);
  }

  lemma GlyphInMemory(memory: seq<byte>, d: nat)
    requires |memory| == MemorySize && memory[..80] == FontSet && d < 16
    ensures memory[5 * d .. 5 * d + 5] == Glyph(d)
  {
    assert memory[5 * d .. 5 * d + 5] == memory[..80][5 * d .. 5 * d + 5];
  }

  /** `Fx55` stores V0..Vx at I..I+x, changes no other byte, and advances I past them. */
  lemma DumpRegisters(s: State, op: u16, rnd: bv8)
    requires WellFormed(s) && Fetchable(s) && Group(op) == 0xF && NN(op) == 0x55
    ensures Execute(s, op, rnd).Ok? <==> s.i + X(op) < MemorySize
    ensures Execute(s, op, rnd).Err? ==> Execute(s, op, rnd).fault == OutOfRange(s.i)
    ensures Execute(s, op, rnd).Ok? ==>
      var r := Execute(s, op, rnd).value;
      r.memory[s.i .. s.i + X(op) + 1] == s.v[..X(op) + 1] &&
      (forall a :: 0 <= a < MemorySize && !(s.i <= a <= s.i + X(op)) ==> r.memory[a] == s.memory[a]) &&
      r == s.(memory := r.memory, i := s.i + X(op) + 1, pc := s.pc + 2)
  {
    if s.i + X(op) < MemorySize {
      var r := Execute(s, op, rnd).value;
      assert r.memory[s.i .. s.i + X(op) + 1] == s.v[..X(op) + 1];
    }
  }

  /** `Fx65` loads V0..Vx from I..I+x, keeps the registers above x, and advances I past them. */
  lemma LoadRegisters(s: State, op: u16, rnd: bv8)
    requires WellFormed(s) && Fetchable(s) && Group(op) == 0xF && NN(op) == 0x65
    ensures Execute(s, op, rnd).Ok? <==> s.i + X(op) < MemorySize
    ensures Execute(s, op, rnd).Err? ==> Execute(s, op, rnd).fault == OutOfRange(s.i)
    ensures Execute(s, op, rnd).Ok? ==>
      var r := Execute(s, op, rnd).value;
      r.v[..X(op) + 1] == s.memory[s.i .. s.i + X(op) + 1] &&
      r.v[X(op) + 1..] == s.v[X(op) + 1..] &&
      r == s.(v := r.v, i := s.i + X(op) + 1, pc := s.pc + 2)
  {
    if s.i + X(op) < MemorySize {
      var r := Execute(s, op, rnd).value;
      assert r.v[..X(op) + 1] == s.memory[s.i .. s.i + X(op) + 1];
      assert r.v[X(op) + 1..] == s.v[X(op) + 1..];
    }
  }

  /**
   * `Fx55` then, with I set back to where the dump started, `Fx65` with the
   * same x gives back exactly the registers the dump saw.
   */
  lemma DumpThenLoad(s: State, dump: u16, load: u16, rnd: bv8)
    requires WellFormed(s) && s.pc + 3 < MemorySize && s.i + X(dump) < MemorySize
    requires Group(dump) == 0xF && NN(dump) == 0x55 && Group(load) == 0xF && NN(load) == 0x65 && X(load) == X(dump)
    ensures Execute(s, dump, rnd).Ok?
    ensures var s1 := Execute(s, dump, rnd).value;
      var r := Execute(s1.(i := s.i), load, rnd);
      r.Ok? && r.value.v == s.v && r.value.memory == s1.memory && r.value.i == s.i + X(dump) + 1
  {
    DumpRegisters(s, dump, rnd);
    var s1 := Execute(s, dump, rnd).value;
    LoadRegisters(s1.(i := s.i), load, rnd);
    var r := Execute(s1.(i := s.i), load, rnd).value;
    assert r.v == r.v[..X(dump) + 1] + r.v[X(dump) + 1..];
    assert s.v == s.v[..X(dump) + 1] + s.v[X(dump) + 1..];
  }

  /** Only `Fx33` and `Fx55` write memory. */
  lemma OnlyStoresWriteMemory(s: State, op: u16, rnd: bv8)
    requires WellFormed(s) && Fetchable(s) && Execute(s, op, rnd).Ok?
    requires !(Group(op) == 0xF && (NN(op) == 0x33 || NN(op) == 0x55))
    ensures Execute(s, op, rnd).value.memory == s.memory
  {
  }

  // ---------------------------------------------------------------------------
  // Unknown opcodes.

  /** The CHIP-8 instruction table the interpreter implements, written as a flat list of patterns. */
  predicate Defined(op: u16)
  {
    var g := Group(op);
    (g == 0x8 && N(op) in {0x0, 0x1, 0x2, 0x3, 0x4, 0x5, 0x6, 0x7, 0xE}) ||
    (g == 0xE && NN(op) in {0x9E, 0xA1}) ||
    (g == 0xF && NN(op) in {0x07, 0x0A, 0x15, 0x18, 0x1E, 0x29, 0x33, 0x55, 0x65}) ||
    g in {0x0, 0x1, 0x2, 0x3, 0x4, 0x5, 0x6, 0x7, 0x9, 0xA, 0xB, 0xC, 0xD}
  }

  /** The interpreter stops with "unknown opcode" exactly on the opcodes outside the table. */
  lemma UnknownOpcodeExactly(s: State, op: u16, rnd: bv8)
    requires WellFormed(s) && Fetchable(s)
    ensures Execute(s, op, rnd) == Err(UnknownOpcode(op)) <==> !Defined(op)
  {
    if Group(op) == 0xD {
      var x, y := s.v[X(op)] % ScreenWidth, s.v[Y(op)] % ScreenHeight;
      DrawIsXor(s.memory, s.gfx, s.i, x, y, N(op));
      DrawRowsIsMask(s.memory, Canvas(s.gfx, false), s.i, x, y, N(op), y);
      SpriteMaskFault(s.memory, s.i, x, y, N(op), y);
    }
  }

  // ---------------------------------------------------------------------------
  // Timers.

  /** `n` render events in a row. */
  function TickN(s: State, n: nat): State
    decreases n
  {
    if n == 0 then s else TickN(TickTimers(s), n - 1)
  }

  /** Without a key wait, both timers count down to 0 and stay there. */
  lemma {:induction false} TimersCountDown(s: State, n: nat)
    requires !s.awaitKeypress
    ensures TickN(s, n).delayTimer == if s.delayTimer >= n then s.delayTimer - n else 0
    ensures TickN(s, n).soundTimer == if s.soundTimer >= n then s.soundTimer - n else 0
    ensures n > 0 ==> TickN(s, n) == s.(drawFlag := false, delayTimer := TickN(s, n).delayTimer, soundTimer := TickN(s, n).soundTimer)
    decreases n
  {
    if n > 0 {
      TimersCountDown(TickTimers(s), n - 1);
    }
  }

  /** While a key wait is pending the timers are frozen. */
  lemma {:induction false} TimersFrozenWhileAwaiting(s: State, n: nat)
    requires s.awaitKeypress
    ensures n > 0 ==> TickN(s, n) == s.(drawFlag := false)
    decreases n
  {
    if n > 1 {
      TimersFrozenWhileAwaiting(TickTimers(s), n - 1);
    }
  }

  /** With both timers at 0 a tick only clears the draw flag. */
  lemma TickAtZero(s: State)
    requires s.delayTimer == 0 && s.soundTimer == 0
    ensures TickTimers(s) == s.(drawFlag := false)
  {
  }

  // ---------------------------------------------------------------------------
  // Key wait.

  /** Update events with one random byte each, stopping at the first fault. */
  function Run(s: State, rnds: seq<bv8>): (r: Result<State>)
    requires WellFormed(s)
    ensures r.Ok? ==> WellFormed(r.value)
    decreases |rnds|
  {
    if rnds == [] then Ok(s)
    else
      match Step(s, rnds[0])
      case Err(f) => Err(f)
      case Ok(s') => Run(s', rnds[1..])
  }

  /** While a key wait is pending, any number of update events leave the machine exactly as it is. */
  lemma {:induction false} AwaitingIsFixedPoint(s: State, rnds: seq<bv8>)
    requires WellFormed(s) && Fetchable(s) && s.awaitKeypress
    ensures Run(s, rnds) == Ok(s)
    decreases |rnds|
  {
    if rnds != [] {
      AwaitingIsFixedPoint(s, rnds[1..]);
    }
  }

  /**
   * `Fx0A` then a key press: V[x] holds the key, the wait is over, the key
   * is down, and the next update runs a cycle again.
   */
  lemma WaitThenPress(s: State, op: u16, k: nat, rnd: bv8, rnd': bv8)
    requires WellFormed(s) && Fetchable(s) && Group(op) == 0xF && NN(op) == 0x0A && k < KeyCount
    ensures Execute(s, op, rnd).Ok?
    ensures var w := Execute(s, op, rnd).value;
      w == s.(awaitKeypress := true, keypressRegister := X(op), pc := s.pc + 2)
    ensures var r := SetKey(Execute(s, op, rnd).value, k, true);
      !r.awaitKeypress && r.v == s.v[X(op) := k] && r.key[k] && r.pc == s.pc + 2 &&
      Step(r, rnd') == Cycle(r, rnd')
  {
  }

  /** A release never ends a key wait and never writes a register. */
  lemma ReleaseKeepsWaiting(s: State, k: nat)
    requires WellFormed(s) && k < KeyCount
    ensures SetKey(s, k, false) == s.(key := s.key[k := false])
  {
  }

  // ---------------------------------------------------------------------------
  // The random instruction.

  /** What `gen_range(0, 255)` can return: the upper bound is exclusive. */
  predicate SourceRandomByte(rnd: bv8)
  {
    rnd < 0xFF
  }

  /** As written, `CxFF` never sets V[x] to 0xFF: no byte the source's generator yields can produce it. */
  lemma RandomAsWrittenMissesFF(s: State, op: u16, rnd: bv8)
    requires WellFormed(s) && Fetchable(s) && Group(op) == 0xC && NN(op) == 0xFF && SourceRandomByte(rnd)
    ensures Execute(s, op, rnd).Ok?
    ensures Execute(s, op, rnd).value.v[X(op)] != 0xFF
  {
    assert rnd & 0xFF == rnd;
  }

  /** With the full byte range the model admits, `CxFF` can produce every byte. */
  lemma RandomReachesEveryByte(s: State, op: u16, b: bv8)
    requires WellFormed(s) && Fetchable(s) && Group(op) == 0xC && NN(op) == 0xFF
    ensures exists rnd: bv8 :: Execute(s, op, rnd).Ok? && Execute(s, op, rnd).value.v[X(op)] == b as int
  {
    assert b & 0xFF == b;
    assert Execute(s, op, b).value.v[X(op)] == b as int;
  }
}
