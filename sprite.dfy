/**
 * The sprite-draw loop of instruction Dxyn, as the Rust code runs it, and a
 * second, loop-free description of the same effect: the set of framebuffer
 * indices a sprite toggles (its mask). The lemmas here prove the two agree
 * and derive what drawing promises: XOR onto the screen, the collision flag,
 * drawing twice restores the screen, a sprite inside the screen touches only
 * its own box.
 *
 * The clipping is the source's: rows stop only once `y + line > 32` and
 * columns once `x + col > 64`. So row 32 is still drawn (its indices start at
 * 2048, past the grid: a fault as soon as one of its bits is set), and
 * column 64 lands on column 0 of the next row.
 *
 * The recursions run over absolute screen positions: `sx = x + col` for the
 * columns and `sy = y + line` for the rows, the quantities the source's
 * clipping tests and index computation use.
 */
module Sprite {
  import opened Chip8Types

  /** The framebuffer together with the collision flag a draw accumulates. */
  datatype Canvas = Canvas(pixels: seq<bool>, collided: bool)

  /** `(pixel & (0x80 >> col)) != 0`: column `col` (0 = leftmost) of a sprite row is set. */
  predicate SpriteBit(pixel: byte, col: nat)
    requires col < 8
  {
    (pixel as bv8) & ((0x80 as bv8) >> col) != 0
  }

  /** The framebuffer index the source computes for screen position (sx, sy): `sx + sy * 64`. */
  function ScreenIndex(sx: nat, sy: nat): nat
  {
    sx + sy * 64
  }

  /** Columns `sx..x+7` of one sprite row on screen row `sy`: the inner `'cols` loop. */
  function DrawCols(c: Canvas, pixel: byte, x: nat, sy: nat, sx: nat): (r: Result<Canvas>)
    requires |c.pixels| == PixelCount && x <= sx <= x + 8
    ensures r.Ok? ==> |r.value.pixels| == PixelCount
    decreases x + 8 - sx
  {
    if sx == x + 8 || sx > ScreenWidth then Ok(c)
    else if !SpriteBit(pixel, sx - x) then DrawCols(c, pixel, x, sy, sx + 1)
    else
      var p := ScreenIndex(sx, sy);
      if p >= PixelCount then Err(FramebufferOutOfBounds(p))
      else DrawCols(Canvas(c.pixels[p := !c.pixels[p]], c.collided || c.pixels[p]), pixel, x, sy, sx + 1)
  }

  /** Sprite rows for screen rows `sy..y+height-1`, read from `memory[i + (sy - y)]`: the outer `'rows` loop. */
  function DrawRows(memory: seq<byte>, c: Canvas, i: nat, x: nat, y: nat, height: nat, sy: nat): (r: Result<Canvas>)
    requires |memory| == MemorySize && |c.pixels| == PixelCount && y <= sy <= y + height
    ensures r.Ok? ==> |r.value.pixels| == PixelCount
    decreases y + height - sy
  {
    if sy == y + height || sy > ScreenHeight then Ok(c)
    else if i + (sy - y) >= MemorySize then Err(MemoryOutOfBounds(i + (sy - y)))
    else
      match DrawCols(c, memory[i + (sy - y)], x, sy, x)
      case Err(f) => Err(f)
      case Ok(c') => DrawRows(memory, c', i, x, y, height, sy + 1)
  }

  /** A whole Dxyn draw onto `gfx`, starting with the collision flag clear. */
  function DrawSprite(memory: seq<byte>, gfx: seq<bool>, i: nat, x: nat, y: nat, height: nat): Result<Canvas>
    requires |memory| == MemorySize && |gfx| == PixelCount
  {
    DrawRows(memory, Canvas(gfx, false), i, x, y, height, y)
  }

  // ---------------------------------------------------------------------------
  // The mask description.

  /** The indices columns `sx..x+7` of a sprite row toggle, or the fault the row hits. */
  function RowMask(pixel: byte, x: nat, sy: nat, sx: nat): Result<set<int>>
    requires x <= sx <= x + 8
    decreases x + 8 - sx
  {
    if sx == x + 8 || sx > ScreenWidth then Ok({})
    else if !SpriteBit(pixel, sx - x) then RowMask(pixel, x, sy, sx + 1)
    else
      var p := ScreenIndex(sx, sy);
      if p >= PixelCount then Err(FramebufferOutOfBounds(p))
      else
        match RowMask(pixel, x, sy, sx + 1)
        case Err(f) => Err(f)
        case Ok(m) => Ok({p} + m)
  }

  /** The indices screen rows `sy..y+height-1` of a sprite toggle, or the fault the draw hits. */
  function SpriteMask(memory: seq<byte>, i: nat, x: nat, y: nat, height: nat, sy: nat): Result<set<int>>
    requires |memory| == MemorySize && y <= sy <= y + height
    decreases y + height - sy
  {
    if sy == y + height || sy > ScreenHeight then Ok({})
    else if i + (sy - y) >= MemorySize then Err(MemoryOutOfBounds(i + (sy - y)))
    else
      match RowMask(memory[i + (sy - y)], x, sy, x)
      case Err(f) => Err(f)
      case Ok(m1) =>
        match SpriteMask(memory, i, x, y, height, sy + 1)
        case Err(f) => Err(f)
        case Ok(m2) => Ok(m1 + m2)
  }

  /** Every index a row toggles lies on the grid, between screen column `sx` and column x+7 of its row. */
  lemma {:induction false} RowMaskBound(pixel: byte, x: nat, sy: nat, sx: nat, p: int)
    requires x <= sx <= x + 8 && RowMask(pixel, x, sy, sx).Ok? && p in RowMask(pixel, x, sy, sx).value
    ensures ScreenIndex(sx, sy) <= p <= ScreenIndex(x + 7, sy) && p < PixelCount
    decreases x + 8 - sx
  {
    var rest := RowMask(pixel, x, sy, sx + 1);
    if rest.Ok? && p in rest.value {
      RowMaskBound(pixel, x, sy, sx + 1, p);
    }
  }

  /** Every index a sprite toggles from screen row `sy` on lies on the grid, no earlier than column x of that row. */
  lemma {:induction false} SpriteMaskBound(memory: seq<byte>, i: nat, x: nat, y: nat, height: nat, sy: nat, p: int)
    requires |memory| == MemorySize && y <= sy <= y + height
    requires SpriteMask(memory, i, x, y, height, sy).Ok? && p in SpriteMask(memory, i, x, y, height, sy).value
    ensures ScreenIndex(x, sy) <= p < PixelCount
    decreases y + height - sy
  {
    var first := RowMask(memory[i + (sy - y)], x, sy, x);
    if p in first.value {
      RowMaskBound(memory[i + (sy - y)], x, sy, x, p);
    } else {
      SpriteMaskBound(memory, i, x, y, height, sy + 1, p);
    }
  }

  /** XOR the mask onto the screen; the flag records whether a lit pixel was hit. */
  function Apply(c: Canvas, m: set<int>): Canvas
    requires |c.pixels| == PixelCount
  {
    Canvas(
      seq(PixelCount, p requires 0 <= p < PixelCount => c.pixels[p] != (p in m)),
      c.collided || exists p :: p in m && 0 <= p < PixelCount && c.pixels[p])
  }

  function ApplyMask(c: Canvas, r: Result<set<int>>): Result<Canvas>
    requires |c.pixels| == PixelCount
  {
    match r
    case Err(f) => Err(f)
    case Ok(m) => Ok(Apply(c, m))
  }

  lemma ApplyEmpty(c: Canvas)
    requires |c.pixels| == PixelCount
    ensures Apply(c, {}) == c
  {
    assert Apply(c, {}).pixels == c.pixels;
  }

  lemma ApplySingle(c: Canvas, p: nat)
    requires |c.pixels| == PixelCount && p < PixelCount
    ensures Apply(c, {p}) == Canvas(c.pixels[p := !c.pixels[p]], c.collided || c.pixels[p])
  {
    assert Apply(c, {p}).pixels == c.pixels[p := !c.pixels[p]];
  }

  /** XORing two disjoint masks one after the other is XORing their union. */
  lemma ApplyCompose(c: Canvas, m1: set<int>, m2: set<int>)
    requires |c.pixels| == PixelCount && m1 !! m2
    ensures Apply(Apply(c, m1), m2) == Apply(c, m1 + m2)
  {
    var a := Apply(c, m1);
    var lhs, rhs := Apply(a, m2), Apply(c, m1 + m2);
    assert lhs.pixels == rhs.pixels;
    if lhs.collided && !c.collided && !a.collided {
      var p :| p in m2 && 0 <= p < PixelCount && a.pixels[p];
      assert p in m1 + m2 && c.pixels[p];
    }
    if rhs.collided && !c.collided {
      var p :| p in m1 + m2 && 0 <= p < PixelCount && c.pixels[p];
      if p in m2 {
        assert a.pixels[p];
      }
    }
  }

  /** The inner loop toggles exactly its row's mask. */
  lemma {:induction false} DrawColsIsMask(c: Canvas, pixel: byte, x: nat, sy: nat, sx: nat)
    requires |c.pixels| == PixelCount && x <= sx <= x + 8
    ensures DrawCols(c, pixel, x, sy, sx) == ApplyMask(c, RowMask(pixel, x, sy, sx))
    decreases x + 8 - sx
  {
    if sx == x + 8 || sx > ScreenWidth {
      ApplyEmpty(c);
    } else if !SpriteBit(pixel, sx - x) {
      DrawColsIsMask(c, pixel, x, sy, sx + 1);
    } else {
      var p := ScreenIndex(sx, sy);
      if p < PixelCount {
        var c1 := Canvas(c.pixels[p := !c.pixels[p]], c.collided || c.pixels[p]);
        ApplySingle(c, p);
        DrawColsIsMask(c1, pixel, x, sy, sx + 1);
        match RowMask(pixel, x, sy, sx + 1)
        case Err(_) =>
        case Ok(m) =>
          forall q | q in m ensures q != p {
            RowMaskBound(pixel, x, sy, sx + 1, q);
          }
          ApplyCompose(c, {p}, m);
      }
    }
  }

  /** The outer loop toggles exactly the sprite's mask. */
  lemma {:induction false} DrawRowsIsMask(memory: seq<byte>, c: Canvas, i: nat, x: nat, y: nat, height: nat, sy: nat)
    requires |memory| == MemorySize && |c.pixels| == PixelCount && y <= sy <= y + height
    ensures DrawRows(memory, c, i, x, y, height, sy) == ApplyMask(c, SpriteMask(memory, i, x, y, height, sy))
    decreases y + height - sy
  {
    if sy == y + height || sy > ScreenHeight {
      ApplyEmpty(c);
    } else if i + (sy - y) < MemorySize {
      var pixel := memory[i + (sy - y)];
      DrawColsIsMask(c, pixel, x, sy, x);
      match RowMask(pixel, x, sy, x)
      case Err(_) =>
      case Ok(m1) =>
        DrawRowsIsMask(memory, Apply(c, m1), i, x, y, height, sy + 1);
        match SpriteMask(memory, i, x, y, height, sy + 1)
        case Err(_) =>
        case Ok(m2) =>
          forall q | q in m1 ensures q !in m2 {
            RowMaskBound(pixel, x, sy, x, q);
            if q in m2 {
              SpriteMaskBound(memory, i, x, y, height, sy + 1, q);
            }
          }
          ApplyCompose(c, m1, m2);
    }
  }

  // ---------------------------------------------------------------------------
  // What a draw promises.

  /**
   * A draw XORs a screen-independent set of pixels: whether it faults, and
   * which pixels it flips, depend only on memory, I, the coordinates and the
   * height; every pixel ends as its old value XOR membership in that set.
   */
  lemma DrawIsXor(memory: seq<byte>, gfx: seq<bool>, i: nat, x: nat, y: nat, height: nat)
    requires |memory| == MemorySize && |gfx| == PixelCount
    ensures DrawSprite(memory, gfx, i, x, y, height).Ok? == SpriteMask(memory, i, x, y, height, y).Ok?
    ensures DrawSprite(memory, gfx, i, x, y, height).Ok? ==>
      forall p :: 0 <= p < PixelCount ==>
        DrawSprite(memory, gfx, i, x, y, height).value.pixels[p] ==
        (gfx[p] != (p in SpriteMask(memory, i, x, y, height, y).value))
  {
    DrawRowsIsMask(memory, Canvas(gfx, false), i, x, y, height, y);
  }

  /** The collision flag is set exactly when some lit pixel was turned off. */
  lemma DrawCollision(memory: seq<byte>, gfx: seq<bool>, i: nat, x: nat, y: nat, height: nat)
    requires |memory| == MemorySize && |gfx| == PixelCount
    requires DrawSprite(memory, gfx, i, x, y, height).Ok?
    ensures var c := DrawSprite(memory, gfx, i, x, y, height).value;
      c.collided <==> exists p :: 0 <= p < PixelCount && gfx[p] && !c.pixels[p]
  {
    DrawRowsIsMask(memory, Canvas(gfx, false), i, x, y, height, y);
    var c := DrawSprite(memory, gfx, i, x, y, height).value;
    var m := SpriteMask(memory, i, x, y, height, y).value;
    if c.collided {
      var p :| p in m && 0 <= p < PixelCount && gfx[p];
      assert !c.pixels[p];
    }
  }

  /** Drawing onto a blank screen never reports a collision. */
  lemma DrawOnBlankScreen(memory: seq<byte>, gfx: seq<bool>, i: nat, x: nat, y: nat, height: nat)
    requires |memory| == MemorySize && |gfx| == PixelCount
    requires forall p :: 0 <= p < PixelCount ==> !gfx[p]
    requires DrawSprite(memory, gfx, i, x, y, height).Ok?
    ensures !DrawSprite(memory, gfx, i, x, y, height).value.collided
  {
    DrawCollision(memory, gfx, i, x, y, height);
  }

  /**
   * Drawing the same sprite at the same place twice restores the screen; the
   * second draw reports a collision exactly when the first one lit a pixel.
   */
  lemma DrawTwiceRestores(memory: seq<byte>, gfx: seq<bool>, i: nat, x: nat, y: nat, height: nat)
    requires |memory| == MemorySize && |gfx| == PixelCount
    requires DrawSprite(memory, gfx, i, x, y, height).Ok?
    ensures var c1 := DrawSprite(memory, gfx, i, x, y, height).value;
      var r2 := DrawSprite(memory, c1.pixels, i, x, y, height);
      r2.Ok? && r2.value.pixels == gfx &&
      (r2.value.collided <==> exists p :: 0 <= p < PixelCount && c1.pixels[p] && !gfx[p])
  {
    var c1 := DrawSprite(memory, gfx, i, x, y, height).value;
    DrawIsXor(memory, gfx, i, x, y, height);
    DrawIsXor(memory, c1.pixels, i, x, y, height);
    DrawCollision(memory, c1.pixels, i, x, y, height);
    var r2 := DrawSprite(memory, c1.pixels, i, x, y, height);
    assert r2.value.pixels == gfx;
  }

  // ---------------------------------------------------------------------------
  // Clipping: inside the screen, and the source's two edge quirks.

  /** Framebuffer index `p` lies in the 8-wide, `height`-tall box whose top-left corner is (x, y). */
  predicate InBox(p: int, x: nat, y: nat, height: nat)
  {
    y <= p / 64 < y + height && x <= p % 64 < x + 8
  }

  /** Inside the screen a row never faults, and its mask holds screen column `cx` exactly when that bit is set. */
  lemma {:induction false} RowMaskInside(pixel: byte, x: nat, sy: nat, sx: nat, cx: nat)
    requires x <= sx <= cx < x + 8 && x + 8 <= ScreenWidth && sy < ScreenHeight
    ensures RowMask(pixel, x, sy, sx).Ok?
    ensures ScreenIndex(cx, sy) in RowMask(pixel, x, sy, sx).value <==> SpriteBit(pixel, cx - x)
    decreases x + 8 - sx
  {
    if sx < cx {
      RowMaskInside(pixel, x, sy, sx + 1, cx);
    } else {
      RowMaskOk(pixel, x, sy, sx + 1);
      var rest := RowMask(pixel, x, sy, sx + 1).value;
      if ScreenIndex(cx, sy) in rest {
        RowMaskBound(pixel, x, sy, sx + 1, ScreenIndex(cx, sy));
      }
    }
  }

  /** A sprite that fits on the screen and in memory never faults. */
  lemma {:induction false} SpriteMaskInsideOk(memory: seq<byte>, i: nat, x: nat, y: nat, height: nat, sy: nat)
    requires |memory| == MemorySize && y <= sy <= y + height
    requires x + 8 <= ScreenWidth && y + height <= ScreenHeight && i + height <= MemorySize
    ensures SpriteMask(memory, i, x, y, height, sy).Ok?
    decreases y + height - sy
  {
    if sy < y + height {
      RowMaskInside(memory[i + (sy - y)], x, sy, x, x);
      SpriteMaskInsideOk(memory, i, x, y, height, sy + 1);
    }
  }

  /** Inside the screen, position (cx, cy) is in the mask exactly when the sprite bit drawn there is set. */
  lemma {:induction false} SpriteMaskInsideAt(memory: seq<byte>, i: nat, x: nat, y: nat, height: nat, sy: nat, cx: nat, cy: nat)
    requires |memory| == MemorySize && y <= sy <= cy < y + height
    requires x + 8 <= ScreenWidth && y + height <= ScreenHeight && i + height <= MemorySize
    requires x <= cx < x + 8
    ensures SpriteMask(memory, i, x, y, height, sy).Ok?
    ensures ScreenIndex(cx, cy) in SpriteMask(memory, i, x, y, height, sy).value <==> SpriteBit(memory[i + (cy - y)], cx - x)
    decreases y + height - sy
  {
    var pixel := memory[i + (sy - y)];
    RowMaskInside(pixel, x, sy, x, cx);
    SpriteMaskInsideOk(memory, i, x, y, height, sy + 1);
    var m1 := RowMask(pixel, x, sy, x).value;
    var m2 := SpriteMask(memory, i, x, y, height, sy + 1).value;
    assert SpriteMask(memory, i, x, y, height, sy) == Ok(m1 + m2);
    var p := ScreenIndex(cx, cy);
    if cy == sy {
      if p in m2 {
        SpriteMaskBound(memory, i, x, y, height, sy + 1, p);
      }
    } else {
      SpriteMaskInsideAt(memory, i, x, y, height, sy + 1, cx, cy);
      if p in m1 {
        RowMaskBound(pixel, x, sy, x, p);
      }
    }
  }

  /** Every index of a mask that does not fault lies in one of the sprite's rows, at columns x..x+7. */
  lemma {:induction false} SpriteMaskInBox(memory: seq<byte>, i: nat, x: nat, y: nat, height: nat, sy: nat, p: int)
    requires |memory| == MemorySize && y <= sy <= y + height && x + 8 <= ScreenWidth
    requires SpriteMask(memory, i, x, y, height, sy).Ok? && p in SpriteMask(memory, i, x, y, height, sy).value
    ensures InBox(p, x, y, height)
    decreases y + height - sy
  {
    var first := RowMask(memory[i + (sy - y)], x, sy, x);
    if p in first.value {
      RowMaskBound(memory[i + (sy - y)], x, sy, x, p);
      assert p / 64 == sy && p % 64 == p - sy * 64;
    } else {
      SpriteMaskInBox(memory, i, x, y, height, sy + 1, p);
    }
  }

  /**
   * A sprite that fits on the screen (and in memory) draws without a fault,
   * XORs each of its bits onto the pixel under it and leaves every pixel
   * outside its box alone.
   */
  lemma DrawInsideScreen(memory: seq<byte>, gfx: seq<bool>, i: nat, x: nat, y: nat, height: nat)
    requires |memory| == MemorySize && |gfx| == PixelCount
    requires x + 8 <= ScreenWidth && y + height <= ScreenHeight && i + height <= MemorySize
    ensures DrawSprite(memory, gfx, i, x, y, height).Ok?
    ensures forall cx, cy :: x <= cx < x + 8 && y <= cy < y + height ==>
      DrawSprite(memory, gfx, i, x, y, height).value.pixels[ScreenIndex(cx, cy)] ==
      (gfx[ScreenIndex(cx, cy)] != SpriteBit(memory[i + (cy - y)], cx - x))
    ensures forall p :: 0 <= p < PixelCount && !InBox(p, x, y, height) ==>
      DrawSprite(memory, gfx, i, x, y, height).value.pixels[p] == gfx[p]
  {
    SpriteMaskInsideOk(memory, i, x, y, height, y);
    DrawIsXor(memory, gfx, i, x, y, height);
    var m := SpriteMask(memory, i, x, y, height, y).value;
    forall cx, cy | x <= cx < x + 8 && y <= cy < y + height
      ensures ScreenIndex(cx, cy) in m <==> SpriteBit(memory[i + (cy - y)], cx - x)
    {
      SpriteMaskInsideAt(memory, i, x, y, height, y, cx, cy);
    }
    forall p | 0 <= p < PixelCount && !InBox(p, x, y, height)
      ensures p !in m
    {
      if p in m {
        SpriteMaskInBox(memory, i, x, y, height, y, p);
      }
    }
  }

  lemma {:induction false} BlankRow(c: Canvas, x: nat, sy: nat, sx: nat)
    requires |c.pixels| == PixelCount && x <= sx <= x + 8
    ensures DrawCols(c, 0, x, sy, sx) == Ok(c)
    decreases x + 8 - sx
  {
    if sx < x + 8 {
      assert !SpriteBit(0, sx - x);
      BlankRow(c, x, sy, sx + 1);
    }
  }

  /** A row that ends inside the grid never faults. */
  lemma {:induction false} RowMaskOk(pixel: byte, x: nat, sy: nat, sx: nat)
    requires x <= sx <= x + 8 && ScreenIndex(x + 7, sy) < PixelCount
    ensures RowMask(pixel, x, sy, sx).Ok?
    decreases x + 8 - sx
  {
    if sx < x + 8 {
      RowMaskOk(pixel, x, sy, sx + 1);
    }
  }

  lemma {:induction false} RowMaskHas(pixel: byte, x: nat, sy: nat, sx: nat, cx: nat)
    requires x <= sx <= cx < x + 8 && cx <= ScreenWidth && SpriteBit(pixel, cx - x)
    requires ScreenIndex(x + 7, sy) < PixelCount
    ensures RowMask(pixel, x, sy, sx).Ok? && ScreenIndex(cx, sy) in RowMask(pixel, x, sy, sx).value
    decreases x + 8 - sx
  {
    if sx < cx {
      RowMaskHas(pixel, x, sy, sx + 1, cx);
    } else {
      RowMaskOk(pixel, x, sy, sx + 1);
    }
  }

  /**
   * The column test is `x + col > 64`, so a full sprite row starting at
   * x >= 57 still draws screen column 64, whose index is column 0 of the
   * next row.
   */
  lemma ColumnSixtyFourWraps(memory: seq<byte>, gfx: seq<bool>, i: nat, x: nat, y: nat)
    requires |memory| == MemorySize && |gfx| == PixelCount
    requires 57 <= x < ScreenWidth && y < ScreenHeight - 1 && i < MemorySize
    requires memory[i] == 0xFF
    ensures DrawSprite(memory, gfx, i, x, y, 1).Ok?
    ensures DrawSprite(memory, gfx, i, x, y, 1).value.pixels[(y + 1) * 64] == !gfx[(y + 1) * 64]
  {
    assert SpriteBit(0xFF, 64 - x);
    RowMaskHas(0xFF, x, y, x, 64);
    DrawIsXor(memory, gfx, i, x, y, 1);
    assert ScreenIndex(64, y) == (y + 1) * 64;
  }

  /**
   * The row test is `y + line > 32`, so a sprite starting on the last row
   * (31) still draws row 32, whose indices lie past the 2048-pixel grid: its
   * first set bit faults instead of being clipped.
   */
  lemma RowThirtyTwoFaults(memory: seq<byte>, gfx: seq<bool>, i: nat, x: nat, height: nat)
    requires |memory| == MemorySize && |gfx| == PixelCount
    requires x < ScreenWidth && 2 <= height && i + 1 < MemorySize
    requires memory[i] == 0 && SpriteBit(memory[i + 1], 0)
    ensures DrawSprite(memory, gfx, i, x, ScreenHeight - 1, height) == Err(FramebufferOutOfBounds(x + PixelCount))
  {
    var c := Canvas(gfx, false);
    BlankRow(c, x, ScreenHeight - 1, x);
    assert DrawCols(c, memory[i + 1], x, ScreenHeight, x) == Err(FramebufferOutOfBounds(x + PixelCount));
    assert DrawRows(memory, c, i, x, ScreenHeight - 1, height, ScreenHeight) == Err(FramebufferOutOfBounds(x + PixelCount));
  }
}
