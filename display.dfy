/** The monochrome frame buffer: 64 x 32 pixels in low resolution, 128 x 64
    in high resolution, drawn by XOR-ing 8-pixel-wide sprites that wrap
    around the edges (okto/src/display.rs). */
module Display {
  import opened Bits

  const DisplayHeight: nat := 64
  const DisplayWidth: nat := 128
  const MaxSpriteBytes: nat := 15
  const PixelsPerByte: nat := 8

  /** The frame buffer, one cell per pixel, indexed by row and then column. */
  type Screen = s: seq<seq<Byte>> | |s| == DisplayHeight
    && forall r | 0 <= r < DisplayHeight :: |s[r]| == DisplayWidth
    witness seq(DisplayHeight, _ => seq(DisplayWidth, _ => 0))

  /** The buffer `Display::new` and `clear` produce. */
  function Blank(): Screen
  {
    seq(DisplayHeight, _ => seq(DisplayWidth, _ => 0))
  }

  /** `height`: the whole buffer in high resolution, its top half otherwise. */
  function Height(highResolution: bool): (h: nat)
    ensures 0 < h <= DisplayHeight
    ensures highResolution <==> h == DisplayHeight
    ensures !highResolution ==> 2 * h == DisplayHeight
  {
    if highResolution then DisplayHeight else DisplayHeight / 2
  }

  /** `width`: the whole buffer in high resolution, its left half otherwise. */
  function Width(highResolution: bool): (w: nat)
    ensures PixelsPerByte <= w <= DisplayWidth
    ensures highResolution <==> w == DisplayWidth
    ensures !highResolution ==> 2 * w == DisplayWidth
  {
    if highResolution then DisplayWidth else DisplayWidth / 2
  }

  /** Pixel `column` of sprite row `row`, the most significant bit first. */
  function SpritePixel(sprite: seq<Byte>, row: nat, column: nat): (p: Byte)
    requires row < |sprite| && column < PixelsPerByte
    ensures p <= 1
  {
    Bit(sprite[row], PixelsPerByte - column - 1)
  }

  /** The screen row sprite row `k` lands on, wrapping at the bottom. */
  function RowOf(highResolution: bool, y: nat, k: nat): (r: nat)
    ensures r < Height(highResolution)
  {
    (y + k) % Height(highResolution)
  }

  /** The screen column sprite column `j` lands on, wrapping at the right. */
  function ColumnOf(highResolution: bool, x: nat, j: nat): (c: nat)
    ensures c < Width(highResolution)
  {
    (x + j) % Width(highResolution)
  }

  /** The sprite row that lands on screen row `r`, if any lands there. */
  function SpriteRowAt(highResolution: bool, y: nat, r: nat): nat
  {
    (r - y) % Height(highResolution)
  }

  /** The sprite column that lands on screen column `c`, if any lands there. */
  function SpriteColumnAt(highResolution: bool, x: nat, c: nat): nat
  {
    (c - x) % Width(highResolution)
  }

  /** Cell `(r, c)` lies under the sprite drawn at `(x, y)`. */
  predicate Covers(highResolution: bool, x: nat, y: nat, n: nat, r: nat, c: nat)
  {
    r < Height(highResolution) && c < Width(highResolution)
    && SpriteRowAt(highResolution, y, r) < n && SpriteColumnAt(highResolution, x, c) < PixelsPerByte
  }

  /** The screen after drawing `sprite` at `(x, y)`: every covered cell is
      XOR-ed with the sprite pixel over it, every other cell is kept. */
  function Blit(s: Screen, highResolution: bool, x: nat, y: nat, sprite: seq<Byte>): Screen
  {
    seq(DisplayHeight, r requires 0 <= r < DisplayHeight =>
      seq(DisplayWidth, c requires 0 <= c < DisplayWidth =>
        if Covers(highResolution, x, y, |sprite|, r, c) then
          XorByte(s[r][c], SpritePixel(sprite, SpriteRowAt(highResolution, y, r),
                                               SpriteColumnAt(highResolution, x, c)))
        else s[r][c]))
  }

  /** Drawing `sprite` at `(x, y)` turns off a lit pixel. */
  predicate Erases(s: Screen, highResolution: bool, x: nat, y: nat, sprite: seq<Byte>)
  {
    exists k, j | 0 <= k < |sprite| && 0 <= j < PixelsPerByte ::
      SpritePixel(sprite, k, j) == 1 && s[RowOf(highResolution, y, k)][ColumnOf(highResolution, x, j)] == 1
  }

  // ---------------------------------------------------------------------
  // Wrap-around arithmetic

  /** The two heights and two widths a screen can have. */
  predicate ScreenSide(m: nat)
  {
    m == 32 || m == 64 || m == 128
  }

  /** Shifting by `y` and back, modulo `m`, is the identity on `0..m`. */
  lemma ShiftBack(y: nat, k: nat, m: nat)
    requires ScreenSide(m) && k < m
    ensures ((y + k) % m - y) % m == k
  {
    var q := (y + k) / m;
    assert (y + k) % m - y == k - m * q;
    if m == 32 {
      ModOfShift32(k, q);
    } else if m == 64 {
      ModOfShift64(k, q);
    } else {
      ModOfShift128(k, q);
    }
  }

  /** Shifting back by `y` and forward again, modulo `m`, is the identity on
      `0..m`. */
  lemma ShiftForth(y: nat, r: nat, m: nat)
    requires ScreenSide(m) && r < m
    ensures (y + (r - y) % m) % m == r
  {
    var q := (r - y) / m;
    assert y + (r - y) % m == r - m * q;
    if m == 32 {
      ModOfShift32(r, q);
    } else if m == 64 {
      ModOfShift64(r, q);
    } else {
      ModOfShift128(r, q);
    }
  }

  lemma ModOfShift32(k: int, q: int)
    requires 0 <= k < 32
    ensures (k - 32 * q) % 32 == k
  {
  }

  lemma ModOfShift64(k: int, q: int)
    requires 0 <= k < 64
    ensures (k - 64 * q) % 64 == k
  {
  }

  lemma ModOfShift128(k: int, q: int)
    requires 0 <= k < 128
    ensures (k - 128 * q) % 128 == k
  {
  }

  /** Sprite row `k` and column `j` cover the cell they land on, and no
      other cell of the same screen is covered by them. */
  lemma LandsOn(highResolution: bool, x: nat, y: nat, k: nat, j: nat)
    requires k < Height(highResolution) && j < PixelsPerByte
    ensures SpriteRowAt(highResolution, y, RowOf(highResolution, y, k)) == k
    ensures SpriteColumnAt(highResolution, x, ColumnOf(highResolution, x, j)) == j
  {
    ShiftBack(y, k, Height(highResolution));
    ShiftBack(x, j, Width(highResolution));
  }

  /** A covered cell is where its sprite row and column land. */
  lemma CameFrom(highResolution: bool, x: nat, y: nat, r: nat, c: nat)
    requires r < Height(highResolution) && c < Width(highResolution)
    ensures RowOf(highResolution, y, SpriteRowAt(highResolution, y, r)) == r
    ensures ColumnOf(highResolution, x, SpriteColumnAt(highResolution, x, c)) == c
  {
    ShiftForth(y, r, Height(highResolution));
    ShiftForth(x, c, Width(highResolution));
  }

  // ---------------------------------------------------------------------
  // Drawing, one cell at a time

  /** The position of sprite pixel `(k, j)` in drawing order. */
  function Step(k: nat, j: nat): nat
  {
    k * PixelsPerByte + j
  }

  lemma StepsDistinct(k: nat, j: nat, k': nat, j': nat)
    requires j < PixelsPerByte && j' < PixelsPerByte && Step(k, j) == Step(k', j')
    ensures k == k' && j == j'
  {
  }

  /** Cell `(r, c)` once the first `done` sprite pixels have been drawn. */
  ghost function Drawn(s: Screen, highResolution: bool, x: nat, y: nat, sprite: seq<Byte>,
                       done: nat, r: nat, c: nat): Byte
    requires r < DisplayHeight && c < DisplayWidth
  {
    var k, j := SpriteRowAt(highResolution, y, r), SpriteColumnAt(highResolution, x, c);
    if Covers(highResolution, x, y, |sprite|, r, c) && Step(k, j) < done then
      XorByte(s[r][c], SpritePixel(sprite, k, j))
    else s[r][c]
  }

  /** Some sprite pixel among the first `done` turns off a lit pixel. */
  ghost predicate ErasedSoFar(s: Screen, highResolution: bool, x: nat, y: nat, sprite: seq<Byte>,
                              done: nat)
  {
    exists k, j | 0 <= k < |sprite| && 0 <= j < PixelsPerByte && Step(k, j) < done ::
      SpritePixel(sprite, k, j) == 1 && s[RowOf(highResolution, y, k)][ColumnOf(highResolution, x, j)] == 1
  }

  /** Drawing pixel `(k, j)` changes its own cell and no other. */
  lemma DrawnStep(s: Screen, highResolution: bool, x: nat, y: nat, sprite: seq<Byte>,
                  k: nat, j: nat, r: nat, c: nat)
    requires |sprite| <= MaxSpriteBytes && k < |sprite| && j < PixelsPerByte
    requires r < DisplayHeight && c < DisplayWidth
    ensures var r0, c0 := RowOf(highResolution, y, k), ColumnOf(highResolution, x, j);
      if r == r0 && c == c0 then
        Drawn(s, highResolution, x, y, sprite, Step(k, j), r, c) == s[r][c]
        && Drawn(s, highResolution, x, y, sprite, Step(k, j) + 1, r, c)
          == XorByte(s[r][c], SpritePixel(sprite, k, j))
      else
        Drawn(s, highResolution, x, y, sprite, Step(k, j) + 1, r, c)
          == Drawn(s, highResolution, x, y, sprite, Step(k, j), r, c)
  {
    LandsOn(highResolution, x, y, k, j);
    var r0, c0 := RowOf(highResolution, y, k), ColumnOf(highResolution, x, j);
    if !(r == r0 && c == c0) && Covers(highResolution, x, y, |sprite|, r, c) {
      var k', j' := SpriteRowAt(highResolution, y, r), SpriteColumnAt(highResolution, x, c);
      CameFrom(highResolution, x, y, r, c);
      if Step(k', j') == Step(k, j) {
        StepsDistinct(k, j, k', j');
        assert false;
      }
    }
  }

  /** Once every pixel is drawn, `Drawn` is `Blit`. */
  lemma DrawnAll(s: Screen, highResolution: bool, x: nat, y: nat, sprite: seq<Byte>, r: nat, c: nat)
    requires r < DisplayHeight && c < DisplayWidth
    ensures Drawn(s, highResolution, x, y, sprite, Step(|sprite|, 0), r, c)
      == Blit(s, highResolution, x, y, sprite)[r][c]
  {
    var k, j := SpriteRowAt(highResolution, y, r), SpriteColumnAt(highResolution, x, c);
    if k < |sprite| && j < PixelsPerByte {
      assert Step(k, j) < Step(|sprite|, 0) by {
        assert k * PixelsPerByte <= (|sprite| - 1) * PixelsPerByte;
      }
    }
  }

  /** The erased flag at the end of the drawing loop is `Erases`. */
  lemma ErasedAll(s: Screen, highResolution: bool, x: nat, y: nat, sprite: seq<Byte>)
    ensures ErasedSoFar(s, highResolution, x, y, sprite, Step(|sprite|, 0))
      == Erases(s, highResolution, x, y, sprite)
  {
    if Erases(s, highResolution, x, y, sprite) {
      var k, j :| 0 <= k < |sprite| && 0 <= j < PixelsPerByte
        && SpritePixel(sprite, k, j) == 1 && s[RowOf(highResolution, y, k)][ColumnOf(highResolution, x, j)] == 1;
      assert Step(k, j) < Step(|sprite|, 0) by {
        assert k * PixelsPerByte <= (|sprite| - 1) * PixelsPerByte;
      }
    }
  }

  // ---------------------------------------------------------------------
  // Properties of drawing

  /** Drawing the same sprite at the same place twice restores the screen. */
  lemma DrawTwiceRestores(s: Screen, highResolution: bool, x: nat, y: nat, sprite: seq<Byte>)
    ensures Blit(Blit(s, highResolution, x, y, sprite), highResolution, x, y, sprite) == s
  {
    var s' := Blit(Blit(s, highResolution, x, y, sprite), highResolution, x, y, sprite);
    forall r | 0 <= r < DisplayHeight
      ensures s'[r] == s[r]
    {
      forall c | 0 <= c < DisplayWidth
        ensures s'[r][c] == s[r][c]
      {
        if Covers(highResolution, x, y, |sprite|, r, c) {
          XorByteTwice(s[r][c], SpritePixel(sprite, SpriteRowAt(highResolution, y, r),
                                                    SpriteColumnAt(highResolution, x, c)));
        }
      }
    }
  }

  /** Nothing is lit on a blank screen, so nothing is erased. */
  lemma BlankErasesNothing(highResolution: bool, x: nat, y: nat, sprite: seq<Byte>)
    ensures !Erases(Blank(), highResolution, x, y, sprite)
  {
  }

  /** Every cell holds 0 or 1. */
  ghost predicate Monochrome(s: Screen)
  {
    forall r, c | 0 <= r < DisplayHeight && 0 <= c < DisplayWidth :: s[r][c] <= 1
  }

  /** Drawing keeps every cell at 0 or 1. */
  lemma DrawKeepsMonochrome(s: Screen, highResolution: bool, x: nat, y: nat, sprite: seq<Byte>)
    requires Monochrome(s)
    ensures Monochrome(Blit(s, highResolution, x, y, sprite))
  {
    forall r, c | 0 <= r < DisplayHeight && 0 <= c < DisplayWidth
      ensures Blit(s, highResolution, x, y, sprite)[r][c] <= 1
    {
      if Covers(highResolution, x, y, |sprite|, r, c) {
        XorOfBits(s[r][c], SpritePixel(sprite, SpriteRowAt(highResolution, y, r),
                                               SpriteColumnAt(highResolution, x, c)));
      }
    }
  }

  /** On a blank screen a sprite shows exactly its own pixels, each where it
      lands. */
  lemma DrawOnBlank(highResolution: bool, x: nat, y: nat, sprite: seq<Byte>, k: nat, j: nat)
    requires |sprite| <= MaxSpriteBytes && k < |sprite| && j < PixelsPerByte
    ensures Blit(Blank(), highResolution, x, y, sprite)[RowOf(highResolution, y, k)][ColumnOf(highResolution, x, j)]
      == SpritePixel(sprite, k, j)
  {
    LandsOn(highResolution, x, y, k, j);
    XorOfBits(0, SpritePixel(sprite, k, j));
  }

  /** A sprite drawn over itself on a blank screen erases a pixel exactly
      when one of its bytes is non-zero. */
  lemma RedrawErasesIffVisible(highResolution: bool, x: nat, y: nat, sprite: seq<Byte>)
    requires |sprite| <= MaxSpriteBytes
    ensures Erases(Blit(Blank(), highResolution, x, y, sprite), highResolution, x, y, sprite)
      <==> exists k | 0 <= k < |sprite| :: sprite[k] != 0
  {
    if exists k | 0 <= k < |sprite| :: sprite[k] != 0 {
      var k :| 0 <= k < |sprite| && sprite[k] != 0;
      RedrawErasesVisibleRow(highResolution, x, y, sprite, k);
    }
    if Erases(Blit(Blank(), highResolution, x, y, sprite), highResolution, x, y, sprite) {
      RedrawErasesOnlyVisible(highResolution, x, y, sprite);
    }
  }

  lemma RedrawErasesVisibleRow(highResolution: bool, x: nat, y: nat, sprite: seq<Byte>, k: nat)
    requires |sprite| <= MaxSpriteBytes && k < |sprite| && sprite[k] != 0
    ensures Erases(Blit(Blank(), highResolution, x, y, sprite), highResolution, x, y, sprite)
  {
    var s := Blit(Blank(), highResolution, x, y, sprite);
    assert Pow2(PixelsPerByte) == 0x100;
    var b := NonZeroHasSetBit(sprite[k], PixelsPerByte);
    var j := PixelsPerByte - b - 1;
    DrawOnBlank(highResolution, x, y, sprite, k, j);
    assert SpritePixel(sprite, k, j) == 1;
    assert s[RowOf(highResolution, y, k)][ColumnOf(highResolution, x, j)] == 1;
  }

  lemma RedrawErasesOnlyVisible(highResolution: bool, x: nat, y: nat, sprite: seq<Byte>)
    requires Erases(Blit(Blank(), highResolution, x, y, sprite), highResolution, x, y, sprite)
    ensures exists k | 0 <= k < |sprite| :: sprite[k] != 0
  {
    var s := Blit(Blank(), highResolution, x, y, sprite);
    var k, j :| 0 <= k < |sprite| && 0 <= j < PixelsPerByte
      && SpritePixel(sprite, k, j) == 1 && s[RowOf(highResolution, y, k)][ColumnOf(highResolution, x, j)] == 1;
    if sprite[k] == 0 {
      ZeroHasNoSetBit(PixelsPerByte - j - 1);
    }
  }

  /** Two sprite rows drawn at the origin of a blank screen: `0xFF` lights
      eight pixels, `0x1F` the last five of eight, and nothing is erased. */
  lemma DrawExample(sprite: seq<Byte>)
    requires sprite == [0xFF, 0x1F]
    ensures Blit(Blank(), false, 0, 0, sprite)[0][..8] == [1, 1, 1, 1, 1, 1, 1, 1]
    ensures Blit(Blank(), false, 0, 0, sprite)[1][..8] == [0, 0, 0, 1, 1, 1, 1, 1]
    ensures !Erases(Blank(), false, 0, 0, sprite)
  {
    var s := Blit(Blank(), false, 0, 0, sprite);
    assert Pow2(8) - 1 == 0xFF && Pow2(5) - 1 == 0x1F;
    forall j | 0 <= j < PixelsPerByte
      ensures s[0][j] == 1 && s[1][j] == if j < 3 then 0 else 1
    {
      BitOfLowMask(8, PixelsPerByte - j - 1);
      BitOfLowMask(5, PixelsPerByte - j - 1);
      DrawOnBlank(false, 0, 0, sprite, 0, j);
      DrawOnBlank(false, 0, 0, sprite, 1, j);
      assert RowOf(false, 0, 0) == 0 && RowOf(false, 0, 1) == 1 && ColumnOf(false, 0, j) == j;
    }
    assert s[0][..8] == [1, 1, 1, 1, 1, 1, 1, 1];
    assert s[1][..8] == [0, 0, 0, 1, 1, 1, 1, 1];
  }

  // ---------------------------------------------------------------------
  // The buffer shape as declared

  /** The buffer is declared with `DISPLAY_WIDTH` outer arrays of
      `DISPLAY_HEIGHT` cells and indexed `[y][x]`, so a cell is in bounds
      only when its column is below 64. */
  predicate InDeclaredBuffer(r: nat, c: nat)
  {
    r < DisplayWidth && c < DisplayHeight
  }

  /** In high resolution a sprite at column 64 lands outside the buffer as
      declared, within the visible width. */
  lemma HighResolutionDrawLeavesDeclaredBuffer()
    ensures ColumnOf(true, 64, 0) < Width(true)
    ensures !InDeclaredBuffer(RowOf(true, 0, 0), ColumnOf(true, 64, 0))
  {
  }

  /** Every cell a draw touches lies in the 64 x 128 buffer this model uses. */
  lemma DrawStaysInBuffer(highResolution: bool, x: nat, y: nat, k: nat, j: nat)
    ensures RowOf(highResolution, y, k) < DisplayHeight
    ensures ColumnOf(highResolution, x, j) < DisplayWidth
  {
  }

  // ---------------------------------------------------------------------
  // The display component

  class Display {
    const data: array2<Byte>
    var highResolution: bool

    ghost predicate Valid()
    {
      data.Length0 == DisplayHeight && data.Length1 == DisplayWidth
    }

    /** The frame buffer as a value. */
    ghost function Grid(): Screen
      reads data
      requires Valid()
    {
      seq(DisplayHeight, r requires 0 <= r < DisplayHeight reads data =>
        seq(DisplayWidth, c requires 0 <= c < DisplayWidth reads data => data[r, c]))
    }

    /** The buffer holds `t` cell for cell. */
    lemma GridEquals(t: Screen)
      requires Valid()
      requires forall r, c | 0 <= r < DisplayHeight && 0 <= c < DisplayWidth :: data[r, c] == t[r][c]
      ensures Grid() == t
    {
      forall r | 0 <= r < DisplayHeight
        ensures Grid()[r] == t[r]
      {
      }
    }

    /** A blank screen in low resolution. */
    constructor ()
      ensures Valid() && fresh(data)
      ensures Grid() == Blank() && !highResolution
    {
      data := new Byte[DisplayHeight, DisplayWidth]((_, _) => 0);
      highResolution := false;
      new;
      GridEquals(Blank());
    }

    /** Blanks the whole buffer, whatever the resolution. */
    method Clear()
      requires Valid()
      modifies data
      ensures Grid() == Blank()
    {
      forall r, c | 0 <= r < DisplayHeight && 0 <= c < DisplayWidth {
        data[r, c] := 0;
      }
      GridEquals(Blank());
    }

    /** `draw(x, y, size_bytes, sprite_data)`: XORs the sprite onto the
        buffer and reports whether a lit pixel was turned off. */
    method Draw(x: nat, y: nat, size: nat, sprite: seq<Byte>) returns (erased: bool)
      requires Valid() && |sprite| == size && size <= MaxSpriteBytes
      modifies data
      ensures Grid() == Blit(old(Grid()), highResolution, x, y, sprite)
      ensures erased == Erases(old(Grid()), highResolution, x, y, sprite)
    {
      ghost var s := Grid();
      erased := false;
      var row := 0;
      while row < size
        invariant row <= size
        invariant forall r, c | 0 <= r < DisplayHeight && 0 <= c < DisplayWidth ::
          data[r, c] == Drawn(s, highResolution, x, y, sprite, Step(row, 0), r, c)
        invariant erased == ErasedSoFar(s, highResolution, x, y, sprite, Step(row, 0))
      {
        var column := 0;
        while column < PixelsPerByte
          invariant column <= PixelsPerByte
          invariant forall r, c | 0 <= r < DisplayHeight && 0 <= c < DisplayWidth ::
            data[r, c] == Drawn(s, highResolution, x, y, sprite, Step(row, column), r, c)
          invariant erased == ErasedSoFar(s, highResolution, x, y, sprite, Step(row, column))
        {
          var hit := DrawCell(s, x, y, sprite, row, column);
          if hit {
            erased := true;
          }
          column := column + 1;
        }
        row := row + 1;
      }
      forall r, c | 0 <= r < DisplayHeight && 0 <= c < DisplayWidth
        ensures data[r, c] == Blit(s, highResolution, x, y, sprite)[r][c]
      {
        DrawnAll(s, highResolution, x, y, sprite, r, c);
      }
      GridEquals(Blit(s, highResolution, x, y, sprite));
      ErasedAll(s, highResolution, x, y, sprite);
    }

    /** One pass of the inner loop of `draw`: the pixel's cell is XOR-ed. */
    method DrawCell(ghost s: Screen, x: nat, y: nat, sprite: seq<Byte>, row: nat, column: nat)
      returns (hit: bool)
      requires Valid() && |sprite| <= MaxSpriteBytes && row < |sprite| && column < PixelsPerByte
      requires forall r, c | 0 <= r < DisplayHeight && 0 <= c < DisplayWidth ::
        data[r, c] == Drawn(s, highResolution, x, y, sprite, Step(row, column), r, c)
      modifies data
      ensures forall r, c | 0 <= r < DisplayHeight && 0 <= c < DisplayWidth ::
        data[r, c] == Drawn(s, highResolution, x, y, sprite, Step(row, column) + 1, r, c)
      ensures ErasedSoFar(s, highResolution, x, y, sprite, Step(row, column) + 1)
        == (ErasedSoFar(s, highResolution, x, y, sprite, Step(row, column)) || hit)
    {
      var pixel := SpritePixel(sprite, row, column);
      var yc, xc := (y + row) % Height(highResolution), (x + column) % Width(highResolution);
      DrawnStep(s, highResolution, x, y, sprite, row, column, yc, xc);
      hit := data[yc, xc] == 1 && pixel == 1;
      data[yc, xc] := XorByte(data[yc, xc], pixel);
      forall r, c | 0 <= r < DisplayHeight && 0 <= c < DisplayWidth
        ensures data[r, c] == Drawn(s, highResolution, x, y, sprite, Step(row, column) + 1, r, c)
      {
        DrawnStep(s, highResolution, x, y, sprite, row, column, r, c);
      }
      ErasedStep(s, x, y, sprite, row, column);
    }

    lemma ErasedStep(s: Screen, x: nat, y: nat, sprite: seq<Byte>, row: nat, column: nat)
      requires row < |sprite| && column < PixelsPerByte
      ensures ErasedSoFar(s, highResolution, x, y, sprite, Step(row, column) + 1)
        == (ErasedSoFar(s, highResolution, x, y, sprite, Step(row, column))
            || (s[RowOf(highResolution, y, row)][ColumnOf(highResolution, x, column)] == 1
                && SpritePixel(sprite, row, column) == 1))
    {
      if ErasedSoFar(s, highResolution, x, y, sprite, Step(row, column) + 1) {
        var k, j :| 0 <= k < |sprite| && 0 <= j < PixelsPerByte && Step(k, j) < Step(row, column) + 1
          && SpritePixel(sprite, k, j) == 1 && s[RowOf(highResolution, y, k)][ColumnOf(highResolution, x, j)] == 1;
        if Step(k, j) == Step(row, column) {
          StepsDistinct(k, j, row, column);
        }
      }
    }
  }
}
