/**
 * The XFig 3.2 back-end of lstopo: colour-index allocation
 * (`fig_declare_color`) and the integer geometry of the box, line and
 * text records (`fig_box`, `fig_line`, `fig_text`). Coordinates are
 * `unsigned` (32-bit, wrapping) and are scaled by `FIG_FACTOR` = 20.
 */
module LstopoFig {

  /** The number of values of a C `unsigned`. */
  const U32: int := 0x1_0000_0000

  type u32 = x: int | 0 <= x < 0x1_0000_0000

  /** `FIG_FACTOR`: figure units per lstopo unit. */
  const FigFactor: int := 20

  /** The XFig colour numbers of white and black, and the first user colour number. */
  const White: int := 7
  const Black: int := 0
  const FirstUserColor: int := 32

  /** Unsigned multiplication and addition, reduced modulo 2^32. */
  function Mul(a: u32, b: u32): u32 { (a * b) % U32 }
  function Add(a: u32, b: u32): u32 { (a + b) % U32 }

  /** `v *= FIG_FACTOR` on an `unsigned`. */
  function Scale(v: u32): u32 { Mul(v, FigFactor) }

  /** C's `/` on `int`: the quotient truncated toward zero. */
  function CDiv(a: int, b: int): (q: int)
    requires b > 0
    ensures a >= 0 ==> 0 <= q && q * b <= a < q * b + b
    ensures a < 0 ==> q <= 0 && q * b - b < a <= q * b
  {
    var n := if a >= 0 then a else -a;
    var d := n / b;
    assert n == d * b + n % b && 0 <= n % b < b;
    if a >= 0 then d else -d
  }

  /** The number of UTF-8 bytes that encode `c`. */
  function Utf8Width(c: char): (w: nat)
    ensures 1 <= w <= 4
    ensures w == 1 <==> (c as int) < 0x80
  {
    if (c as int) < 0x80 then 1
    else if (c as int) < 0x800 then 2
    else if (c as int) < 0x1_0000 then 3
    else 4
  }

  /** `strlen` of the UTF-8 encoding of `s`: its length in bytes. */
  function StrLen(s: string): (n: nat)
    ensures |s| <= n <= 4 * |s|
  {
    if s == [] then 0 else StrLen(s[..|s| - 1]) + Utf8Width(s[|s| - 1])
  }

  /** `strlen` counts characters exactly when every character is ASCII, and a non-ASCII one makes it count more. */
  lemma {:induction false} StrLenAscii(s: string)
    ensures StrLen(s) == |s| <==> forall k :: 0 <= k < |s| ==> (s[k] as int) < 0x80
  {
    if s != [] {
      var init := s[..|s| - 1];
      StrLenAscii(init);
      assert forall k :: 0 <= k < |init| ==> init[k] == s[k];
      if StrLen(s) == |s| {
        assert StrLen(init) == |init|;
      }
    }
  }

  datatype Point = Point(x: u32, y: u32)

  /** The records the back-end writes. Polylines are boxes (sub-type 2) or lines (sub-type 1). */
  datatype FigRecord =
    | ColorDef(index: int, r: int, g: int, b: int)
    | Polyline(subType: int, color: int, depth: u32, areaFill: int, points: seq<Point>)
    | Text(color: int, depth: u32, fontSize: int, height: int, length: int, x: u32, y: u32, text: string)

  predicate IsWhite(r: int, g: int, b: int) { r == 0xff && g == 0xff && b == 0xff }
  predicate IsBlack(r: int, g: int, b: int) { r == 0 && g == 0 && b == 0 }

  /** What one declaration yields: the colour's index, the next counter value, and the records written. */
  datatype Declaration = Declaration(index: int, counter: int, emitted: seq<FigRecord>)

  /** `fig_declare_color` with the counter at `counter`. */
  function Declare(r: int, g: int, b: int, counter: int): Declaration
  {
    if IsWhite(r, g, b) then Declaration(White, counter, [])
    else if IsBlack(r, g, b) then Declaration(Black, counter, [])
    else Declaration(counter, counter + 1, [ColorDef(counter, r, g, b)])
  }

  /**
   * White is 7 and black is 0, neither consuming a number nor writing a
   * definition; every other colour takes the counter, which moves on by
   * one, and is defined by exactly one record carrying its index and RGB.
   */
  lemma DeclareCases(r: int, g: int, b: int, counter: int)
    requires counter >= FirstUserColor
    ensures var d := Declare(r, g, b, counter);
      && (d.index == White <==> IsWhite(r, g, b))
      && (d.index == Black <==> IsBlack(r, g, b))
      && (d.counter == counter <==> IsWhite(r, g, b) || IsBlack(r, g, b))
      && (d.emitted != [] <==> d.index >= FirstUserColor)
      && (d.emitted != [] ==> d.emitted == [ColorDef(d.index, r, g, b)] && d.counter == counter + 1)
  {
  }

  /** The indexes a sequence of declarations receives, starting from `counter`, and the counter after them. */
  function DeclareAll(colors: seq<(int, int, int)>, counter: int): (r: (seq<int>, int))
    ensures |r.0| == |colors|
    decreases |colors|
  {
    if colors == [] then ([], counter)
    else
      var prev := DeclareAll(colors[..|colors| - 1], counter);
      var c := colors[|colors| - 1];
      var d := Declare(c.0, c.1, c.2, prev.1);
      (prev.0 + [d.index], d.counter)
  }

  /**
   * Over any sequence of declarations from the initial counter, the
   * counter never goes back, and every colour other than white and
   * black gets its own number at or above 32, below the counter reached.
   */
  lemma {:induction false} DeclaredIndexesDistinct(colors: seq<(int, int, int)>, counter: int)
    requires counter >= FirstUserColor
    ensures var r := DeclareAll(colors, counter);
      && counter <= r.1
      && (forall k :: 0 <= k < |colors| && !IsWhite(colors[k].0, colors[k].1, colors[k].2) && !IsBlack(colors[k].0, colors[k].1, colors[k].2)
            ==> counter <= r.0[k] < r.1)
      && (forall k :: 0 <= k < |colors| ==> r.0[k] in {White, Black} || counter <= r.0[k] < r.1)
      && (forall k, m :: 0 <= k < m < |colors| && r.0[k] >= FirstUserColor ==> r.0[k] != r.0[m])
    decreases |colors|
  {
    if colors != [] {
      var init := colors[..|colors| - 1];
      DeclaredIndexesDistinct(init, counter);
      var prev := DeclareAll(init, counter);
      var r := DeclareAll(colors, counter);
      assert r.0[..|colors| - 1] == prev.0;
      forall k | 0 <= k < |colors| - 1
        ensures r.0[k] == prev.0[k] && colors[k] == init[k]
      {
      }
    }
  }

  /** The colour of an lstopo palette entry and its XFig number, once declared. */
  class Color {
    const r: int
    const g: int
    const b: int
    var figColor: int

    constructor (r: int, g: int, b: int)
      ensures this.r == r && this.g == g && this.b == b && figColor == 0
    {
      this.r, this.g, this.b := r, g, b;
      figColor := 0;
    }
  }

  /**
   * One export's view of the back-end: the value of the process-wide
   * `fig_color_index` counter and the records written to this file so far.
   */
  class FigOutput {
    var colorIndex: int
    var records: seq<FigRecord>

    /**
     * Starts an export with the counter where the process left it:
     * `FirstUserColor` before the first export, the previous export's
     * final `colorIndex` after that. Nothing is written yet.
     */
    constructor (counter: int)
      ensures colorIndex == counter && records == []
    {
      colorIndex := counter;
      records := [];
    }

    /** `fig_declare_color`. */
    method DeclareColor(c: Color)
      modifies this, c
      ensures var d := Declare(c.r, c.g, c.b, old(colorIndex));
        c.figColor == d.index && colorIndex == d.counter && records == old(records) + d.emitted
    {
      var r, g, b := c.r, c.g, c.b;
      if r == 0xff && g == 0xff && b == 0xff {
        c.figColor := 7;
        return;
      } else if r == 0 && g == 0 && b == 0 {
        c.figColor := 0;
        return;
      } else {
        c.figColor := colorIndex;
        colorIndex := colorIndex + 1;
      }
      records := records + [ColorDef(c.figColor, r, g, b)];
    }

    /** `fig_box`. */
    method Box(c: Color, depth: u32, x: u32, width: u32, y: u32, height: u32)
      modifies this
      ensures colorIndex == old(colorIndex)
      ensures records == old(records) + BoxRecord(c.figColor, depth, x, width, y, height)
    {
      if width == 0 || height == 0 {
        return;
      }
      var x', y', w', h' := Scale(x), Scale(y), Scale(width), Scale(height);
      var pts := [Point(x', y'), Point(Add(x', w'), y'), Point(Add(x', w'), Add(y', h')), Point(x', Add(y', h')), Point(x', y')];
      records := records + [Polyline(2, c.figColor, depth, 20, pts)];
    }

    /** `fig_line`. */
    method Line(c: Color, depth: u32, x1: u32, y1: u32, x2: u32, y2: u32)
      modifies this
      ensures colorIndex == old(colorIndex)
      ensures records == old(records) + [LineRecord(c.figColor, depth, x1, y1, x2, y2)]
    {
      records := records + [Polyline(1, c.figColor, depth, -1, [Point(Scale(x1), Scale(y1)), Point(Scale(x2), Scale(y2))])];
    }

    /** `fig_text`. */
    method Text(c: Color, size: int, depth: u32, x: u32, y: u32, text: string)
      modifies this
      ensures colorIndex == old(colorIndex)
      ensures records == old(records) + [TextRecord(c.figColor, size, depth, x, y, text)]
    {
      var color := c.figColor;
      var x', y' := Scale(x), Scale(y);
      var size' := CDiv(size * 16, 10);
      records := records + [FigRecord.Text(color, depth, size', size' * 10, StrLen(text) * size' * 10, x', (y' + size' * 10) % U32, text)];
    }
  }

  /** The record `fig_box` writes: none for an empty box, else a closed five-point polyline. */
  function BoxRecord(color: int, depth: u32, x: u32, width: u32, y: u32, height: u32): seq<FigRecord>
  {
    if width == 0 || height == 0 then []
    else
      var x', y', w', h' := Scale(x), Scale(y), Scale(width), Scale(height);
      [Polyline(2, color, depth, 20,
         [Point(x', y'), Point(Add(x', w'), y'), Point(Add(x', w'), Add(y', h')), Point(x', Add(y', h')), Point(x', y')])]
  }

  /** The record `fig_line` writes. */
  function LineRecord(color: int, depth: u32, x1: u32, y1: u32, x2: u32, y2: u32): FigRecord
  {
    Polyline(1, color, depth, -1, [Point(Scale(x1), Scale(y1)), Point(Scale(x2), Scale(y2))])
  }

  /** The record `fig_text` writes. */
  function TextRecord(color: int, size: int, depth: u32, x: u32, y: u32, text: string): FigRecord
  {
    var size' := CDiv(size * 16, 10);
    FigRecord.Text(color, depth, size', size' * 10, StrLen(text) * size' * 10, Scale(x), (Scale(y) + size' * 10) % U32, text)
  }

  /**
   * A box with a zero side writes nothing; any other box is one closed
   * polyline of five points, in the declared colour and depth. When the
   * far corner fits in 32 bits, the points go round the rectangle
   * [20x, 20(x+w)] x [20y, 20(y+h)] clockwise from its origin corner,
   * each edge parallel to an axis.
   */
  lemma BoxIsClosedRectangle(color: int, depth: u32, x: u32, width: u32, y: u32, height: u32)
    ensures width == 0 || height == 0 <==> BoxRecord(color, depth, x, width, y, height) == []
    ensures width != 0 && height != 0 ==>
      var rs := BoxRecord(color, depth, x, width, y, height);
      && |rs| == 1 && rs[0].Polyline? && rs[0].subType == 2
      && rs[0].color == color && rs[0].depth == depth
      && |rs[0].points| == 5 && rs[0].points[0] == rs[0].points[4]
      && ((x + width) * FigFactor < U32 && (y + height) * FigFactor < U32 ==>
            var p := rs[0].points;
            var x0, x1, y0, y1 := FigFactor * x, FigFactor * (x + width), FigFactor * y, FigFactor * (y + height);
            && p[0] == Point(x0, y0) && p[1] == Point(x1, y0) && p[2] == Point(x1, y1) && p[3] == Point(x0, y1)
            && x0 < x1 && y0 < y1
            && (forall k :: 0 <= k < 4 ==> (p[k].x == p[k + 1].x) != (p[k].y == p[k + 1].y)))
  {
    if width != 0 && height != 0 && (x + width) * FigFactor < U32 && (y + height) * FigFactor < U32 {
      assert Scale(x) == FigFactor * x && Scale(width) == FigFactor * width;
      assert Scale(y) == FigFactor * y && Scale(height) == FigFactor * height;
    }
  }

  /** Scaling wraps: a coordinate of 2^32 / 20 or more comes out reduced modulo 2^32. */
  lemma ScaleWraps()
    ensures Scale(214748365) == 4
    ensures forall v: u32 :: v * FigFactor < U32 ==> Scale(v) == v * FigFactor
  {
  }

  /** A line is exactly its two scaled end points, in the declared colour and depth. */
  lemma LineHasTwoPoints(color: int, depth: u32, x1: u32, y1: u32, x2: u32, y2: u32)
    requires x1 * FigFactor < U32 && y1 * FigFactor < U32 && x2 * FigFactor < U32 && y2 * FigFactor < U32
    ensures var l := LineRecord(color, depth, x1, y1, x2, y2);
      && l.subType == 1 && l.color == color && l.depth == depth
      && l.points == [Point(FigFactor * x1, FigFactor * y1), Point(FigFactor * x2, FigFactor * y2)]
  {
    ScaleWraps();
  }

  /**
   * The font size is 1.6 times the requested size, truncated toward zero;
   * the height is ten times the font size, the length is the height times
   * the number of bytes of the text (its number of characters when it is
   * ASCII), and the baseline sits one height below the
   * scaled top (when that fits in 32 bits).
   */
  lemma TextGeometry(color: int, size: int, depth: u32, x: u32, y: u32, text: string)
    ensures var t := TextRecord(color, size, depth, x, y, text);
      && t.color == color && t.depth == depth && t.text == text
      && (size >= 0 ==> 10 * t.fontSize <= 16 * size < 10 * (t.fontSize + 1))
      && (size < 0 ==> 10 * (t.fontSize - 1) < 16 * size <= 10 * t.fontSize)
      && t.height == 10 * t.fontSize
      && t.length == StrLen(text) * t.height
      && ((forall k :: 0 <= k < |text| ==> (text[k] as int) < 0x80) ==> t.length == |text| * t.height)
      && (y * FigFactor + t.height < U32 && t.height >= 0 ==> t.y == FigFactor * y + t.height)
  {
    var t := TextRecord(color, size, depth, x, y, text);
    var f := CDiv(size * 16, 10);
    assert t.fontSize == f && t.height == f * 10;
    TimesTen(StrLen(text), f);
    StrLenAscii(text);
    if y * FigFactor + t.height < U32 && t.height >= 0 {
      ScaleWraps();
    }
  }

  lemma TimesTen(n: int, f: int)
    ensures n * f * 10 == n * (f * 10)
  {
    assert n * f * 10 == n * f + n * f + n * f + n * f + n * f + n * f + n * f + n * f + n * f + n * f;
  }

  /** The font size truncates like C: size -1 gives font size -1, not -2. */
  lemma TextSizeTruncatesTowardZero()
    ensures TextRecord(0, -1, 0, 0, 0, "").fontSize == -1
    ensures TextRecord(0, 10, 0, 0, 0, "").fontSize == 16
    ensures TextRecord(0, 7, 0, 0, 0, "").fontSize == 11
  {
  }

  /** A two-character label with one two-byte character is three bytes long: `é` counts twice. */
  lemma NonAsciiLabelLength()
    ensures TextRecord(0, 10, 0, 0, 0, [0xe9 as char, 'x']).length == 3 * 160
  {
    var s := [0xe9 as char, 'x'];
    assert s[..1] == [0xe9 as char] && [0xe9 as char][..0] == [];
    assert StrLen(s) == 3;
    assert CDiv(160, 10) == 16;
  }
}
