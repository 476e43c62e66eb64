/**
 Rendering an image as lines of characters: every output cell averages the luminance of the
 box of pixels it covers. Luminance is computed over the reals.
 */
module AsciiArt {
  /** Components as an image reports them, scaled to sixteen bits. */
  newtype Component = c: int | 0 <= c <= 65535

  datatype Pixel = Pixel(r: Component, g: Component, b: Component)

  datatype Image = Image(minX: int, minY: int, width: int, height: int, at: (int, int) -> Pixel)

  const RAMP := " .:-=+*#%@"

  const ROW_ASPECT := 0.5

  // ---- Cutting a length into boxes ----

  /** Where box `i` of `n` starts. */
  function Cut(i: nat, n: nat, size: nat): nat
    requires n > 0
  {
    i * size / n
  }

  /** Where box `i` ends: one further on if it would be empty. */
  function BoxEnd(i: nat, n: nat, size: nat): nat
    requires n > 0
  {
    if Cut(i + 1, n, size) <= Cut(i, n, size) then Cut(i, n, size) + 1 else Cut(i + 1, n, size)
  }

  predicate InBox(p: int, i: nat, n: nat, size: nat)
    requires n > 0
  {
    Cut(i, n, size) <= p < BoxEnd(i, n, size)
  }

  lemma MulOrder(a: int, b: int, n: nat)
    requires a <= b
    ensures a * n <= b * n
  {
    assert (b - a) * n >= 0;
    assert (b - a) * n == b * n - a * n;
  }

  lemma QuotientAtLeast(q: int, a: nat, n: nat)
    requires n > 0 && q * n <= a
    ensures q <= a / n
  {
    assert a < (a / n + 1) * n by {
      assert (a / n + 1) * n == a / n * n + n;
    }
    if q > a / n {
      MulOrder(a / n + 1, q, n);
    }
  }

  lemma QuotientBelow(q: int, a: nat, n: nat)
    requires n > 0 && a < q * n
    ensures a / n < q
  {
    if a / n >= q {
      MulOrder(q, a / n, n);
    }
  }

  lemma QuotientTimes(a: nat, n: nat)
    requires n > 0
    ensures a / n * n <= a
  {}

  /** One more step of at least `n` raises the quotient by one; any step keeps it. */
  lemma QuotientStep(a: nat, step: nat, n: nat)
    requires n > 0
    ensures a / n <= (a + step) / n
    ensures n <= step ==> a / n + 1 <= (a + step) / n
  {
    QuotientTimes(a, n);
    QuotientAtLeast(a / n, a + step, n);
    if n <= step {
      assert (a / n + 1) * n == a / n * n + n;
      QuotientAtLeast(a / n + 1, a + step, n);
    }
  }

  lemma QuotientOfProduct(n: nat, size: nat)
    requires n > 0
    ensures n * size / n == size
  {
    QuotientAtLeast(size, n * size, n);
    assert n * size < (size + 1) * n by {
      assert (size + 1) * n == n * size + n;
    }
    QuotientBelow(size + 1, n * size, n);
  }

  /** The cuts start at nothing, never go back, and end at everything. */
  lemma CutsAdvance(i: nat, n: nat, size: nat)
    requires n > 0
    ensures Cut(0, n, size) == 0 && Cut(n, n, size) == size
    ensures Cut(i, n, size) <= Cut(i + 1, n, size)
    ensures n <= size ==> Cut(i, n, size) < Cut(i + 1, n, size)
  {
    assert (i + 1) * size == i * size + size;
    QuotientStep(i * size, size, n);
    QuotientOfProduct(n, size);
    assert 0 * size == 0;
  }

  lemma {:induction false} CutsMonotone(i: nat, j: nat, n: nat, size: nat)
    requires n > 0 && i <= j
    ensures Cut(i, n, size) <= Cut(j, n, size)
    decreases j - i
  {
    if i < j {
      CutsAdvance(i, n, size);
      CutsMonotone(i + 1, j, n, size);
    }
  }

  /** Every box has something in it and lies within the length, whatever the number of boxes. */
  lemma BoxesWithin(i: nat, n: nat, size: nat)
    requires i < n && size > 0
    ensures 0 <= Cut(i, n, size) < BoxEnd(i, n, size) <= size
  {
    CutsMonotone(i + 1, n, n, size);
    CutsAdvance(0, n, size);
    assert i * size < size * n by {
      MulOrder(i + 1, n, size);
      assert (i + 1) * size == i * size + size;
    }
    QuotientBelow(size, i * size, n);
  }

  predicate Covered(p: int, n: nat, size: nat)
    requires n > 0
  {
    exists i: nat :: i < n && InBox(p, i, n, size)
  }

  /** Every point lies in exactly one box. */
  ghost predicate Tiles(n: nat, size: nat)
    requires n > 0
  {
    && (forall p :: 0 <= p < size ==> Covered(p, n, size))
    && forall p, i: nat, j: nat :: i < n && j < n && InBox(p, i, n, size) && InBox(p, j, n, size) ==> i == j
  }

  lemma {:induction false} BoxOf(p: nat, k: nat, n: nat, size: nat) returns (i: nat)
    requires 0 < n <= size && k <= n && p < Cut(k, n, size)
    ensures i < k && InBox(p, i, n, size)
    decreases k
  {
    CutsAdvance(0, n, size);
    CutsAdvance(k - 1, n, size);
    if Cut(k - 1, n, size) <= p {
      i := k - 1;
    } else {
      i := BoxOf(p, k - 1, n, size);
    }
  }

  lemma BoxesApart(p: int, i: nat, j: nat, n: nat, size: nat)
    requires 0 < n <= size && i < j && InBox(p, i, n, size)
    ensures !InBox(p, j, n, size)
  {
    CutsAdvance(i, n, size);
    CutsMonotone(i + 1, j, n, size);
  }

  /** The boxes tile the length exactly if there are no more of them than there are points. */
  lemma TilesExactlyWhenNoMore(n: nat, size: nat)
    requires n > 0 && size > 0
    ensures Tiles(n, size) <==> n <= size
  {
    if n <= size {
      CutsAdvance(0, n, size);
      forall p | 0 <= p < size
        ensures Covered(p, n, size)
      {
        var i := BoxOf(p, n, n, size);
      }
      forall p, i: nat, j: nat | i < n && j < n && InBox(p, i, n, size) && InBox(p, j, n, size)
        ensures i == j
      {
        if i < j {
          BoxesApart(p, i, j, n, size);
        } else if j < i {
          BoxesApart(p, j, i, n, size);
        }
      }
    } else {
      var i := Standstill(n, n, size);
      BoxesWithin(i, n, size);
      CutsAdvance(0, n, size);
      assert i + 1 < n;
      CutsAdvance(i + 1, n, size);
      assert InBox(Cut(i, n, size), i, n, size) && InBox(Cut(i, n, size), i + 1, n, size);
    }
  }

  /** More cuts than the length has room for: two coincide. */
  lemma {:induction false} Standstill(k: nat, n: nat, size: nat) returns (i: nat)
    requires n > 0 && k <= n && Cut(k, n, size) < k
    ensures i < k && Cut(i, n, size) == Cut(i + 1, n, size)
    decreases k
  {
    CutsAdvance(k - 1, n, size);
    if Cut(k - 1, n, size) == Cut(k, n, size) {
      i := k - 1;
    } else {
      i := Standstill(k - 1, n, size);
    }
  }

  // ---- Luminance ----

  function Luminance(p: Pixel): (l: real)
    ensures 0.0 <= l <= 1.0
  {
    0.299 * (p.r as real) / 65535.0 + 0.587 * (p.g as real) / 65535.0 + 0.114 * (p.b as real) / 65535.0
  }

  function Luminances(img: Image): (int, int) -> real {
    (x, y) => Luminance(img.at(x, y))
  }

  /** The sum of `f` over points `x0` to `x1` of line `y`. */
  function LineSum(f: (int, int) -> real, y: int, x0: int, x1: int): real
    requires x0 <= x1
    decreases x1 - x0
  {
    if x0 == x1 then 0.0 else LineSum(f, y, x0, x1 - 1) + f(x1 - 1, y)
  }

  /** The sum of `f` over a box of points. */
  function BoxSum(f: (int, int) -> real, x0: int, y0: int, x1: int, y1: int): real
    requires x0 <= x1 && y0 <= y1
    decreases y1 - y0
  {
    if y0 == y1 then 0.0 else BoxSum(f, x0, y0, x1, y1 - 1) + LineSum(f, y1 - 1, x0, x1)
  }

  function Area(x0: int, y0: int, x1: int, y1: int): int {
    (y1 - y0) * (x1 - x0)
  }

  lemma AreaPositive(x0: int, y0: int, x1: int, y1: int)
    requires x0 < x1 && y0 < y1
    ensures Area(x0, y0, x1, y1) > 0
  {}

  function Average(img: Image, x0: int, y0: int, x1: int, y1: int): real
    requires x0 < x1 && y0 < y1
  {
    AreaPositive(x0, y0, x1, y1);
    BoxSum(Luminances(img), x0, y0, x1, y1) / (Area(x0, y0, x1, y1) as real)
  }

  method AverageLuminance(img: Image, x0: int, y0: int, x1: int, y1: int) returns (mean: real)
    ensures x0 < x1 && y0 < y1 ==> mean == Average(img, x0, y0, x1, y1)
    ensures x0 >= x1 || y0 >= y1 ==> mean == 0.0
  {
    ghost var f := Luminances(img);
    var sum := 0.0;
    var n := 0;
    var y := y0;
    while y < y1
      invariant y0 <= y && (y0 <= y1 ==> y <= y1) && (y1 <= y0 ==> y == y0)
      invariant if x0 < x1 then sum == BoxSum(f, x0, y0, x1, y) && n == Area(x0, y0, x1, y) else n == 0
    {
      var x := x0;
      while x < x1
        invariant x0 <= x && (x0 <= x1 ==> x <= x1)
        invariant
          if x0 < x1 then sum == BoxSum(f, x0, y0, x1, y) + LineSum(f, y, x0, x) && n == Area(x0, y0, x1, y) + (x - x0)
          else n == 0
      {
        var p := img.at(x, y);
        sum := sum + (0.299 * (p.r as real) / 65535.0 + 0.587 * (p.g as real) / 65535.0
          + 0.114 * (p.b as real) / 65535.0);
        n := n + 1;
        x := x + 1;
      }
      y := y + 1;
    }
    if n == 0 { return 0.0; }
    return sum / (n as real);
  }

  // ---- Characters ----

  /** Conversion to an integer drops the fraction. */
  function Truncate(r: real): int {
    if r < 0.0 then -((-r).Floor) else r.Floor
  }

  function RampIndex(luminance: real): (i: nat)
    ensures i < |RAMP|
  {
    var i := Truncate(luminance * (|RAMP| as real));
    if i >= |RAMP| then |RAMP| - 1 else if i < 0 then 0 else i
  }

  /** Brighter is never rendered darker, and the ends of the scale are the ends of the ramp. */
  lemma RampIsMonotone(a: real, b: real)
    requires a <= b
    ensures RampIndex(a) <= RampIndex(b)
    ensures RampIndex(0.0) == 0 && RampIndex(1.0) == |RAMP| - 1
  {
    assert a * 10.0 <= b * 10.0;
    assert (0.0 * 10.0).Floor == 0 && (1.0 * 10.0).Floor == 10;
  }

  // ---- The picture ----

  /** How many lines the picture gets: half as many as would keep the pixels square, but one at least. */
  function Rows(width: nat, height: nat, cols: nat): (rows: nat)
    requires width > 0
    ensures rows >= 1
  {
    var rows := Truncate((height as real) / (width as real) * (cols as real) * ROW_ASPECT);
    if rows < 1 then 1 else rows
  }

  /** Up to twice as many columns as the image is wide, there are no more lines than the image is high. */
  lemma RowsWithinHeight(width: nat, height: nat, cols: nat)
    requires width > 0 && height > 0 && cols <= 2 * width
    ensures Rows(width, height, cols) <= height
  {
    var w, h, c := width as real, height as real, cols as real;
    assert h / w * c * ROW_ASPECT <= h by {
      assert c * ROW_ASPECT <= w;
      assert h / w * (c * ROW_ASPECT) <= h / w * w;
      assert h / w * w == h;
    }
  }

  function Cell(img: Image, cols: nat, rows: nat, row: nat, col: nat): (c: char)
    requires img.width > 0 && img.height > 0 && row < rows && col < cols
    ensures c in RAMP
  {
    BoxesWithin(row, rows, img.height);
    BoxesWithin(col, cols, img.width);
    var (x, y) := (img.minX, img.minY);
    RAMP[RampIndex(Average(img, x + Cut(col, cols, img.width), y + Cut(row, rows, img.height),
                                x + BoxEnd(col, cols, img.width), y + BoxEnd(row, rows, img.height)))]
  }

  /** The first `k` characters of a line. */
  function Line(img: Image, cols: nat, rows: nat, row: nat, k: nat): (line: string)
    requires img.width > 0 && img.height > 0 && row < rows && k <= cols
    ensures |line| == k && forall col :: 0 <= col < k ==> line[col] == Cell(img, cols, rows, row, col)
  {
    if k == 0 then "" else Line(img, cols, rows, row, k - 1) + [Cell(img, cols, rows, row, k - 1)]
  }

  /** The first `k` lines, each ended. */
  function Text(img: Image, cols: nat, rows: nat, k: nat): string
    requires img.width > 0 && img.height > 0 && k <= rows
  {
    if k == 0 then "" else Text(img, cols, rows, k - 1) + Line(img, cols, rows, k - 1, cols) + "\n"
  }

  function TrimNewlines(s: string): string {
    if s != "" && s[|s| - 1] == '\n' then TrimNewlines(s[..|s| - 1]) else s
  }

  /** Only the end of the last line is trimmed off. */
  lemma TextTrimmed(img: Image, cols: nat, rows: nat)
    requires img.width > 0 && img.height > 0 && cols > 0 && rows > 0
    ensures TrimNewlines(Text(img, cols, rows, rows)) + "\n" == Text(img, cols, rows, rows)
  {
    var text := Text(img, cols, rows, rows);
    var before := text[..|text| - 1];
    assert before == Text(img, cols, rows, rows - 1) + Line(img, cols, rows, rows - 1, cols);
    assert before[|before| - 1] == Cell(img, cols, rows, rows - 1, cols - 1);
    assert before[|before| - 1] != '\n';
    assert TrimNewlines(text) == TrimNewlines(before) == before;
  }

  /** Where box `i` starts and ends. */
  method BoxEdges(origin: int, i: nat, n: nat, size: nat) returns (lo: int, hi: int)
    requires i < n && size > 0
    ensures lo == origin + Cut(i, n, size) < hi == origin + BoxEnd(i, n, size)
  {
    lo := origin + i * size / n;
    hi := origin + (i + 1) * size / n;
    if hi <= lo { hi := lo + 1; }
  }

  /** Adds one line, a box of pixels to a character. */
  method RenderLine(img: Image, cols: nat, rows: nat, row: nat, y0: int, y1: int, text: string) returns (b: string)
    requires img.width > 0 && img.height > 0 && row < rows
    requires y0 == img.minY + Cut(row, rows, img.height) < img.minY + BoxEnd(row, rows, img.height) == y1
    ensures b == text + Line(img, cols, rows, row, cols) + "\n"
  {
    b := text;
    for col := 0 to cols
      invariant b == text + Line(img, cols, rows, row, col)
    {
      var x0, x1 := BoxEdges(img.minX, col, cols, img.width);
      var mean := AverageLuminance(img, x0, y0, x1, y1);
      assert mean == Average(img, x0, y0, x1, y1);
      assert RAMP[RampIndex(mean)] == Cell(img, cols, rows, row, col);
      b := b + [RAMP[RampIndex(mean)]];
    }
    b := b + "\n";
  }

  /** All the lines, each ended. */
  method RenderLines(img: Image, cols: nat, rows: nat) returns (b: string)
    requires img.width > 0 && img.height > 0
    ensures b == Text(img, cols, rows, rows)
  {
    b := "";
    for row := 0 to rows
      invariant b == Text(img, cols, rows, row)
    {
      var y0, y1 := BoxEdges(img.minY, row, rows, img.height);
      b := RenderLine(img, cols, rows, row, y0, y1, b);
    }
  }

  /** Exactly `rows` lines of exactly `cols` characters, or nothing for an empty image. */
  method FromImage(img: Image, columns: int) returns (art: string)
    ensures img.width <= 0 || img.height <= 0 ==> art == ""
    ensures img.width > 0 && img.height > 0 ==>
      var cols := if columns < 1 then 1 else columns;
      var rows := Rows(img.width, img.height, cols);
      art + "\n" == Text(img, cols, rows, rows)
  {
    var cols := columns;
    if cols < 1 { cols := 1; }
    if img.width <= 0 || img.height <= 0 { return ""; }
    var rows := Rows(img.width, img.height, cols);
    var b := RenderLines(img, cols, rows);
    art := TrimNewlines(b);
    TextTrimmed(img, cols, rows);
  }

  // ---- What the picture keeps ----

  lemma {:induction false} LineBetween(f: (int, int) -> real, y: int, x0: int, x1: int, low: real, high: real)
    requires x0 <= x1 && forall x :: x0 <= x < x1 ==> low <= f(x, y) <= high
    ensures low * ((x1 - x0) as real) <= LineSum(f, y, x0, x1) <= high * ((x1 - x0) as real)
    decreases x1 - x0
  {
    if x0 < x1 {
      LineBetween(f, y, x0, x1 - 1, low, high);
      var n := (x1 - 1 - x0) as real;
      assert (x1 - x0) as real == n + 1.0;
      assert low * (n + 1.0) == low * n + low && high * (n + 1.0) == high * n + high;
    }
  }

  lemma {:induction false} BoxBetween(f: (int, int) -> real, x0: int, y0: int, x1: int, y1: int, low: real, high: real)
    requires x0 <= x1 && y0 <= y1 && forall x, y :: x0 <= x < x1 && y0 <= y < y1 ==> low <= f(x, y) <= high
    ensures low * (Area(x0, y0, x1, y1) as real) <= BoxSum(f, x0, y0, x1, y1) <= high * (Area(x0, y0, x1, y1) as real)
    decreases y1 - y0
  {
    if y0 < y1 {
      BoxBetween(f, x0, y0, x1, y1 - 1, low, high);
      LineBetween(f, y1 - 1, x0, x1, low, high);
      var n, w := Area(x0, y0, x1, y1 - 1) as real, (x1 - x0) as real;
      assert Area(x0, y0, x1, y1) == Area(x0, y0, x1, y1 - 1) + (x1 - x0);
      assert low * (n + w) == low * n + low * w && high * (n + w) == high * n + high * w;
    }
  }

  /** The luminance a character shows lies between the darkest and the brightest pixel it covers. */
  lemma AverageBetween(img: Image, x0: int, y0: int, x1: int, y1: int, low: real, high: real)
    requires x0 < x1 && y0 < y1
    requires forall x, y :: x0 <= x < x1 && y0 <= y < y1 ==> low <= Luminances(img)(x, y) <= high
    ensures low <= Average(img, x0, y0, x1, y1) <= high
    ensures RampIndex(low) <= RampIndex(Average(img, x0, y0, x1, y1)) <= RampIndex(high)
  {
    AreaPositive(x0, y0, x1, y1);
    BoxBetween(Luminances(img), x0, y0, x1, y1, low, high);
    var mean, n := Average(img, x0, y0, x1, y1), Area(x0, y0, x1, y1) as real;
    assert mean * n == BoxSum(Luminances(img), x0, y0, x1, y1);
    RealMulOrder(low, mean, n);
    RealMulOrder(mean, high, n);
    RampIsMonotone(low, mean);
    RampIsMonotone(mean, high);
  }

  lemma RealMulOrder(a: real, b: real, n: real)
    requires n > 0.0 && a * n <= b * n
    ensures a <= b
  {
    assert (b - a) * n >= 0.0;
  }

  lemma {:induction false} LineSplits(f: (int, int) -> real, y: int, x0: int, x1: int, x2: int)
    requires x0 <= x1 <= x2
    ensures LineSum(f, y, x0, x2) == LineSum(f, y, x0, x1) + LineSum(f, y, x1, x2)
    decreases x2 - x1
  {
    if x1 < x2 {
      LineSplits(f, y, x0, x1, x2 - 1);
    }
  }

  lemma {:induction false} BoxSplitsAcross(f: (int, int) -> real, x0: int, y0: int, x1: int, x2: int, y1: int)
    requires x0 <= x1 <= x2 && y0 <= y1
    ensures BoxSum(f, x0, y0, x2, y1) == BoxSum(f, x0, y0, x1, y1) + BoxSum(f, x1, y0, x2, y1)
    decreases y1 - y0
  {
    if y0 < y1 {
      BoxSplitsAcross(f, x0, y0, x1, x2, y1 - 1);
      LineSplits(f, y1 - 1, x0, x1, x2);
    }
  }

  lemma {:induction false} BoxSplitsDown(f: (int, int) -> real, x0: int, y0: int, x1: int, y1: int, y2: int)
    requires x0 <= x1 && y0 <= y1 <= y2
    ensures BoxSum(f, x0, y0, x1, y2) == BoxSum(f, x0, y0, x1, y1) + BoxSum(f, x0, y1, x1, y2)
    decreases y2 - y1
  {
    if y1 < y2 {
      BoxSplitsDown(f, x0, y0, x1, y1, y2 - 1);
    }
  }

  /** The sum of `f` over the first `k` boxes of a row of boxes. */
  function RowOfBoxes(f: (int, int) -> real, x: int, y0: int, y1: int, cols: nat, width: nat, k: nat): real
    requires cols > 0 && width > 0 && k <= cols && y0 <= y1
  {
    if k == 0 then 0.0
    else
      BoxesWithin(k - 1, cols, width);
      RowOfBoxes(f, x, y0, y1, cols, width, k - 1)
      + BoxSum(f, x + Cut(k - 1, cols, width), y0, x + BoxEnd(k - 1, cols, width), y1)
  }

  /** The sum of `f` over the boxes of the first `k` rows. */
  function AllBoxes(f: (int, int) -> real, x: int, y: int, cols: nat, rows: nat, width: nat, height: nat, k: nat): real
    requires cols > 0 && rows > 0 && width > 0 && height > 0 && k <= rows
  {
    if k == 0 then 0.0
    else
      BoxesWithin(k - 1, rows, height);
      AllBoxes(f, x, y, cols, rows, width, height, k - 1)
      + RowOfBoxes(f, x, y + Cut(k - 1, rows, height), y + BoxEnd(k - 1, rows, height), cols, width, cols)
  }

  lemma {:induction false} RowIsWhole(f: (int, int) -> real, x: int, y0: int, y1: int, cols: nat, width: nat, k: nat)
    requires 0 < cols <= width && k <= cols && y0 <= y1
    ensures RowOfBoxes(f, x, y0, y1, cols, width, k) == BoxSum(f, x, y0, x + Cut(k, cols, width), y1)
    decreases k
  {
    CutsAdvance(0, cols, width);
    if k == 0 {
      NothingInside(f, x, y0, y1);
    } else {
      RowIsWhole(f, x, y0, y1, cols, width, k - 1);
      CutsAdvance(k - 1, cols, width);
      BoxSplitsAcross(f, x, y0, x + Cut(k - 1, cols, width), x + Cut(k, cols, width), y1);
    }
  }

  lemma {:induction false} NothingInside(f: (int, int) -> real, x: int, y0: int, y1: int)
    requires y0 <= y1
    ensures BoxSum(f, x, y0, x, y1) == 0.0
    decreases y1 - y0
  {
    if y0 < y1 {
      NothingInside(f, x, y0, y1 - 1);
    }
  }

  lemma {:induction false} RowsAreWhole(f: (int, int) -> real, x: int, y: int, cols: nat, rows: nat, width: nat,
    height: nat, k: nat)
    requires 0 < cols <= width && 0 < rows <= height && k <= rows
    ensures AllBoxes(f, x, y, cols, rows, width, height, k) == BoxSum(f, x, y, x + width, y + Cut(k, rows, height))
    decreases k
  {
    CutsAdvance(0, rows, height);
    CutsAdvance(0, cols, width);
    if k > 0 {
      RowsAreWhole(f, x, y, cols, rows, width, height, k - 1);
      CutsAdvance(k - 1, rows, height);
      RowIsWhole(f, x, y + Cut(k - 1, rows, height), y + Cut(k, rows, height), cols, width, cols);
      BoxSplitsDown(f, x, y, x + width, y + Cut(k - 1, rows, height), y + Cut(k, rows, height));
    }
  }

  /**
   With no more columns than the image is wide, every pixel is in exactly one character's box:
   the boxes tile the image both ways, and whatever is summed over all the boxes is what is summed
   over the image, be it luminance or area.
   */
  lemma PixelsCountOnce(img: Image, cols: nat, f: (int, int) -> real)
    requires img.width > 0 && img.height > 0 && 0 < cols <= img.width
    ensures var rows := Rows(img.width, img.height, cols);
      && rows <= img.height && Tiles(cols, img.width) && Tiles(rows, img.height)
      && AllBoxes(f, img.minX, img.minY, cols, rows, img.width, img.height, rows)
         == BoxSum(f, img.minX, img.minY, img.minX + img.width, img.minY + img.height)
  {
    var rows := Rows(img.width, img.height, cols);
    RowsWithinHeight(img.width, img.height, cols);
    TilesExactlyWhenNoMore(cols, img.width);
    TilesExactlyWhenNoMore(rows, img.height);
    RowsAreWhole(f, img.minX, img.minY, cols, rows, img.width, img.height, rows);
    CutsAdvance(0, rows, img.height);
  }

  /** Summing one over a box gives its area. */
  lemma AreaIsSumOfOnes(x0: int, y0: int, x1: int, y1: int)
    requires x0 <= x1 && y0 <= y1
    ensures BoxSum((x: int, y: int) => 1.0, x0, y0, x1, y1) == Area(x0, y0, x1, y1) as real
  {
    var one := (x: int, y: int) => 1.0;
    BoxBetween(one, x0, y0, x1, y1, 1.0, 1.0);
  }
}
