/**
 The rendered picture, character by character: how many lines, which pixels a character stands
 for, how bright those are and what that looks like.
 */
module AsciiArtLaws {
  import opened AsciiArt

  lemma RealOrder(a: real, b: real, n: real)
    requires n > 0.0 && a * n < b * n
    ensures a < b
  {
    assert (b - a) * n > 0.0;
  }

  /** Rounding a quotient down is dividing whole numbers. */
  lemma FloorOfQuotient(a: nat, n: nat, r: real)
    requires n > 0 && r * (n as real) == a as real
    ensures r.Floor == a / n
  {
    var q := a / n;
    assert q * n <= a < (q + 1) * n;
    var m := n as real;
    assert (q as real) * m == (q * n) as real <= a as real;
    assert ((q + 1) as real) * m == ((q + 1) * n) as real > a as real;
    RealOrder(r, (q + 1) as real, m);
    RealMulOrder(q as real, r, m);
  }

  /** Half as many lines as would keep the pixels square, rounded down; but one at least. */
  lemma RowsExactly(width: nat, height: nat, cols: nat)
    requires width > 0
    ensures var half := height * cols / (2 * width);
      Rows(width, height, cols) == if half == 0 then 1 else half
  {
    var (w, h, c) := (width as real, height as real, cols as real);
    var r := h / w * c * 0.5;
    assert r * (2.0 * w) == h * c by {
      assert h / w * w == h;
      assert r * (2.0 * w) == h / w * w * c;
    }
    assert (2 * width) as real == 2.0 * w && (height * cols) as real == h * c;
    FloorOfQuotient(height * cols, 2 * width, r);
    NonNegative(h / w, c);
    assert Truncate(r) == r.Floor;
    assert r == h / w * c * ROW_ASPECT;
  }

  lemma NonNegative(a: real, b: real)
    requires a >= 0.0 && b >= 0.0
    ensures a * b >= 0.0
  {}

  /** How bright a pixel is, in parts of the brightest there is. */
  lemma LuminanceExactly(p: Pixel)
    ensures Luminance(p) == (299 * (p.r as int) + 587 * (p.g as int) + 114 * (p.b as int)) as real / 65535000.0
  {}

  /** A box of one pixel. With `BoxSplitsAcross` and `BoxSplitsDown` it fixes the sum over every box. */
  lemma BoxOfOne(f: (int, int) -> real, x: int, y: int)
    ensures BoxSum(f, x, y, x + 1, y + 1) == f(x, y)
  {
    assert BoxSum(f, x, y, x + 1, y) == 0.0;
    assert LineSum(f, y, x, x) == 0.0;
  }

  /** A tenth of the scale for each character, and the brightest of all with the tenth tenth. */
  lemma CharacterExactly(luminance: real)
    requires 0.0 <= luminance <= 1.0
    ensures RAMP[RampIndex(luminance)] ==
      " .:-=+*#%@"[if luminance == 1.0 then 9 else (luminance * 10.0).Floor]
  {
    assert |RAMP| == 10;
    assert luminance < 1.0 ==> luminance * 10.0 < 10.0;
  }

  /** The pixels from `lo` to `hi` that character `i` of `n` stands for, along a side of `size` pixels. */
  predicate Stands(lo: int, hi: int, i: nat, n: nat, size: nat)
    requires n > 0
  {
    lo == i * size / n && hi == if (i + 1) * size / n > lo then (i + 1) * size / n else lo + 1
  }

  lemma SameMultiple(a: real, b: real, n: real)
    requires n > 0.0 && a * n == b * n
    ensures a == b
  {
    RealMulOrder(a, b, n);
    RealMulOrder(b, a, n);
  }

  lemma QuotientTimesDivisor(a: real, n: real)
    requires n > 0.0
    ensures a / n * n == a
  {}

  /** The average times the area is the sum. */
  lemma AverageTimesArea(img: Image, x0: int, y0: int, x1: int, y1: int)
    requires x0 < x1 && y0 < y1
    ensures Area(x0, y0, x1, y1) > 0
    ensures Average(img, x0, y0, x1, y1) * (Area(x0, y0, x1, y1) as real) == BoxSum(Luminances(img), x0, y0, x1, y1)
  {
    AreaPositive(x0, y0, x1, y1);
    QuotientTimesDivisor(BoxSum(Luminances(img), x0, y0, x1, y1), Area(x0, y0, x1, y1) as real);
  }

  lemma MeanExactly(img: Image, x0: int, y0: int, x1: int, y1: int, area: nat, mean: real)
    requires x0 < x1 && y0 < y1 && area == Area(x0, y0, x1, y1)
    requires mean * (area as real) == BoxSum(Luminances(img), x0, y0, x1, y1)
    ensures mean == Average(img, x0, y0, x1, y1)
  {
    AverageTimesArea(img, x0, y0, x1, y1);
    SameMultiple(Average(img, x0, y0, x1, y1), mean, area as real);
  }

  lemma AverageInRange(img: Image, x0: int, y0: int, x1: int, y1: int)
    requires x0 < x1 && y0 < y1
    ensures 0.0 <= Average(img, x0, y0, x1, y1) <= 1.0
  {
    forall x, y
      ensures 0.0 <= Luminances(img)(x, y) <= 1.0
    {
      assert Luminances(img)(x, y) == Luminance(img.at(x, y));
    }
    AverageBetween(img, x0, y0, x1, y1, 0.0, 1.0);
  }

  lemma AreaElsewhere(x: int, y: int, x0: int, y0: int, x1: int, y1: int)
    ensures Area(x + x0, y + y0, x + x1, y + y1) == (y1 - y0) * (x1 - x0)
  {
    var (w, h) := ((x + x1) - (x + x0), (y + y1) - (y + y0));
    assert w == x1 - x0 && h == y1 - y0;
  }

  /** A character shows the mean luminance of the pixels it stands for. */
  lemma CellExactly(
    img: Image, cols: nat, rows: nat, row: nat, col: nat, x0: nat, x1: nat, y0: nat, y1: nat, area: nat, mean: real)
    requires img.width > 0 && img.height > 0 && row < rows && col < cols
    requires Stands(x0, x1, col, cols, img.width) && Stands(y0, y1, row, rows, img.height)
    requires x0 <= x1 && y0 <= y1 && area == (y1 - y0) * (x1 - x0)
    requires mean * (area as real)
      == BoxSum(Luminances(img), img.minX + x0, img.minY + y0, img.minX + x1, img.minY + y1)
    ensures x0 < x1 <= img.width && y0 < y1 <= img.height && 0.0 <= mean <= 1.0
    ensures Cell(img, cols, rows, row, col) == " .:-=+*#%@"[if mean == 1.0 then 9 else (mean * 10.0).Floor]
  {
    BoxesWithin(row, rows, img.height);
    BoxesWithin(col, cols, img.width);
    AreaElsewhere(img.minX, img.minY, x0, y0, x1, y1);
    var (a, b, c, d) := (img.minX + x0, img.minY + y0, img.minX + x1, img.minY + y1);
    MeanExactly(img, a, b, c, d, area, mean);
    AverageInRange(img, a, b, c, d);
    CharacterExactly(mean);
  }

  /** Where a character of the text is. */
  function Place(cols: nat, row: nat, col: nat): nat
    decreases row
  {
    if row == 0 then col else cols + 1 + Place(cols, row - 1, col)
  }

  lemma {:induction false} PlaceIs(cols: nat, row: nat, col: nat)
    ensures Place(cols, row, col) == row * (cols + 1) + col
    decreases row
  {
    if row > 0 {
      PlaceIs(cols, row - 1, col);
      assert row * (cols + 1) == (row - 1) * (cols + 1) + (cols + 1);
    }
  }

  lemma {:induction false} PlacesAdvance(cols: nat, row: nat, k: nat, col: nat)
    requires row < k && col <= cols
    ensures Place(cols, row, col) + (cols - col) + (if row < k - 1 then cols + 1 else 0) < Place(cols, k, 0)
    ensures Place(cols, row, col) == Place(cols, row, 0) + col
    decreases row + k
  {
    if row > 0 { PlacesAdvance(cols, row - 1, k - 1, col); }
    else if k > 1 { PlacesAdvance(cols, 0, k - 1, col); }
  }

  lemma LineAppended(before: string, line: string, p: nat)
    requires p < |before| + |line| + 1
    ensures (before + line + "\n")[p] ==
      if p < |before| then before[p] else if p < |before| + |line| then line[p - |before|] else '\n'
  {}

  lemma {:induction false} TextLength(img: Image, cols: nat, rows: nat, k: nat)
    requires img.width > 0 && img.height > 0 && k <= rows
    ensures |Text(img, cols, rows, k)| == Place(cols, k, 0)
    decreases k
  {
    if k > 0 { TextLength(img, cols, rows, k - 1); }
  }

  lemma LastLine(img: Image, cols: nat, rows: nat, k: nat, p: nat)
    requires img.width > 0 && img.height > 0 && 0 < k <= rows && p < Place(cols, k, 0)
    ensures |Text(img, cols, rows, k)| == Place(cols, k, 0) && |Text(img, cols, rows, k - 1)| == Place(cols, k - 1, 0)
    ensures var start := Place(cols, k - 1, 0);
      Text(img, cols, rows, k)[p] ==
      if p < start then Text(img, cols, rows, k - 1)[p]
      else if p < start + cols then Line(img, cols, rows, k - 1, cols)[p - start] else '\n'
  {
    TextLength(img, cols, rows, k);
    TextLength(img, cols, rows, k - 1);
    LineAppended(Text(img, cols, rows, k - 1), Line(img, cols, rows, k - 1, cols), p);
  }

  /** The character at `col`, or the end, of a line. */
  function Shown(img: Image, cols: nat, rows: nat, row: nat, col: nat): char
    requires img.width > 0 && img.height > 0 && row < rows && col <= cols
  {
    if col == cols then '\n' else Cell(img, cols, rows, row, col)
  }

  lemma LastLineShown(img: Image, cols: nat, rows: nat, k: nat, col: nat)
    requires img.width > 0 && img.height > 0 && 0 < k <= rows && col <= cols
    ensures Place(cols, k - 1, 0) + col < |Text(img, cols, rows, k)|
    ensures Text(img, cols, rows, k)[Place(cols, k - 1, 0) + col] == Shown(img, cols, rows, k - 1, col)
  {
    LastLine(img, cols, rows, k, Place(cols, k - 1, 0) + col);
  }

  lemma EarlierLines(img: Image, cols: nat, rows: nat, k: nat, p: nat)
    requires img.width > 0 && img.height > 0 && 0 < k <= rows && p < Place(cols, k - 1, 0)
    ensures p < |Text(img, cols, rows, k - 1)| < |Text(img, cols, rows, k)|
    ensures Text(img, cols, rows, k)[p] == Text(img, cols, rows, k - 1)[p]
  {
    LastLine(img, cols, rows, k, p);
  }

  lemma {:induction false} TextExactly(img: Image, cols: nat, rows: nat, k: nat, row: nat, col: nat, place: nat)
    requires img.width > 0 && img.height > 0 && k <= rows && row < k && col <= cols && place == Place(cols, row, col)
    ensures place < |Text(img, cols, rows, k)| && Text(img, cols, rows, k)[place] == Shown(img, cols, rows, row, col)
    decreases k
  {
    PlacesAdvance(cols, row, k, col);
    if row < k - 1 {
      PlacesAdvance(cols, row, k - 1, col);
      EarlierLines(img, cols, rows, k, place);
      TextExactly(img, cols, rows, k - 1, row, col, place);
    } else {
      LastLineShown(img, cols, rows, k, col);
    }
  }

  /** Every line has as many characters as asked for, and ends where the next begins; the last one just ends. */
  lemma PictureExactly(img: Image, cols: nat, rows: nat, art: string, row: nat, col: nat, place: nat)
    requires img.width > 0 && img.height > 0 && cols > 0 && place == row * (cols + 1) + col
    requires art + "\n" == Text(img, cols, rows, rows) && row < rows && col <= cols
    ensures |art| + 1 == rows * (cols + 1)
    ensures col < cols || row < rows - 1 ==>
      place < |art| && art[place] == if col < cols then Cell(img, cols, rows, row, col) else '\n'
  {
    PlaceIs(cols, row, col);
    PlaceIs(cols, rows, 0);
    PlacesAdvance(cols, row, rows, col);
    TextLength(img, cols, rows, rows);
    TextExactly(img, cols, rows, rows, row, col, place);
    if col < cols || row < rows - 1 {
      assert art[place] == (art + "\n")[place];
    }
  }
}
