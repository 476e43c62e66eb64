/**
 Geometry of the shared Ludo track: colours, start squares, safe squares and the
 mapping from a colour's own positions to absolute squares.
 */
module LudoBoard {
  datatype Color = Red | Green | Yellow | Blue

  const TRACK_SQUARES := 52
  const HOME_STRETCH_SQUARES := 5
  const SHARED_SQUARES := TRACK_SQUARES - 1
  const FINISH_POS := SHARED_SQUARES + HOME_STRETCH_SQUARES
  const YARD_EXIT_ROLL := 6
  const TOKENS_PER_PLAYER := 4

  const COLORS: seq<Color> := [Red, Green, Yellow, Blue]

  function StartOffset(c: Color): int {
    match c
    case Red => 0
    case Green => 13
    case Yellow => 26
    case Blue => 39
  }

  function GlobalIndex(c: Color, relPos: int): int {
    (StartOffset(c) + relPos) % TRACK_SQUARES
  }

  /** A square where no token can be captured: a start square or the star eight squares past one. */
  predicate IsSafeSquare(global: int) {
    exists c: Color :: global == StartOffset(c) || global == (StartOffset(c) + 8) % TRACK_SQUARES
  }

  /** The table behind `IsSafeSquare`, filled by a loop over the start squares. */
  method BuildSafeSquares() returns (m: map<int, bool>)
    ensures forall g :: g in m && m[g] <==> IsSafeSquare(g)
  {
    m := map[];
    for i := 0 to |COLORS|
      invariant forall g :: g in m ==> m[g]
      invariant forall g :: g in m <==>
        exists j :: 0 <= j < i && (g == StartOffset(COLORS[j]) || g == (StartOffset(COLORS[j]) + 8) % TRACK_SQUARES)
    {
      var off := StartOffset(COLORS[i]);
      m := m[off := true];
      m := m[(off + 8) % TRACK_SQUARES := true];
    }
    assert COLORS[0] == Red && COLORS[1] == Green && COLORS[2] == Yellow && COLORS[3] == Blue;
  }

  /** The colour a quarter of the board further on. */
  function NextColor(c: Color): (r: Color)
    ensures r != c
    ensures StartOffset(r) == (StartOffset(c) + 13) % TRACK_SQUARES
  {
    match c
    case Red => Green
    case Green => Yellow
    case Yellow => Blue
    case Blue => Red
  }

  lemma NextColorInjective(a: Color, b: Color)
    ensures NextColor(a) == NextColor(b) <==> a == b
  {}

  lemma GlobalIndexShift(c: Color, pos: int)
    ensures GlobalIndex(NextColor(c), pos) == (GlobalIndex(c, pos) + 13) % TRACK_SQUARES
  {}

  /** A quarter turn permutes the squares of the track ... */
  lemma QuarterTurnInjective(g: int, h: int)
    requires 0 <= g < TRACK_SQUARES && 0 <= h < TRACK_SQUARES
    ensures (g + 13) % TRACK_SQUARES == (h + 13) % TRACK_SQUARES <==> g == h
  {}

  lemma SafeSquareTable(g: int)
    ensures IsSafeSquare(g) <==> g in {0, 8, 13, 21, 26, 34, 39, 47}
  {
    assert StartOffset(Red) == 0 && StartOffset(Green) == 13 && StartOffset(Yellow) == 26 && StartOffset(Blue) == 39;
  }

  /** ... and maps the safe squares onto the safe squares. */
  lemma QuarterTurnKeepsSafety(g: int)
    requires 0 <= g < TRACK_SQUARES
    ensures IsSafeSquare((g + 13) % TRACK_SQUARES) <==> IsSafeSquare(g)
  {
    SafeSquareTable(g);
    SafeSquareTable((g + 13) % TRACK_SQUARES);
    assert (g + 13) % TRACK_SQUARES == if g < 39 then g + 13 else g - 39;
  }

  lemma StartIsSafe(c: Color)
    ensures IsSafeSquare(GlobalIndex(c, 0))
  {
    assert GlobalIndex(c, 0) == StartOffset(c);
  }
}
