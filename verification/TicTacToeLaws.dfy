/**
 Tic-tac-toe by the geometry of its board: which lines win, and what every key and every event
 leads to, without the table of lines.
 */
module TicTacToeLaws {
  import opened GameSession
  import opened TicTacToe

  function Row(p: Square): int {
    p as int / 3
  }

  function Column(p: Square): int {
    p as int % 3
  }

  /** Three squares of one row, one column or one diagonal. */
  predicate InLine(p: Square, q: Square, r: Square) {
    && p < q < r
    && (|| Row(p) == Row(q) == Row(r)
        || Column(p) == Column(q) == Column(r)
        || (Row(p) == Column(p) && Row(q) == Column(q) && Row(r) == Column(r))
        || (Row(p) + Column(p) == 2 && Row(q) + Column(q) == 2 && Row(r) + Column(r) == 2))
  }

  /** The mark holds three squares in line. */
  predicate Completes(b: Board, m: Mark) {
    exists p: Square, q: Square, r: Square :: InLine(p, q, r) && b[p] == m && b[q] == m && b[r] == m
  }

  predicate Decided(b: Board) {
    Completes(b, X) || Completes(b, O)
  }

  /** The table lists the lines of the board and nothing else. */
  lemma LinesListed(p: Square, q: Square, r: Square)
    ensures InLine(p, q, r) <==> Line(p, q, r) in WIN_LINES
  {
    assert Row(p) == (if p < 3 then 0 else if p < 6 then 1 else 2) && Column(p) == p as int - 3 * Row(p);
    assert Row(q) == (if q < 3 then 0 else if q < 6 then 1 else 2) && Column(q) == q as int - 3 * Row(q);
    assert Row(r) == (if r < 3 then 0 else if r < 6 then 1 else 2) && Column(r) == r as int - 3 * Row(r);
  }

  /** A winner has three squares in line, and if anybody has, there is a winner. */
  lemma WinnerByGeometry(b: Board)
    ensures Winner(b) != Empty <==> Decided(b)
    ensures Winner(b) != Empty ==> Completes(b, Winner(b))
  {
    WinnerExact(b);
    if l, m :| l in WIN_LINES && m != Empty && Holds(b, m, l) {
      LinesListed(l.a, l.b, l.c);
      assert Completes(b, m);
    }
    if Winner(b) != Empty {
      var l :| l in WIN_LINES && Holds(b, Winner(b), l);
      LinesListed(l.a, l.b, l.c);
    }
    if m :| m != Empty && Completes(b, m) {
      var p, q, r :| InLine(p, q, r) && b[p] == m && b[q] == m && b[r] == m;
      LinesListed(p, q, r);
      assert Holds(b, m, Line(p, q, r));
    }
  }

  // ---- What every key and every event leads to ----

  predicate AllTaken(b: Board) {
    forall p: Square :: b[p] != Empty
  }

  lemma FullExactly(b: Board)
    ensures Full(b) <==> AllTaken(b)
  {
    if !Full(b) {
      var i :| 0 <= i < |b| && b[i] == Empty;
      assert b[i as Square] == Empty;
    }
  }

  function Opponent(m: Mark): Mark {
    if m == X then O else X
  }

  /** A match that is over ignores keys and events. */
  lemma OverIsOver(s: Side, key: Key, event: Wire<int>)
    requires s.done
    ensures HandleKey(s, key) == Reaction(s, [], NoCommand) == HandleEvent(s, event)
  {}

  /**
   A mark is placed on its player's turn on an empty square only. One that completes a line wins
   and one that fills the board without draws; either is sent before the session is closed.
   After any other it is the opponent's turn, and the move is sent later.
   */
  lemma PlacingExactly(s: Side, p: Square)
    requires !s.done && s.mine != Empty
    ensures var r := HandleKey(s, Place(p));
      if s.turn != s.mine || s.board[p] != Empty then r == Reaction(s, [], NoCommand)
      else
        var b: Board := s.board[p := s.mine];
        if Decided(b) then r == Reaction(Side(b, s.mine, s.turn, true, Won), [Data(p as int), Closing], Announce(Won))
        else if AllTaken(b) then
          r == Reaction(Side(b, s.mine, s.turn, true, Draw), [Data(p as int), Closing], Announce(Draw))
        else r == Reaction(Side(b, s.mine, Opponent(s.mine), false, s.result), [], SendLater(p))
  {
    if s.board[p] == Empty {
      WinnerByGeometry(s.board[p := s.mine]);
      FullExactly(s.board[p := s.mine]);
    }
  }

  /** What the board is once the opponent's move has been marked where it can be. */
  function AfterArrival(s: Side, p: int): Board {
    if 0 <= p < 9 && s.board[p] == Empty then s.board[p := Opponent(s.mine)] else s.board
  }

  /**
   An arriving move that completes a line ends the match for whoever holds it; else a full board
   draws; else it is this player's turn.
   */
  lemma ArrivalExactly(s: Side, p: int)
    requires !s.done && s.mine != Empty
    ensures var (r, b) := (HandleEvent(s, Data(p)), AfterArrival(s, p));
      if Decided(b) then
        && (r == Reaction(Side(b, s.mine, s.turn, true, Won), [Closing], Announce(Won))
            || r == Reaction(Side(b, s.mine, s.turn, true, Lost), [Closing], Announce(Lost)))
        && Completes(b, if r.side.result == Won then s.mine else Opponent(s.mine))
      else if AllTaken(b) then r == Reaction(Side(b, s.mine, s.turn, true, Draw), [Closing], Announce(Draw))
      else r == Reaction(Side(b, s.mine, s.mine, false, s.result), [], Listen)
  {
    WinnerByGeometry(AfterArrival(s, p));
    FullExactly(AfterArrival(s, p));
  }

  /** Resigning, an opponent's resignation, a lost connection and the report on a move sent. */
  lemma EndingsExactly(s: Side, delivered: bool)
    requires !s.done
    ensures HandleKey(s, Quit) ==
      Reaction(Side(s.board, s.mine, s.turn, true, Resigned), [Resignation, Closing], Announce(Resigned))
    ensures HandleEvent(s, Resignation) ==
      Reaction(Side(s.board, s.mine, s.turn, true, OpponentResigned), [Closing], Announce(OpponentResigned))
    ensures HandleEvent(s, Closing) ==
      Reaction(Side(s.board, s.mine, s.turn, true, ConnectionLost), [], Announce(ConnectionLost))
    ensures MoveSent(s, delivered) ==
      Reaction(if delivered then s else Side(s.board, s.mine, s.turn, true, ConnectionLost), [], NoCommand)
  {}

  /** Every endpoint starts with nine empty squares and X to move. */
  lemma StartsEmpty(mine: Mark, p: Square)
    ensures NewSide(mine).board[p] == Empty && NewSide(mine) == Side(NewSide(mine).board, mine, X, false, Undecided)
  {}
}
