/**
 Tic-tac-toe as one endpoint sees it: the board, and how the endpoint reacts to its player, to
 what arrives from the other endpoint, and to the fate of a move it sent. `TicTacToeModel`
 holds the mutable endpoint proved to react this way.
 */
module TicTacToe {
  import opened GameSession

  datatype Mark = Empty | X | O {
    function Other(): Mark {
      match this
      case X => O
      case O => X
      case Empty => Empty
    }
  }

  newtype Square = n: int | 0 <= n < 9

  type Board = b: seq<Mark> | |b| == 9 witness EMPTY_BOARD

  const EMPTY_BOARD := [Empty, Empty, Empty, Empty, Empty, Empty, Empty, Empty, Empty]

  datatype Line = Line(a: Square, b: Square, c: Square)

  const WIN_LINES := [
    Line(0, 1, 2), Line(3, 4, 5), Line(6, 7, 8),
    Line(0, 3, 6), Line(1, 4, 7), Line(2, 5, 8),
    Line(0, 4, 8), Line(2, 4, 6)]

  predicate Holds(b: Board, m: Mark, l: Line) {
    b[l.a] == m && b[l.b] == m && b[l.c] == m
  }

  /** The mark on the first completed line of the last `left` ones, if there is one. */
  function FirstWinner(b: Board, left: nat): Mark
    requires left <= |WIN_LINES|
  {
    if left == 0 then Empty
    else
      var l := WIN_LINES[|WIN_LINES| - left];
      if b[l.a] != Empty && Holds(b, b[l.a], l) then b[l.a] else FirstWinner(b, left - 1)
  }

  /** The mark on the first completed line, if there is one. */
  function Winner(b: Board): Mark {
    FirstWinner(b, |WIN_LINES|)
  }

  predicate Full(b: Board) {
    Empty !in b
  }

  predicate Concluded(b: Board) {
    Winner(b) != Empty || Full(b)
  }

  lemma {:induction false} FirstWinnerExact(b: Board, left: nat)
    requires left <= |WIN_LINES|
    ensures FirstWinner(b, left) != Empty ==> exists l :: l in WIN_LINES && Holds(b, FirstWinner(b, left), l)
    ensures FirstWinner(b, left) == Empty ==>
      forall k, m :: |WIN_LINES| - left <= k < |WIN_LINES| && m != Empty ==> !Holds(b, m, WIN_LINES[k])
  {
    if left > 0 {
      FirstWinnerExact(b, left - 1);
      var l := WIN_LINES[|WIN_LINES| - left];
      assert l in WIN_LINES;
      if b[l.a] != Empty && Holds(b, b[l.a], l) {
        assert Holds(b, FirstWinner(b, left), l);
      }
    }
  }

  /** A board has a winner exactly if some player holds a whole line, and the winner does. */
  lemma WinnerExact(b: Board)
    ensures Winner(b) != Empty <==> exists l, m :: l in WIN_LINES && m != Empty && Holds(b, m, l)
    ensures Winner(b) != Empty ==> exists l :: l in WIN_LINES && Holds(b, Winner(b), l)
  {
    FirstWinnerExact(b, |WIN_LINES|);
  }

  /** Placing a mark can complete lines of that mark only. */
  lemma OnlyTheMoverCanWin(b: Board, p: Square, m: Mark)
    requires Winner(b) == Empty && b[p] == Empty && m != Empty
    ensures Winner(b[p := m]) == Empty || Winner(b[p := m]) == m
  {
    WinnerExact(b);
    var c: Board := b[p := m];
    WinnerExact(c);
    if Winner(c) != Empty && Winner(c) != m {
      var l :| l in WIN_LINES && Holds(c, Winner(c), l);
      assert Holds(b, Winner(c), l);
    }
  }

  // ---- One endpoint ----

  datatype Outcome = Undecided | Won | Lost | Draw | Resigned | OpponentResigned | ConnectionLost

  datatype Side = Side(board: Board, mine: Mark, turn: Mark, done: bool, result: Outcome)

  datatype Command = NoCommand | Listen | SendLater(p: Square) | Announce(result: Outcome)

  /** The endpoint afterwards, what it put on the session meanwhile, and what it asks to happen next. */
  datatype Reaction = Reaction(side: Side, sent: seq<Wire<int>>, next: Command)

  datatype Key = Place(p: Square) | Quit

  function NewSide(mine: Mark): Side {
    Side(EMPTY_BOARD, mine, X, false, Undecided)
  }

  function Ended(s: Side, result: Outcome): Side {
    s.(done := true, result := result)
  }

  function AttemptMove(s: Side, p: Square): Reaction {
    if s.turn != s.mine || s.board[p] != Empty then Reaction(s, [], NoCommand)
    else
      var t := s.(board := s.board[p := s.mine]);
      if Winner(t.board) != Empty then Reaction(Ended(t, Won), [Data(p as int), Closing], Announce(Won))
      else if Full(t.board) then Reaction(Ended(t, Draw), [Data(p as int), Closing], Announce(Draw))
      else Reaction(t.(turn := t.turn.Other()), [], SendLater(p))
  }

  function HandleKey(s: Side, key: Key): Reaction {
    if s.done then Reaction(s, [], NoCommand)
    else match key
      case Place(p) => AttemptMove(s, p)
      case Quit => Reaction(Ended(s, Resigned), [Resignation, Closing], Announce(Resigned))
  }

  /** An opponent's mark is put where it can be; anything else the message says is ignored. */
  function Marked(s: Side, p: int): Board {
    if 0 <= p < 9 && s.board[p] == Empty then s.board[p := s.mine.Other()] else s.board
  }

  function HandleEvent(s: Side, event: Wire<int>): Reaction {
    if s.done then Reaction(s, [], NoCommand)
    else match event
      case Data(p) =>
        var t := s.(board := Marked(s, p));
        var w := Winner(t.board);
        if w != Empty then
          var result := if w == s.mine then Won else Lost;
          Reaction(Ended(t, result), [Closing], Announce(result))
        else if Full(t.board) then Reaction(Ended(t, Draw), [Closing], Announce(Draw))
        else Reaction(t.(turn := s.mine), [], Listen)
      case Resignation => Reaction(Ended(s, OpponentResigned), [Closing], Announce(OpponentResigned))
      case Closing => Reaction(Ended(s, ConnectionLost), [], Announce(ConnectionLost))
  }

  /** The report on a move sent; a failure ends the match. */
  function MoveSent(s: Side, delivered: bool): Reaction {
    Reaction(if delivered then s else Ended(s, ConnectionLost), [], NoCommand)
  }

  // ---- What the reactions guarantee ----

  /**
   The end of the match is announced by the reaction that brings it about, and by no other,
   except that a failed send ends the match without a word.
   */
  lemma EndIsAnnouncedExactly(s: Side, key: Key, event: Wire<int>, delivered: bool)
    ensures var r := HandleKey(s, key);
      r.next.Announce? <==> r.side.done && !s.done
    ensures var r := HandleEvent(s, event);
      r.next.Announce? <==> r.side.done && !s.done
    ensures var r := MoveSent(s, delivered);
      (r.side.done && !s.done && !r.next.Announce?) <==> (!delivered && !s.done)
    ensures forall r :: r in [HandleKey(s, key), HandleEvent(s, event)] && r.next.Announce? ==>
      r.next.result == r.side.result
  {}
}

/** The mutable endpoint. */
module TicTacToeModel {
  import opened GameSession
  import opened TicTacToe

  class Model {
    const session: Session<int>
    const mySymbol: Mark
    var board: Board
    var turn: Mark
    var done: bool
    var result: Outcome

    constructor (session: Session<int>, mySymbol: Mark)
      ensures this.session == session && Side() == NewSide(mySymbol)
    {
      this.session, this.mySymbol := session, mySymbol;
      board, turn, done, result := EMPTY_BOARD, X, false, Undecided;
    }

    ghost function Side(): Side
      reads this
    {
      TicTacToe.Side(board, mySymbol, turn, done, result)
    }

    method AttemptMove(p: Square) returns (next: Command)
      requires !done
      modifies this, session
      ensures var r := TicTacToe.AttemptMove(old(Side()), p);
        Side() == r.side && session.sent == old(session.sent) + r.sent && next == r.next
    {
      if turn != mySymbol { return NoCommand; }
      if board[p] != Empty { return NoCommand; }
      board := board[p := mySymbol];
      if Winner(board) != Empty {
        done, result := true, Won;
        session.SendData(p as int);
        session.Close();
        return Announce(result);
      }
      if Full(board) {
        done, result := true, Draw;
        session.SendData(p as int);
        session.Close();
        return Announce(result);
      }
      turn := turn.Other();
      return SendLater(p);
    }

    method HandleKey(key: Key) returns (next: Command)
      modifies this, session
      ensures var r := TicTacToe.HandleKey(old(Side()), key);
        Side() == r.side && session.sent == old(session.sent) + r.sent && next == r.next
    {
      if done { return NoCommand; }
      match key {
        case Place(p) =>
          next := AttemptMove(p);
        case Quit =>
          session.Resign();
          session.Close();
          done, result := true, Resigned;
          next := Announce(result);
      }
    }

    method HandleEvent(event: Wire<int>) returns (next: Command)
      modifies this, session
      ensures var r := TicTacToe.HandleEvent(old(Side()), event);
        Side() == r.side && session.sent == old(session.sent) + r.sent && next == r.next
    {
      if done { return NoCommand; }
      match event {
        case Data(p) =>
          if 0 <= p < 9 && board[p] == Empty {
            board := board[p := mySymbol.Other()];
          }
          var winner := Winner(board);
          if winner != Empty {
            done, result := true, if winner == mySymbol then Won else Lost;
            session.Close();
            return Announce(result);
          }
          if Full(board) {
            done, result := true, Draw;
            session.Close();
            return Announce(result);
          }
          turn := mySymbol;
          next := Listen;
        case Resignation =>
          done, result := true, OpponentResigned;
          session.Close();
          next := Announce(result);
        case Closing =>
          done, result := true, ConnectionLost;
          next := Announce(result);
      }
    }

    method MoveSent(delivered: bool) returns (next: Command)
      modifies this
      ensures var r := TicTacToe.MoveSent(old(Side()), delivered);
        Side() == r.side && next == r.next
    {
      if !delivered {
        done, result := true, ConnectionLost;
      }
      next := NoCommand;
    }
  }
}
