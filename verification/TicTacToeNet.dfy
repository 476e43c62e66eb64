/**
 Two tic-tac-toe endpoints joined by a connection. A move that does not end the match is sent
 by a command that runs some time after the key press; everything else is sent at once. Either
 player may press anything at any time, either may resign, and the connection may fail.
 */
module TicTacToeNet {
  import opened GameSession
  import opened TicTacToe

  datatype End = End(
    side: Side,
    sending: seq<Square>,        // moves whose sending has been asked for and not yet run
    reports: multiset<bool>,     // fates of sent moves, not yet reported back
    inbox: seq<Wire<int>>,       // sent by the other end, not yet taken
    armed: bool,                 // the listener
    pending: seq<Wire<int>>,     // what it has taken, not yet handled: at most one
    announced: seq<Outcome>,
    silenced: bool,              // ended by the report of a failed send
    seen: nat)                   // how many moves of the match are on this board

  datatype System = System(up: bool, a: End, b: End, moves: seq<Square>)

  datatype Act = Press(key: Key) | Send(k: nat, lucky: bool) | Report(delivered: bool) | Take | Handle

  datatype Event = ByA(act: Act) | ByB(act: Act) | Fail(keptA: nat, keptB: nat)

  function NewEnd(mine: Mark): End {
    End(NewSide(mine), [], multiset{}, [], true, [], [], false, 0)
  }

  /** The challenger plays X and moves first. */
  function Start(): System {
    System(true, NewEnd(X), NewEnd(O), [])
  }

  function Swap(s: System): System {
    System(s.up, s.b, s.a, s.moves)
  }

  // ---- Events ----

  predicate CanAct(e: End, act: Act) {
    match act
    case Press(_) => true
    case Send(k, _) => k < |e.sending|
    case Report(delivered) => delivered in e.reports
    case Take => e.armed && e.inbox != []
    case Handle => e.pending != []
  }

  predicate Enabled(s: System, e: Event) {
    match e
    case ByA(act) => CanAct(s.a, act)
    case ByB(act) => CanAct(s.b, act)
    case Fail(keptA, keptB) => keptA <= |s.a.inbox| && keptB <= |s.b.inbox|
  }

  /** The reacting end afterwards. */
  function Reacted(e: End, r: Reaction): End {
    e.(side := r.side,
       sending := if r.next.SendLater? then e.sending + [r.next.p] else e.sending,
       armed := e.armed || r.next.Listen?,
       announced := if r.next.Announce? then e.announced + [r.next.result] else e.announced,
       seen := e.seen + if r.side.board != e.side.board then 1 else 0)
  }

  /** What the first end sends reaches the other, and closing the connection is noticed at both. */
  function After(s: System, r: Reaction): System {
    var me := Reacted(s.a, r);
    if !s.up || r.sent == [] then s.(a := me)
    else s.(up := false, a := me.(inbox := me.inbox + [Closing]), b := s.b.(inbox := s.b.inbox + r.sent))
  }

  function Pressed(s: System, key: Key): System {
    var r := HandleKey(s.a.side, key);
    After(s, r).(moves := if key.Place? && r.side.board != s.a.side.board then s.moves + [key.p] else s.moves)
  }

  function Sending(s: System, k: nat, lucky: bool): System
    requires k < |s.a.sending|
  {
    var me := s.a.(sending := s.a.sending[..k] + s.a.sending[k + 1..],
                   reports := s.a.reports + multiset{s.up || lucky});
    s.(a := me, b := if s.up then s.b.(inbox := s.b.inbox + [Data(s.a.sending[k] as int)]) else s.b)
  }

  function Reporting(s: System, delivered: bool): System {
    var me := s.a.(reports := s.a.reports - multiset{delivered},
                   silenced := s.a.silenced || (!delivered && !s.a.side.done));
    After(s.(a := me), MoveSent(me.side, delivered))
  }

  function Taken(e: End): End
    requires e.inbox != []
  {
    e.(armed := false, pending := [e.inbox[0]], inbox := if e.inbox[0].Closing? then e.inbox else e.inbox[1..])
  }

  function Handling(s: System): System
    requires s.a.pending != []
  {
    After(s.(a := s.a.(pending := [])), HandleEvent(s.a.side, s.a.pending[0]))
  }

  function CutOff(e: End, kept: nat): End
    requires kept <= |e.inbox|
  {
    e.(inbox := e.inbox[..kept] + [Closing])
  }

  function FirstActs(s: System, act: Act): System
    requires CanAct(s.a, act)
  {
    match act
    case Press(key) => Pressed(s, key)
    case Send(k, lucky) => Sending(s, k, lucky)
    case Report(delivered) => Reporting(s, delivered)
    case Take => s.(a := Taken(s.a))
    case Handle => Handling(s)
  }

  function Next(s: System, e: Event): System
    requires Enabled(s, e)
  {
    match e
    case ByA(act) => FirstActs(s, act)
    case ByB(act) => Swap(FirstActs(Swap(s), act))
    case Fail(keptA, keptB) =>
      if s.up then s.(up := false, a := CutOff(s.a, keptA), b := CutOff(s.b, keptB)) else s
  }

  // ---- The match played ----

  /** Who makes move number `k`. */
  function MarkOf(k: nat): (m: Mark)
    ensures m != Empty
  {
    if k == 0 then X else MarkOf(k - 1).Other()
  }

  function Replay(moves: seq<Square>): Board {
    if moves == [] then EMPTY_BOARD
    else Replay(moves[..|moves| - 1])[moves[|moves| - 1] := MarkOf(|moves| - 1)]
  }

  /** A game of tic-tac-toe: marks in turn, X first, each on an empty square, none after the end. */
  predicate Legal(moves: seq<Square>) {
    moves == [] || (
      var before := moves[..|moves| - 1];
      Legal(before) && !Concluded(Replay(before)) && Replay(before)[moves[|moves| - 1]] == Empty)
  }

  function EmptySquares(b: seq<Mark>): nat {
    if b == [] then 0 else (if b[0] == Empty then 1 else 0) + EmptySquares(b[1..])
  }

  lemma {:induction false} FillOne(b: seq<Mark>, p: nat, m: Mark)
    requires p < |b| && b[p] == Empty && m != Empty
    ensures EmptySquares(b[p := m]) == EmptySquares(b) - 1
  {
    if p > 0 {
      FillOne(b[1..], p - 1, m);
      assert b[p := m][1..] == b[1..][p - 1 := m];
    } else {
      assert b[p := m][1..] == b[1..];
    }
  }

  lemma {:induction false} AllEmpty(b: seq<Mark>)
    requires forall k :: 0 <= k < |b| ==> b[k] == Empty
    ensures EmptySquares(b) == |b|
  {
    if b != [] {
      AllEmpty(b[1..]);
    }
  }

  lemma NobodyHasWonYet()
    ensures !Concluded(EMPTY_BOARD)
  {
    WinnerExact(EMPTY_BOARD);
    assert EMPTY_BOARD[0] == Empty;
  }

  /** A legal game has at most nine moves, fills one square with each, and only its last mover can have won. */
  lemma {:induction false} LegalGames(moves: seq<Square>)
    requires Legal(moves)
    ensures |moves| <= 9 && EmptySquares(Replay(moves)) == 9 - |moves|
    ensures Winner(Replay(moves)) != Empty ==> |moves| > 0 && Winner(Replay(moves)) == MarkOf(|moves| - 1)
    decreases |moves|
  {
    if moves == [] {
      AllEmpty(EMPTY_BOARD);
      NobodyHasWonYet();
    } else {
      var before := moves[..|moves| - 1];
      LegalGames(before);
      FillOne(Replay(before), moves[|moves| - 1] as int, MarkOf(|moves| - 1));
      OnlyTheMoverCanWin(Replay(before), moves[|moves| - 1], MarkOf(|moves| - 1));
    }
  }

  lemma LegalExtends(moves: seq<Square>, p: Square)
    requires Legal(moves) && !Concluded(Replay(moves)) && Replay(moves)[p] == Empty
    ensures Legal(moves + [p]) && Replay(moves + [p]) == Replay(moves)[p := MarkOf(|moves|)]
  {
    assert (moves + [p])[..|moves|] == moves;
  }

  // ---- What every run keeps ----

  function Positions(q: seq<Wire<int>>): seq<int> {
    if q == [] then [] else (if q[0].Data? then [q[0].payload] else []) + Positions(q[1..])
  }

  function AsInts(q: seq<Square>): (r: seq<int>)
    ensures |r| == |q|
  {
    seq(|q|, i requires 0 <= i < |q| => q[i] as int)
  }

  /** The moves of the other end that `e` has still to handle. */
  function Flight(e: End, other: End): seq<int> {
    Positions(e.pending + e.inbox) + AsInts(other.sending)
  }

  function Verdict(b: Board, mine: Mark): Outcome {
    if Winner(b) == Empty then Draw else if Winner(b) == mine then Won else Lost
  }

  /** The board shows the match, lacking at most a last move, and that the other player's. */
  predicate OnTheBoard(e: End, moves: seq<Square>) {
    && e.seen <= |moves| <= e.seen + 1
    && (e.seen < |moves| ==> e.side.mine != MarkOf(e.seen))
    && e.side.board == Replay(moves[..e.seen])
    && (!Concluded(e.side.board) ==> e.side.turn == MarkOf(e.seen))
  }

  /** A missing move is on its way, unless the connection is gone; nothing else is. */
  predicate OnTheWay(up: bool, e: End, flight: seq<int>, moves: seq<Square>) {
    if e.seen >= |moves| then flight == []
    else flight == [moves[e.seen] as int] || (!up && flight == [])
  }

  /** The end of the match is announced at most once, and truthfully. */
  predicate Announced(e: End) {
    && |e.announced| <= 1
    && (e.side.done <==> e.silenced || e.announced != [])
    && !(e.silenced && e.announced != [])
    && (Concluded(e.side.board) ==> e.announced == [Verdict(e.side.board, e.side.mine)])
    && (!Concluded(e.side.board) && e.announced != [] ==>
         e.announced[0] in {Resigned, OpponentResigned, ConnectionLost})
  }

  /** Only a player who has resigned is heard to have resigned. */
  predicate Heard(e: End, other: End) {
    Resignation in e.pending + e.inbox || e.announced == [OpponentResigned] ==> other.announced == [Resigned]
  }

  /** While the match goes on the end is listening, or about to handle what it heard. */
  predicate Pumping(up: bool, e: End) {
    && |e.pending| <= 1
    && (e.armed ==> e.pending == [])
    && (!e.side.done ==> e.armed || e.pending != [])
    && (e.side.done ==> !up)
    && (up ==> false !in e.reports && forall w :: w in e.pending + e.inbox ==> w.Data?)
  }

  predicate EndGood(up: bool, e: End, other: End, moves: seq<Square>) {
    && OnTheBoard(e, moves)
    && OnTheWay(up, e, Flight(e, other), moves)
    && Announced(e)
    && Heard(e, other)
    && Pumping(up, e)
  }

  predicate Good(s: System) {
    && Legal(s.moves)
    && s.a.side.mine != Empty && s.b.side.mine == s.a.side.mine.Other()
    && EndGood(s.up, s.a, s.b, s.moves)
    && EndGood(s.up, s.b, s.a, s.moves)
  }

  // ---- Queues ----

  lemma {:induction false} PositionsConcat(p: seq<Wire<int>>, q: seq<Wire<int>>)
    ensures Positions(p + q) == Positions(p) + Positions(q)
  {
    if p == [] {
      assert p + q == q;
    } else {
      var head := if p[0].Data? then [p[0].payload] else [];
      var (x, y) := (Positions(p[1..]), Positions(q));
      assert Positions(p + q) == head + (x + y) by {
        PositionsConcat(p[1..], q);
        PositionsHead(p + q);
        assert (p + q)[1..] == p[1..] + q;
      }
      assert head + (x + y) == (head + x) + y;
      PositionsHead(p);
    }
  }

  lemma PositionsHead(q: seq<Wire<int>>)
    requires q != []
    ensures Positions(q) == (if q[0].Data? then [q[0].payload] else []) + Positions(q[1..])
  {}

  /** Sending adds to the end of what is under way. */
  lemma InboxGrows(e: End, more: seq<Wire<int>>)
    ensures Positions(e.pending + (e.inbox + more)) == Positions(e.pending + e.inbox) + Positions(more)
    ensures forall w :: w in e.pending + (e.inbox + more) <==> w in e.pending + e.inbox || w in more
  {
    assert e.pending + (e.inbox + more) == e.pending + e.inbox + more;
    PositionsConcat(e.pending + e.inbox, more);
  }

  lemma InboxCutOff(e: End, kept: nat)
    requires kept <= |e.inbox|
    ensures Positions(e.pending + CutOff(e, kept).inbox) <= Positions(e.pending + e.inbox)
  {
    var q := e.pending + e.inbox;
    assert q == (e.pending + e.inbox[..kept]) + e.inbox[kept..];
    PositionsConcat(e.pending + e.inbox[..kept], e.inbox[kept..]);
    InboxGrows(e.(inbox := e.inbox[..kept]), [Closing]);
  }

  // ---- Each event keeps it ----

  lemma StartGood()
    ensures Good(Start())
  {
    NobodyHasWonYet();
  }

  /** An end depends on the other only through what that is sending and has announced. */
  lemma OtherUnmoved(up: bool, e: End, other: End, other': End, moves: seq<Square>)
    requires EndGood(up, e, other, moves)
    requires other'.sending == other.sending && other'.announced == other.announced
    ensures EndGood(up, e, other', moves)
  {}

  lemma TakeGood(s: System)
    requires Good(s) && CanAct(s.a, Take)
    ensures Good(FirstActs(s, Take))
  {
    TakenGood(s.up, s.a, s.b, s.moves);
    OtherUnmoved(s.up, s.b, s.a, Taken(s.a), s.moves);
  }

  lemma TakenQueue(e: End)
    requires e.pending == [] && e.inbox != []
    ensures var t := Taken(e);
      && Positions(t.pending + t.inbox) == Positions(e.pending + e.inbox)
      && (forall w :: w in t.pending + t.inbox <==> w in e.pending + e.inbox)
  {
    var t := Taken(e);
    assert e.pending + e.inbox == e.inbox;
    if e.inbox[0].Closing? {
      PositionsConcat([e.inbox[0]], e.inbox);
    } else {
      assert t.pending + t.inbox == e.inbox;
    }
  }

  lemma TakenGood(up: bool, e: End, other: End, moves: seq<Square>)
    requires EndGood(up, e, other, moves) && CanAct(e, Take)
    ensures EndGood(up, Taken(e), other, moves)
  {
    TakenQueue(e);
  }

  lemma CutOffGood(s: System, kept: nat, keptOther: nat)
    requires Good(s) && s.up && kept <= |s.a.inbox| && keptOther <= |s.b.inbox|
    ensures EndGood(false, CutOff(s.a, kept), CutOff(s.b, keptOther), s.moves)
  {
    InboxCutOff(s.a, kept);
  }

  /** What is sent leaves the sender and joins the other end's inbox, in one step. */
  lemma SendFlight(s: System, k: nat, lucky: bool)
    requires Good(s) && CanAct(s.a, Send(k, lucky))
    ensures var t := FirstActs(s, Send(k, lucky));
      && Flight(t.a, t.b) == Flight(s.a, s.b)
      && (if s.up then Flight(t.b, t.a) == Flight(s.b, s.a) else Flight(t.b, t.a) == [])
  {
    assert s.a.sending == [s.a.sending[0]] && FirstActs(s, Send(k, lucky)).a.sending == [];
    if s.up {
      InboxGrows(s.b, [Data(s.a.sending[k] as int)]);
    }
  }

  lemma SendGood(s: System, k: nat, lucky: bool)
    requires Good(s) && CanAct(s.a, Send(k, lucky))
    ensures Good(FirstActs(s, Send(k, lucky)))
  {
    var t := FirstActs(s, Send(k, lucky));
    SendFlight(s, k, lucky);
    assert OnTheBoard(t.a, t.moves) && OnTheWay(t.up, t.a, Flight(t.a, t.b), t.moves);
    assert Announced(t.a) && Heard(t.a, t.b);
    assert Pumping(t.up, t.a);
    assert OnTheBoard(t.b, t.moves) && OnTheWay(t.up, t.b, Flight(t.b, t.a), t.moves);
    assert Announced(t.b) && Heard(t.b, t.a);
    assert Pumping(t.up, t.b);
  }

  lemma ReportGood(s: System, delivered: bool)
    requires Good(s) && CanAct(s.a, Report(delivered))
    ensures Good(FirstActs(s, Report(delivered)))
  {
    var t := FirstActs(s, Report(delivered));
    OtherUnmoved(s.up, s.b, s.a, t.a, s.moves);
    assert Flight(t.a, t.b) == Flight(s.a, s.b);
    assert Announced(t.a) && Pumping(t.up, t.a);
  }

  /** If the next move is this player's then neither board lacks one. */
  lemma NobodyIsBehind(seen: nat, otherSeen: nat, n: nat, mine: Mark)
    requires seen <= n <= seen + 1 && (seen < n ==> mine != MarkOf(seen))
    requires otherSeen <= n <= otherSeen + 1 && (otherSeen < n ==> mine.Other() != MarkOf(otherSeen))
    requires mine == MarkOf(seen)
    ensures seen == otherSeen == n
  {
    assert seen == n;
    assert n > 0 ==> MarkOf(n) == MarkOf(n - 1).Other();
  }

  /** The player to move is up to date, and so is the opponent. */
  lemma MoverIsUpToDate(e: End, other: End, moves: seq<Square>)
    requires OnTheBoard(e, moves) && OnTheBoard(other, moves) && Announced(e)
    requires other.side.mine == e.side.mine.Other() && e.side.mine != Empty
    requires !e.side.done && e.side.turn == e.side.mine
    ensures e.seen == other.seen == |moves| && e.side.mine == MarkOf(|moves|)
    ensures !Concluded(Replay(moves)) && e.side.board == other.side.board == Replay(moves)
  {
    assert e.announced == [];
    NobodyIsBehind(e.seen, other.seen, |moves|, e.side.mine);
    assert moves[..|moves|] == moves;
  }

  // A move that is accepted.

  predicate Accepted(s: System, p: Square) {
    !s.a.side.done && s.a.side.turn == s.a.side.mine && s.a.side.board[p] == Empty
  }

  lemma PlacedFlight(s: System, p: Square)
    requires Good(s) && Accepted(s, p)
    ensures var t := Pressed(s, Place(p));
      Flight(t.a, t.b) == [] && (Flight(t.b, t.a) == [p as int] || (!t.up && Flight(t.b, t.a) == []))
  {
    var r := HandleKey(s.a.side, Place(p));
    MoverIsUpToDate(s.a, s.b, s.moves);
    assert s.a.sending == [] && s.b.sending == [];
    if s.up {
      InboxGrows(s.b, r.sent);
      InboxGrows(s.a, [Closing]);
    }
  }

  /** The moves afterwards, and the mover's board. */
  lemma PlacedMoves(s: System, p: Square)
    requires Good(s) && Accepted(s, p)
    ensures var t := Pressed(s, Place(p)); var moves := s.moves + [p];
      && t.moves == moves && Legal(moves)
      && t.a.side.board == Replay(moves) && t.a.seen == |moves| && t.a.side.mine == MarkOf(|s.moves|)
      && (!Concluded(Replay(moves)) ==> t.a.side.turn == MarkOf(|moves|))
      && t.b.side == s.b.side && t.b.seen == s.b.seen == |s.moves| && t.b.side.board == Replay(s.moves)
  {
    MoverIsUpToDate(s.a, s.b, s.moves);
    LegalExtends(s.moves, p);
  }

  lemma PlacedBoards(s: System, p: Square)
    requires Good(s) && Accepted(s, p)
    ensures var t := Pressed(s, Place(p));
      && t.moves == s.moves + [p] && Legal(t.moves)
      && OnTheBoard(t.a, t.moves) && OnTheBoard(t.b, t.moves)
      && t.a.seen == |t.moves| && t.b.seen == |s.moves|
      && !Concluded(t.b.side.board)
      && (Winner(t.a.side.board) != Empty ==> Winner(t.a.side.board) == t.a.side.mine)
  {
    PlacedMoves(s, p);
    var moves := s.moves + [p];
    LegalGames(moves);
    MoverIsUpToDate(s.a, s.b, s.moves);
    ShownBoards(Pressed(s, Place(p)).a, Pressed(s, Place(p)).b, s.moves, p);
  }

  lemma ShownBoards(e: End, other: End, before: seq<Square>, p: Square)
    requires e.seen == |before| + 1 && e.side.board == Replay(before + [p])
    requires !Concluded(e.side.board) ==> e.side.turn == MarkOf(|before| + 1)
    requires other.seen == |before| && other.side.board == Replay(before)
    requires other.side.mine != MarkOf(|before|) && other.side.turn == MarkOf(|before|)
    ensures OnTheBoard(e, before + [p]) && OnTheBoard(other, before + [p])
  {
    var moves := before + [p];
    assert moves[..|moves|] == moves && moves[..|before|] == before;
  }

  /** A reaction neither loses the listener nor says more of a resignation than is true. */
  predicate Plumbed(s: System) {
    Pumping(s.up, s.a) && Pumping(s.up, s.b) && Heard(s.a, s.b) && Heard(s.b, s.a)
  }

  /** The reaction re-arms the listener, closes what it ends, and tells of a resignation only after one. */
  predicate Proper(up: bool, e: End, other: End, r: Reaction) {
    && |e.pending| <= 1 && (e.armed ==> e.pending == []) && (r.next.Listen? ==> e.pending == [])
    && (!r.side.done ==> e.armed || e.pending != [] || r.next.Listen?)
    && (up ==> false !in e.reports && forall w :: w in e.pending + e.inbox ==> w.Data?)
    && (r.side.done && up ==> r.sent != [])
    && (r.next == Announce(OpponentResigned) || Resignation in e.pending + e.inbox ==> other.announced == [Resigned])
    && (e.announced == [OpponentResigned] ==> other.announced == [Resigned])
    && (r.next.Announce? ==> e.announced == [])
    && (Resignation in r.sent ==> r.next == Announce(Resigned))
  }

  lemma AfterPlumbed(s: System, r: Reaction)
    requires Proper(s.up, s.a, s.b, r) && Pumping(s.up, s.b) && Heard(s.b, s.a)
    ensures Plumbed(After(s, r))
  {
    InboxGrows(s.b, r.sent);
    InboxGrows(s.a, [Closing]);
    var t := After(s, r);
    assert Pumping(t.up, t.a);
    assert r.next.Announce? ==> t.a.announced[0] == r.next.result;
    assert Heard(t.a, t.b);
  }

  lemma Assembled(s: System)
    requires Legal(s.moves) && s.a.side.mine != Empty && s.b.side.mine == s.a.side.mine.Other()
    requires OnTheBoard(s.a, s.moves) && OnTheBoard(s.b, s.moves) && Announced(s.a) && Announced(s.b)
    requires OnTheWay(s.up, s.a, Flight(s.a, s.b), s.moves) && OnTheWay(s.up, s.b, Flight(s.b, s.a), s.moves)
    requires Plumbed(s)
    ensures Good(s)
  {}

  lemma PlacedAnnounced(s: System, p: Square)
    requires Good(s) && Accepted(s, p)
    ensures var t := Pressed(s, Place(p)); Announced(t.a) && Announced(t.b)
  {
    PlacedBoards(s, p);
    assert s.a.announced == [] && !s.a.silenced;
    var r := HandleKey(s.a.side, Place(p));
    var me := Reacted(s.a, r);
    assert me.announced == if r.next.Announce? then [r.next.result] else [];
    assert Announced(me);
  }

  lemma PlacedPlumbed(s: System, p: Square)
    requires Good(s) && Accepted(s, p)
    ensures Plumbed(Pressed(s, Place(p)))
  {
    assert s.a.announced == [];
    assert !HandleKey(s.a.side, Place(p)).next.Listen?;
    AfterPlumbed(s, HandleKey(s.a.side, Place(p)));
  }

  lemma PlacedOnTheWay(s: System, p: Square)
    requires Good(s) && Accepted(s, p)
    ensures var t := Pressed(s, Place(p));
      OnTheWay(t.up, t.a, Flight(t.a, t.b), t.moves) && OnTheWay(t.up, t.b, Flight(t.b, t.a), t.moves)
  {
    PlacedFlight(s, p);
    PlacedMoves(s, p);
  }

  lemma PlacedGood(s: System, p: Square)
    requires Good(s) && Accepted(s, p)
    ensures Good(Pressed(s, Place(p)))
  {
    PlacedOnTheWay(s, p);
    PlacedBoards(s, p);
    PlacedPlumbed(s, p);
    PlacedAnnounced(s, p);
    SidesKept(s, p);
    Assembled(Pressed(s, Place(p)));
  }

  lemma SidesKept(s: System, p: Square)
    ensures var t := Pressed(s, Place(p)); t.a.side.mine == s.a.side.mine && t.b.side.mine == s.b.side.mine
  {}

  lemma PlaceGood(s: System, p: Square)
    requires Good(s)
    ensures Good(Pressed(s, Place(p)))
  {
    if Accepted(s, p) {
      PlacedGood(s, p);
    } else {
      assert Pressed(s, Place(p)) == s;
    }
  }

  // Reactions that send no move.

  lemma FlightAfter(s: System, r: Reaction)
    requires Positions(r.sent) == [] && !r.next.SendLater?
    ensures Flight(After(s, r).a, After(s, r).b) == Flight(s.a, s.b)
      && Flight(After(s, r).b, After(s, r).a) == Flight(s.b, s.a)
  {
    if s.up && r.sent != [] {
      InboxGrows(s.b, r.sent);
      InboxGrows(s.a, [Closing]);
    }
  }

  lemma QuitProper(up: bool, e: End, other: End)
    requires Announced(e) && Heard(e, other) && Pumping(up, e)
    ensures Proper(up, e, other, HandleKey(e.side, Quit)) && Announced(Reacted(e, HandleKey(e.side, Quit)))
  {}

  lemma QuitGood(s: System)
    requires Good(s)
    ensures Good(Pressed(s, Quit))
  {
    var t := Pressed(s, Quit);
    QuitProper(s.up, s.a, s.b);
    FlightAfter(s, HandleKey(s.a.side, Quit));
    AfterPlumbed(s, HandleKey(s.a.side, Quit));
    assert OnTheBoard(t.a, t.moves) && OnTheBoard(t.b, t.moves);
    Assembled(t);
  }

  lemma HandledFlight(s: System)
    requires |s.a.pending| == 1
    ensures var t := Handling(s); var w := s.a.pending[0];
      && Flight(s.a, s.b) == (if w.Data? then [w.payload] else []) + Flight(t.a, t.b)
      && Flight(t.b, t.a) == Flight(s.b, s.a)
  {
    var w := s.a.pending[0];
    var e := s.a.(pending := []);
    FlightAfter(s.(a := e), HandleEvent(s.a.side, w));
    assert s.a.pending == [w] && [] + s.a.inbox == s.a.inbox;
    PositionsConcat([w], s.a.inbox);
  }

  /** A move that arrives is the one missing, and goes where it was put. */
  lemma HandledMove(s: System)
    requires Good(s) && s.a.pending != [] && s.a.pending[0].Data? && !s.a.side.done
    ensures s.a.seen + 1 == |s.moves| && Replay(s.moves[..|s.moves|]) == Replay(s.moves)
    ensures Marked(s.a.side, s.a.pending[0].payload) == Replay(s.moves) != s.a.side.board
    ensures s.a.side.mine == MarkOf(|s.moves|) && Winner(Replay(s.moves)) != s.a.side.mine
  {
    var n := |s.moves| - 1;
    assert s.a.seen == n && s.a.pending[0].payload == s.moves[n] as int by {
      HandledFlight(s);
      assert Flight(s.a, s.b)[0] == s.a.pending[0].payload;
    }
    assert s.moves[..|s.moves|] == s.moves;
    OtherMark(s.a.side.mine, n);
    LegalGames(s.moves);
  }

  lemma OtherMark(mine: Mark, n: nat)
    requires mine != Empty && mine != MarkOf(n)
    ensures mine == MarkOf(n + 1) && mine.Other() == MarkOf(n)
  {}

  lemma HandledMoveBoards(s: System)
    requires Good(s) && s.a.pending != [] && s.a.pending[0].Data? && !s.a.side.done
    ensures var t := Handling(s);
      t.a.seen == |s.moves| && OnTheBoard(t.a, s.moves) && Announced(t.a)
  {
    HandledMove(s);
    var t := Handling(s).a;
    assert t.seen == |s.moves| && t.side.board == Replay(s.moves);
    assert s.a.announced == [];
  }

  lemma HandledElseBoards(s: System)
    requires Good(s) && s.a.pending != [] && (!s.a.pending[0].Data? || s.a.side.done)
    ensures var t := Handling(s);
      t.a.seen == s.a.seen && OnTheBoard(t.a, s.moves) && Announced(t.a)
  {
    var t := Handling(s).a;
    assert t.seen == s.a.seen && t.side.board == s.a.side.board;
  }

  lemma HandleProper(up: bool, e: End, other: End)
    requires Announced(e) && Heard(e, other) && Pumping(up, e) && e.pending != []
    ensures Proper(up, e.(pending := []), other, HandleEvent(e.side, e.pending[0]))
  {
    var w := e.pending[0];
    var q := e.pending + e.inbox;
    assert q[0] == w && q[1..] == e.inbox;
    assert w in q && forall x :: x in e.inbox ==> x in q;
    var d := e.(pending := []);
    assert d.pending + d.inbox == e.inbox;
    ReactionProper(e.side, w);
  }

  /** A reaction to an event listens again or ends the match, and closes what it ends if that is open. */
  lemma ReactionProper(s: Side, w: Wire<int>)
    ensures var r := HandleEvent(s, w);
      && Resignation !in r.sent
      && (r.side.done || r.next.Listen?)
      && (r.side.done && !s.done && !w.Closing? ==> r.sent != [])
      && (r.next == Announce(OpponentResigned) ==> w == Resignation)
      && (r.next.Announce? ==> !s.done)
  {}

  lemma HandlePlumbed(s: System)
    requires Good(s) && s.a.pending != []
    ensures Plumbed(Handling(s))
  {
    HandleProper(s.up, s.a, s.b);
    AfterPlumbed(s.(a := s.a.(pending := [])), HandleEvent(s.a.side, s.a.pending[0]));
  }

  lemma HandledOnTheWay(s: System)
    requires Good(s) && s.a.pending != []
    ensures var t := Handling(s);
      && OnTheWay(t.up, t.a, Flight(t.a, t.b), s.moves) && OnTheWay(t.up, t.b, Flight(t.b, t.a), s.moves)
      && t.b.side == s.b.side && t.b.seen == s.b.seen && t.moves == s.moves && t.a.side.mine == s.a.side.mine
      && t.b.announced == s.b.announced && t.b.silenced == s.b.silenced
  {
    HandledFlight(s);
    if s.a.pending[0].Data? && !s.a.side.done {
      HandledMove(s);
    }
  }

  lemma HandleGood(s: System)
    requires Good(s) && s.a.pending != []
    ensures Good(Handling(s))
  {
    HandledOnTheWay(s);
    HandlePlumbed(s);
    if s.a.pending[0].Data? && !s.a.side.done {
      HandledMoveBoards(s);
    } else {
      HandledElseBoards(s);
    }
    Assembled(Handling(s));
  }

  lemma FirstActsGood(s: System, act: Act)
    requires Good(s) && CanAct(s.a, act)
    ensures Good(FirstActs(s, act))
  {
    match act
    case Press(key) => if key.Quit? { QuitGood(s); } else { PlaceGood(s, key.p); }
    case Send(k, lucky) => SendGood(s, k, lucky);
    case Report(delivered) => ReportGood(s, delivered);
    case Take => TakeGood(s);
    case Handle => HandleGood(s);
  }

  lemma NextGood(s: System, e: Event)
    requires Good(s) && Enabled(s, e)
    ensures Good(Next(s, e))
  {
    match e
    case ByA(act) => FirstActsGood(s, act);
    case ByB(act) => FirstActsGood(Swap(s), act);
    case Fail(keptA, keptB) =>
      if s.up {
        CutOffGood(s, keptA, keptB);
        CutOffGood(Swap(s), keptB, keptA);
      }
  }

  // ---- Runs ----

  predicate CanRun(s: System, run: seq<Event>)
    decreases |run|
  {
    run == [] || (Enabled(s, run[0]) && CanRun(Next(s, run[0]), run[1..]))
  }

  function Run(s: System, run: seq<Event>): System
    requires CanRun(s, run)
    decreases |run|
  {
    if run == [] then s else Run(Next(s, run[0]), run[1..])
  }

  lemma {:induction false} RunGood(s: System, run: seq<Event>)
    requires Good(s) && CanRun(s, run)
    ensures Good(Run(s, run))
    decreases |run|
  {
    if run != [] {
      NextGood(s, run[0]);
      RunGood(Next(s, run[0]), run[1..]);
    }
  }

  predicate MayMove(s: Side) {
    !s.done && s.turn == s.mine
  }

  /** The board shows the whole match, or lacks only a last move of the other player's. */
  predicate Shows(e: End, moves: seq<Square>) {
    || e.side.board == Replay(moves)
    || (moves != [] && e.side.board == Replay(moves[..|moves| - 1]) && e.side.mine != MarkOf(|moves| - 1))
  }

  lemma BoardShows(e: End, moves: seq<Square>)
    requires OnTheBoard(e, moves)
    ensures Shows(e, moves)
  {
    assert moves[..|moves|] == moves;
  }

  lemma NotBothToMove(s: System)
    requires Good(s)
    ensures !(MayMove(s.a.side) && MayMove(s.b.side))
  {
    if MayMove(s.a.side) {
      MoverIsUpToDate(s.a, s.b, s.moves);
    }
  }

  /**
   In every run, whatever the players press and however the connection fares: the marks placed
   make a legal game; each board shows all of them, or all but the last; and the two players
   are never both to move.
   */
  lemma BoardsAgree(run: seq<Event>)
    requires CanRun(Start(), run)
    ensures var s := Run(Start(), run);
      && Legal(s.moves) && |s.moves| <= 9
      && Shows(s.a, s.moves) && Shows(s.b, s.moves)
      && !(MayMove(s.a.side) && MayMove(s.b.side))
  {
    StartGood();
    RunGood(Start(), run);
    var s := Run(Start(), run);
    LegalGames(s.moves);
    BoardShows(s.a, s.moves);
    BoardShows(s.b, s.moves);
    NotBothToMove(s);
  }

  predicate Wins(e: End) {
    e.announced == [Won] || e.announced == [OpponentResigned]
  }

  lemma OpenBeforeLast(moves: seq<Square>, k: nat)
    requires Legal(moves) && k + 1 == |moves|
    ensures !Concluded(Replay(moves[..k]))
  {}

  /** A player told of a win has completed a line, with the last move of the match. */
  lemma WonBoard(e: End, moves: seq<Square>)
    requires OnTheBoard(e, moves) && Announced(e) && Legal(moves) && e.announced == [Won]
    ensures e.seen == |moves| && Winner(Replay(moves)) == e.side.mine != Empty
  {
    WonVerdict(e);
    if e.seen + 1 == |moves| {
      OpenBeforeLast(moves, e.seen);
    }
    assert e.seen == |moves| && moves[..|moves|] == moves;
  }

  lemma WonVerdict(e: End)
    requires Announced(e) && e.announced == [Won]
    ensures Concluded(e.side.board) && Winner(e.side.board) == e.side.mine != Empty
  {
    assert e.announced[0] == Won;
    assert [Verdict(e.side.board, e.side.mine)][0] == Verdict(e.side.board, e.side.mine);
  }

  lemma OneWinner(s: System)
    requires Good(s)
    ensures !(Wins(s.a) && Wins(s.b))
  {
    if s.a.announced == [Won] && s.b.announced == [Won] {
      WonBoard(s.a, s.moves);
      WonBoard(s.b, s.moves);
    }
  }

  /** In every run each player is told of the end at most once, and the two are never both told they won. */
  lemma OneWinnerAtMost(run: seq<Event>)
    requires CanRun(Start(), run)
    ensures var s := Run(Start(), run);
      |s.a.announced| <= 1 && |s.b.announced| <= 1 && !(Wins(s.a) && Wins(s.b))
  {
    StartGood();
    RunGood(Start(), run);
    OneWinner(Run(Start(), run));
  }

  // ---- Matches played to the end ----

  /** Nobody resigns and the connection holds. */
  predicate Quiet(e: Event) {
    !e.Fail? && e.act != Press(Quit)
  }

  /** The closed connection still carries the last move. */
  predicate Finishing(e: End, moves: seq<Square>) {
    && false !in e.reports
    && e.sending == []
    && (e.seen < |moves| ==> !e.side.done && e.pending + e.inbox != [] && (e.pending + e.inbox)[0].Data?)
  }

  /** While nobody resigns and the connection holds, it is closed by the end of the match alone. */
  predicate Clean(s: System) {
    if s.up then !Concluded(Replay(s.moves))
    else Concluded(Replay(s.moves)) && Finishing(s.a, s.moves) && Finishing(s.b, s.moves)
  }

  lemma {:induction false} AllMoves(q: seq<Wire<int>>)
    requires forall w :: w in q ==> w.Data?
    ensures |Positions(q)| == |q|
  {
    if q != [] {
      AllMoves(q[1..]);
    }
  }

  /** Before a move is made nothing else is under way. */
  lemma NothingWaits(s: System, p: Square)
    requires Good(s) && Clean(s) && Accepted(s, p)
    ensures s.up && s.a.sending == [] && s.b.sending == [] && false !in s.a.reports && false !in s.b.reports
    ensures s.b.pending == [] && s.b.inbox == [] && !s.b.side.done
  {
    MoverIsUpToDate(s.a, s.b, s.moves);
    AllMoves(s.b.pending + s.b.inbox);
    assert |s.b.pending + s.b.inbox| == |s.b.pending| + |s.b.inbox|;
  }

  /** A move closes the connection, itself ahead of the closing, exactly if it ends the match. */
  lemma PlacedCloses(s: System, p: Square)
    requires s.up && Accepted(s, p) && s.a.sending == [] && s.b.sending == [] && s.b.pending == [] && s.b.inbox == []
    ensures var t := Pressed(s, Place(p));
      && (t.up <==> !Concluded(t.a.side.board))
      && (!t.up ==>
           t.a.sending == [] && t.b.sending == [] && t.b.pending == [] && t.b.inbox == [Data(p as int), Closing])
      && t.a.reports == s.a.reports && t.b.reports == s.b.reports && t.b.side == s.b.side && t.b.seen == s.b.seen
  {}

  lemma PlacedClean(s: System, p: Square)
    requires Good(s) && Clean(s)
    ensures Clean(Pressed(s, Place(p)))
  {
    if Accepted(s, p) {
      MovedClean(s, p);
    } else {
      assert Pressed(s, Place(p)) == s;
    }
  }

  lemma MovedClean(s: System, p: Square)
    requires Good(s) && Clean(s) && Accepted(s, p)
    ensures Clean(Pressed(s, Place(p)))
  {
    var t := Pressed(s, Place(p));
    PlacedMoves(s, p);
    NothingWaits(s, p);
    PlacedCloses(s, p);
    ClosedClean(t, p);
  }

  lemma ClosedClean(t: System, p: Square)
    requires t.a.seen == |t.moves| && (t.up <==> !Concluded(Replay(t.moves)))
    requires false !in t.a.reports && false !in t.b.reports && !t.b.side.done
    requires !t.up ==>
      t.a.sending == [] && t.b.sending == [] && t.b.pending == [] && t.b.inbox == [Data(p as int), Closing]
    ensures Clean(t)
  {
    if !t.up {
      assert (t.b.pending + t.b.inbox)[0] == Data(p as int);
    }
  }

  lemma HandledClean(s: System)
    requires Good(s) && Clean(s) && s.a.pending != []
    ensures Clean(Handling(s))
  {
    var t := Handling(s);
    if s.a.side.done {
      assert t.a.seen == s.a.seen;
    } else {
      assert s.moves[..|s.moves|] == s.moves;
      assert (s.a.pending + s.a.inbox)[0] == s.a.pending[0];
      assert s.a.pending[0] in s.a.pending + s.a.inbox;
      HandledMove(s);
      HandledMoveBoards(s);
    }
  }

  lemma FirstActsClean(s: System, act: Act)
    requires Good(s) && Clean(s) && CanAct(s.a, act) && act != Press(Quit)
    ensures Clean(FirstActs(s, act))
  {
    match act
    case Press(key) => PlacedClean(s, key.p);
    case Send(k, lucky) =>
      assert s.up;
    case Report(delivered) =>
      assert delivered;
    case Take =>
      assert s.a.pending + s.a.inbox == s.a.inbox;
    case Handle => HandledClean(s);
  }

  lemma {:induction false} RunClean(s: System, run: seq<Event>)
    requires Good(s) && Clean(s) && CanRun(s, run) && forall e :: e in run ==> Quiet(e)
    ensures Good(Run(s, run)) && Clean(Run(s, run))
    decreases |run|
  {
    if run != [] {
      assert Quiet(run[0]);
      NextGood(s, run[0]);
      match run[0] {
        case ByA(act) => FirstActsClean(s, act);
        case ByB(act) => FirstActsClean(Swap(s), act);
      }
      RunClean(Next(s, run[0]), run[1..]);
    }
  }

  predicate Complementary(x: Outcome, y: Outcome) {
    (x == Won && y == Lost) || (x == Lost && y == Won) || (x == Draw && y == Draw)
  }

  lemma FinishedAgree(s: System)
    requires Good(s) && Clean(s) && s.a.side.done && s.b.side.done
    ensures Concluded(Replay(s.moves)) && s.a.side.board == s.b.side.board == Replay(s.moves)
    ensures |s.a.announced| == 1 && |s.b.announced| == 1 && Complementary(s.a.announced[0], s.b.announced[0])
  {
    assert s.moves[..|s.moves|] == s.moves;
    LegalGames(s.moves);
  }

  /**
   When nobody resigns and the connection holds, both players, once they are done, see the same
   finished board and are told results that fit: a win and a loss, or a draw each.
   */
  lemma ResultsFit(run: seq<Event>)
    requires CanRun(Start(), run) && forall e :: e in run ==> Quiet(e)
    requires Run(Start(), run).a.side.done && Run(Start(), run).b.side.done
    ensures var s := Run(Start(), run);
      && Concluded(Replay(s.moves)) && s.a.side.board == s.b.side.board == Replay(s.moves)
      && |s.a.announced| == 1 && |s.b.announced| == 1 && Complementary(s.a.announced[0], s.b.announced[0])
  {
    StartGood();
    NobodyHasWonYet();
    RunClean(Start(), run);
    FinishedAgree(Run(Start(), run));
  }

  /** The player has been told a result that fits the other's. */
  predicate ToldToo(e: End, other: End) {
    e.side.done && |e.announced| == 1 && |other.announced| == 1 && Complementary(e.announced[0], other.announced[0])
  }

  lemma LastMoveHandled(s: System)
    requires Good(s) && Clean(s) && !s.a.side.done && s.b.side.done && s.a.pending != []
    ensures ToldToo(Handling(s).a, s.b)
  {
    HandleGood(s);
    HandledClean(s);
    HandledOnTheWay(s);
    assert s.moves[..|s.moves|] == s.moves;
    assert (s.a.pending + s.a.inbox)[0] == s.a.pending[0];
    HandledMoveBoards(s);
    FinishedAgree(Handling(s));
  }

  lemma LastMoveWaits(s: System)
    requires Good(s) && Clean(s) && !s.a.side.done && s.b.side.done
    ensures s.a.pending != [] || (s.a.armed && s.a.inbox != [])
  {
    assert s.moves[..|s.moves|] == s.moves;
  }

  lemma LastMoveTaken(s: System)
    requires Good(s) && Clean(s) && !s.a.side.done && s.b.side.done && s.a.pending == []
    ensures s.a.armed && s.a.inbox != [] && ToldToo(Handling(FirstActs(s, Take)).a, s.b)
  {
    LastMoveWaits(s);
    TakeGood(s);
    FirstActsClean(s, Take);
    LastMoveHandled(FirstActs(s, Take));
  }

  /**
   A player still waiting when the other is done has the last move next, and learns the
   fitting result from it.
   */
  lemma LastMoveArrives(run: seq<Event>, s: System)
    requires CanRun(Start(), run) && forall e :: e in run ==> Quiet(e)
    requires s == Run(Start(), run) || s == Swap(Run(Start(), run))
    requires !s.a.side.done && s.b.side.done
    ensures if s.a.pending != [] then ToldToo(Handling(s).a, s.b)
      else CanAct(s.a, Take) && ToldToo(Handling(FirstActs(s, Take)).a, s.b)
  {
    StartGood();
    NobodyHasWonYet();
    RunClean(Start(), run);
    if s.a.pending != [] {
      LastMoveHandled(s);
    } else {
      LastMoveTaken(s);
    }
  }

  // ---- A failed send ----

  /**
   A match can end without its player being told: the connection fails before a move is sent,
   and the report of that is all it takes.
   */
  lemma FailedSendIsSilent()
    ensures var run := [ByA(Press(Place(4))), Fail(0, 0), ByA(Send(0, false)), ByA(Report(false))];
      && CanRun(Start(), run)
      && Run(Start(), run).a.side.done && Run(Start(), run).a.announced == []
  {
    FirstMoveIsSending();
    FailedSendFrom(Next(Start(), ByA(Press(Place(4)))));
    var rest := [Fail(0, 0), ByA(Send(0, false)), ByA(Report(false))];
    assert ([ByA(Press(Place(4)))] + rest)[1..] == rest;
    assert [ByA(Press(Place(4)))] + rest == [ByA(Press(Place(4))), Fail(0, 0), ByA(Send(0, false)), ByA(Report(false))];
  }

  lemma FirstMoveIsSending()
    ensures var s1 := Next(Start(), ByA(Press(Place(4))));
      s1.up && s1.a.sending == [4] && !s1.a.side.done && s1.a.announced == []
  {
    OneMarkDecidesNothing();
  }

  lemma FailedSendFrom(s1: System)
    requires s1.up && s1.a.sending == [4] && !s1.a.side.done && s1.a.announced == []
    ensures var rest := [Fail(0, 0), ByA(Send(0, false)), ByA(Report(false))];
      CanRun(s1, rest) && Run(s1, rest).a.side.done && Run(s1, rest).a.announced == []
  {
    var s2 := Next(s1, Fail(0, 0));
    var s3 := Next(s2, ByA(Send(0, false)));
    assert false in s3.a.reports;
    var s4 := Next(s3, ByA(Report(false)));
    var rest := [Fail(0, 0), ByA(Send(0, false)), ByA(Report(false))];
    assert rest[1..] == [ByA(Send(0, false)), ByA(Report(false))];
    assert rest[1..][1..] == [ByA(Report(false))];
    assert Run(s3, [ByA(Report(false))]) == s4;
    assert Run(s2, rest[1..]) == s4;
  }

  lemma OneMarkDecidesNothing()
    ensures !Concluded(EMPTY_BOARD[4 := X])
  {
    var b: Board := EMPTY_BOARD[4 := X];
    WinnerExact(b);
    assert b[0] == Empty;
    forall l, m | l in WIN_LINES && m != Empty
      ensures !Holds(b, m, l)
    {
      assert l.a != l.b;
    }
  }

  /**
   A player whose match is over has been told so, unless a failed send was reported before anything
   else ended it; then never.
   */
  lemma ToldUnlessSilenced(run: seq<Event>)
    requires CanRun(Start(), run)
    ensures var s := Run(Start(), run);
      && (s.a.side.done ==> (s.a.announced == [] <==> s.a.silenced))
      && (s.b.side.done ==> (s.b.announced == [] <==> s.b.silenced))
  {
    StartGood();
    RunGood(Start(), run);
  }
}
