/**
 The host's and the guests' message handlers of a networked Ludo match, as functions from a
 peer and a message to the peer afterwards and what it sends. `LudoPeerModel` proves that
 the mutable peers compute these functions; `LudoNet` runs them against each other.
 */
module LudoPeer {
  import opened Wrappers
  import opened LudoBoard
  import opened LudoRules

  /** What a finished instance tells its player. */
  datatype Outcome =
    | NoResult
    | YouWin
    | Wins(name: string)
    | YouLeft
    | GuestLeft(name: string)
    | HostEnded
    | HostLost

  datatype GuestAction = ActRoll | ActMove(id: int) | ActUnknown

  /** What a listener on a guest's session hands to the host: an action, or that the guest is gone. */
  datatype GuestMessage = Acted(action: GuestAction) | Left

  /** What a listener on the host's session hands to a guest. */
  datatype HostMessage = Snapshot(game: State) | EndedByHost | Lost

  datatype Host = Host(game: State, self: string, done: bool, result: Outcome)

  datatype Guest = Guest(view: Option<State>, self: string, done: bool, result: Outcome)

  /**
   What a handler does besides updating the host: broadcasts, resigns, closes, re-arms one listener,
   announces the end.
   */
  datatype HostReaction = HostReaction(
    host: Host, broadcast: Option<State>, resigned: bool, closed: bool, listen: Option<Color>, announced: bool)

  datatype GuestReaction = GuestReaction(guest: Guest, resigned: bool, closed: bool, listen: bool, announced: bool)

  /** The snapshot a guest receives: everything but the unexported run of sixes. */
  function Project(s: State): State {
    s.(sixes := 0)
  }

  /** The first seat bearing the name; Red if there is none. */
  function SeatColorOf(seats: seq<Seat>, name: string): Color {
    if seats == [] then Red
    else if seats[0].name == name then seats[0].color
    else SeatColorOf(seats[1..], name)
  }

  function NameFor(seats: seq<Seat>, c: Color, default: string): string {
    if seats == [] then default
    else if seats[0].color == c then seats[0].name
    else NameFor(seats[1..], c, default)
  }

  function ColorName(c: Color): string {
    match c
    case Red => "Red"
    case Green => "Green"
    case Yellow => "Yellow"
    case Blue => "Blue"
  }

  /** The result text of a won match for the instance called `self`. */
  function WinText(s: State, self: string): Outcome {
    match s.winner
    case None => NoResult
    case Some(w) =>
      if exists i :: 0 <= i < |s.seats| && s.seats[i].color == w
      then if w == SeatColorOf(s.seats, self) then YouWin else Wins(NameFor(s.seats, w, ""))
      else NoResult
  }

  // ---- The host ----

  function Idle(h: Host): HostReaction {
    HostReaction(h, None, false, false, None, false)
  }

  function HostFinish(h: Host, broadcast: Option<State>): HostReaction {
    HostReaction(h.(done := true, result := WinText(h.game, h.self)), broadcast, false, true, None, true)
  }

  function HostFinishWithReason(h: Host, reason: Outcome, resigned: bool): HostReaction {
    HostReaction(h.(done := true, result := reason), None, resigned, true, None, true)
  }

  /** Broadcast, then end the match, or listen to the next seat if it is a guest's. */
  function AfterAction(h: Host): (r: HostReaction)
    requires WellFormed(h.game)
    ensures WellFormed(r.host.game) && |r.host.game.seats| == |h.game.seats|
  {
    var snapshot := Some(Project(h.game));
    if h.game.phase == GameOver then HostFinish(h, snapshot)
    else
      var next := Current(h.game).color;
      HostReaction(h, snapshot, false, false, if next != Red then Some(next) else None, false)
  }

  function ListenAgain(h: Host, seat: Color): HostReaction {
    Idle(h).(listen := Some(seat))
  }

  /** A message from the listener on `seat`'s session; `die` is what the host's die shows if it is rolled. */
  function HostReceive(h: Host, seat: Color, m: GuestMessage, die: Die): (r: HostReaction)
    requires WellFormed(h.game)
    ensures WellFormed(r.host.game) && |r.host.game.seats| == |h.game.seats|
  {
    if h.done then Idle(h)
    else match m
      case Left => HostFinishWithReason(h, GuestLeft(NameFor(h.game.seats, seat, ColorName(seat))), false)
      case Acted(action) =>
        if Current(h.game).color != seat then ListenAgain(h, seat)
        else match action
          case ActRoll => AfterAction(h.(game := ApplyRoll(h.game, die)))
          case ActMove(id) =>
            var r := MoveToken(h.game, id);
            if r.Ok? then AfterAction(h.(game := r.value.next)) else ListenAgain(h, seat)
          case ActUnknown => ListenAgain(h, seat)
  }

  /** The host's own player rolls. */
  function HostRollKey(h: Host, die: Die): (r: HostReaction)
    requires WellFormed(h.game)
    ensures WellFormed(r.host.game) && |r.host.game.seats| == |h.game.seats|
  {
    if h.done || Current(h.game).color != SeatColorOf(h.game.seats, h.self) || h.game.phase != RollDice then Idle(h)
    else AfterAction(h.(game := ApplyRoll(h.game, die)))
  }

  /** The host's own player picks a token. */
  function HostMoveKey(h: Host, id: int): (r: HostReaction)
    requires WellFormed(h.game)
    ensures WellFormed(r.host.game) && |r.host.game.seats| == |h.game.seats|
  {
    if h.done || Current(h.game).color != SeatColorOf(h.game.seats, h.self) || h.game.phase != SelectToken then Idle(h)
    else
      var r := MoveToken(h.game, id);
      if r.Ok? then AfterAction(h.(game := r.value.next)) else Idle(h)
  }

  function HostQuitKey(h: Host): HostReaction {
    if h.done then Idle(h) else HostFinishWithReason(h, YouLeft, true)
  }

  // ---- A guest ----

  function GuestIdle(g: Guest): GuestReaction {
    GuestReaction(g, false, false, false, false)
  }

  function GuestFinishWithReason(g: Guest, reason: Outcome, resigned: bool): GuestReaction {
    GuestReaction(g.(done := true, result := reason), resigned, true, false, true)
  }

  function GuestReceive(g: Guest, m: HostMessage): GuestReaction {
    if g.done then GuestIdle(g)
    else match m
      case EndedByHost => GuestFinishWithReason(g, HostEnded, false)
      case Lost => GuestFinishWithReason(g, HostLost, false)
      case Snapshot(game) =>
        var g' := g.(view := Some(game));
        if game.phase == GameOver then GuestFinishWithReason(g', WinText(game, g.self), false)
        else GuestReaction(g', false, false, true, false)
  }

  function GuestQuitKey(g: Guest): GuestReaction {
    if g.done then GuestIdle(g) else GuestFinishWithReason(g, YouLeft, true)
  }

  /** The actions a guest's keys let through: on its own turn by its own view, a due roll or a legal move. */
  predicate MaySend(g: Guest, action: GuestAction) {
    && !g.done && g.view.Some? && WellFormed(g.view.value)
    && Current(g.view.value).color == SeatColorOf(g.view.value.seats, g.self)
    && match action
       case ActRoll => g.view.value.phase == RollDice
       case ActMove(id) => g.view.value.phase == SelectToken && id in LegalMoves(g.view.value)
       case ActUnknown => false
  }

  // ---- Names and results ----

  predicate DistinctNames(seats: seq<Seat>) {
    forall i, j :: 0 <= i < j < |seats| ==> seats[i].name != seats[j].name
  }

  /** No seat before seat `i` bears its name. */
  predicate FirstBearer(seats: seq<Seat>, i: nat)
    requires i < |seats|
  {
    forall j :: 0 <= j < i ==> seats[j].name != seats[i].name
  }

  lemma {:induction false} SeatColorOfFirst(seats: seq<Seat>, i: nat)
    requires i < |seats| && FirstBearer(seats, i)
    ensures SeatColorOf(seats, seats[i].name) == seats[i].color
  {
    if i > 0 {
      assert seats[0].name != seats[i].name;
      forall j | 0 <= j < i - 1 ensures seats[1..][j].name != seats[1..][i - 1].name {
        assert seats[j + 1].name != seats[i].name;
      }
      SeatColorOfFirst(seats[1..], i - 1);
    }
  }

  lemma {:induction false} EarlierBearer(seats: seq<Seat>, i: nat) returns (j: nat)
    requires i < |seats| && !FirstBearer(seats, i)
    ensures j < i && seats[j].name == seats[i].name && FirstBearer(seats, j)
  {
    j :| j < i && seats[j].name == seats[i].name;
    if !FirstBearer(seats, j) { j := EarlierBearer(seats, j); }
  }

  /** An instance finds its own seat exactly if no earlier seat bears its name. */
  lemma FindsOwnSeatExactly(seats: seq<Seat>, i: nat)
    requires i < |seats| && forall a, b :: 0 <= a < b < |seats| ==> seats[a].color != seats[b].color
    ensures SeatColorOf(seats, seats[i].name) == seats[i].color <==> FirstBearer(seats, i)
  {
    if FirstBearer(seats, i) {
      SeatColorOfFirst(seats, i);
    } else {
      var j := EarlierBearer(seats, i);
      SeatColorOfFirst(seats, j);
    }
  }

  lemma {:induction false} NameForAt(seats: seq<Seat>, i: nat, default: string)
    requires i < |seats| && forall a, b :: 0 <= a < b < |seats| ==> seats[a].color != seats[b].color
    ensures NameFor(seats, seats[i].color, default) == seats[i].name
  {
    if i > 0 {
      assert seats[0].color != seats[i].color;
      assert forall a :: 0 <= a < |seats[1..]| ==> seats[1..][a] == seats[a + 1];
      NameForAt(seats[1..], i - 1, default);
    }
  }

  /** With distinct names exactly the winner's instance reads "you win"; all the others name the winner. */
  lemma WinTextPerSeat(s: State, w: nat, i: nat)
    requires WellFormed(s) && DistinctNames(s.seats)
    requires w < |s.seats| && i < |s.seats| && s.winner == Some(s.seats[w].color)
    ensures WinText(s, s.seats[i].name) == if i == w then YouWin else Wins(s.seats[w].name)
  {
    SeatColorOfFirst(s.seats, i);
    NameForAt(s.seats, w, "");
  }
}
