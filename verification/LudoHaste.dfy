/**
 Runs of a networked Ludo match in which a guest presses its keys faster than the host
 answers. Everything it sends its keys let through, by the position on its screen.
 */
module LudoHaste {
  import opened Wrappers
  import opened LudoBoard
  import opened LudoRules
  import opened LudoInvariant
  import opened LudoPeer
  import opened LudoNet
  import opened LudoChoices
  import opened LudoOvertaking
  import LudoFairness

  /** Whatever a guest sends in this event, its keys let through. */
  predicate Keyed(s: System, e: Event) {
    e.GuestSends? ==> KeyedEvent(s, e, e.i)
  }

  predicate KeyedRun(s: System, es: seq<Event>)
    requires Ready(s) && CanRun(s, es)
    decreases |es|
  {
    es == [] || (Keyed(s, es[0]) && KeyedRun(Next(s, es[0]), es[1..]))
  }

  /** A match between these players can come to `s` with guests that send only what their keys let through. */
  ghost predicate ComesTo(seats: seq<Seat>, s: System) {
    exists es :: RunsFrom(seats, es, s) && KeyedRun(Start(seats), es)
  }

  lemma {:induction false} OneMore(s: System, es: seq<Event>, e: Event)
    requires Ready(s) && CanRun(s, es) && KeyedRun(s, es)
    requires Enabled(Run(s, es), e) && Keyed(Run(s, es), e)
    ensures CanRun(s, es + [e]) && KeyedRun(s, es + [e]) && Run(s, es + [e]) == Next(Run(s, es), e)
    decreases |es|
  {
    if es == [] {
      assert es + [e] == [e] && [e][1..] == [];
    } else {
      assert (es + [e])[0] == es[0] && (es + [e])[1..] == es[1..] + [e];
      OneMore(Next(s, es[0]), es[1..], e);
    }
  }

  lemma ComesToGood(seats: seq<Seat>, s: System)
    requires ComesTo(seats, s)
    ensures Good(s)
  {
    var es :| RunsFrom(seats, es, s) && KeyedRun(Start(seats), es);
    ReachableGood(s);
  }

  lemma Goes(seats: seq<Seat>, s: System, e: Event)
    requires ComesTo(seats, s) && Ready(s) && Enabled(s, e) && Keyed(s, e)
    ensures ComesTo(seats, Next(s, e))
  {
    var es :| RunsFrom(seats, es, s) && KeyedRun(Start(seats), es);
    OneMore(Start(seats), es, e);
    assert RunsFrom(seats, es + [e], Next(s, e));
  }

  /** The first guest does not bear the host's name. */
  predicate TwoNames(seats: seq<Seat>) {
    |seats| >= 2 && seats[1].name != seats[0].name
  }

  // ---- The first guest, its session up and `queue` on its way to the host ----

  ghost predicate Playing(seats: seq<Seat>, s: System, queue: seq<GuestWire>) {
    && ComesTo(seats, s) && Ready(s) && !s.host.done && TwoNames(s.host.game.seats)
    && s.links != [] && s.links[0].up && s.links[0].inbox == multiset{} && s.links[0].toHost == queue
  }

  /** Its screen shows the host's position. */
  predicate UpToDate(s: System) {
    s.links != [] && s.broadcasts != [] && s.links[0].views == s.broadcasts
  }

  lemma KeysLetThrough(seats: seq<Seat>, s: System, action: GuestAction)
    requires ComesTo(seats, s) && Ready(s) && UpToDate(s) && s.links[0].up && TwoNames(s.host.game.seats)
    requires s.host.game.turn == 1 && DueIn(s.host.game, action)
    ensures MaySend(s.links[0].guest, action)
  {
    ComesToGood(seats, s);
    KeysFitExactly(s, 0, action);
  }

  lemma Sends(seats: seq<Seat>, s: System, queue: seq<GuestWire>, action: GuestAction) returns (t: System)
    requires Playing(seats, s, queue) && MaySend(s.links[0].guest, action)
    ensures Playing(seats, t, queue + [GuestWire.Action(action)])
    ensures t.host == s.host && t.played == s.played && t.broadcasts == s.broadcasts
    ensures t.links[0].views == s.links[0].views && t.links[0].guest == s.links[0].guest
      && t.links[0].armed == s.links[0].armed
  {
    var e := GuestSends(0, GuestWire.Action(action));
    t := Next(s, e);
    Goes(seats, s, e);
  }

  /** A guest that is one broadcast behind and has nothing in hand has just that on its session. */
  lemma OneBehind(l: Link, broadcasts: seq<State>)
    requires Following(l, broadcasts) && l.up && l.pending == None && |l.views| + 1 == |broadcasts|
    ensures l.toGuest == [Snapshot(broadcasts[|broadcasts| - 1])]
  {
    assert PendingQueue(l) == l.toGuest;
    AllSnapshots(l.toGuest);
    assert l.toGuest == [l.toGuest[0]] && Snapshots(l.toGuest) == [l.toGuest[0].game] + Snapshots([]);
  }

  lemma SeesTraffic(s: System)
    requires Good(s) && s.links != [] && s.links[0].up && s.links[0].armed && |s.links[0].views| + 1 == |s.broadcasts|
    requires !s.host.done
    ensures Enabled(s, GuestListens(0)) && Enabled(Next(s, GuestListens(0)), GuestHandles(0))
    ensures var (l, t) := (s.links[0], Next(Next(s, GuestListens(0)), GuestHandles(0)));
      && t == s.(links := t.links) && t.links[0].views == s.broadcasts
      && t.links[0].armed && t.links[0].up && t.links[0].inbox == l.inbox && t.links[0].toHost == l.toHost
  {
    var l := s.links[0];
    OneBehind(l, s.broadcasts);
    LastBroadcastIsOn(s);
    assert LinkGuestHandles(LinkGuestListens(l)).views == l.views + [s.broadcasts[|l.views|]];
  }

  /** The guest takes the broadcast it is behind by and shows it. */
  lemma Sees(seats: seq<Seat>, s: System, queue: seq<GuestWire>) returns (t: System)
    requires Playing(seats, s, queue) && |s.links[0].views| + 1 == |s.broadcasts| && s.links[0].armed
    ensures Playing(seats, t, queue) && UpToDate(t) && t.host == s.host && t.played == s.played && t.links[0].armed
  {
    ComesToGood(seats, s);
    SeesTraffic(s);
    Goes(seats, s, GuestListens(0));
    Goes(seats, Next(s, GuestListens(0)), GuestHandles(0));
    t := Next(Next(s, GuestListens(0)), GuestHandles(0));
  }

  lemma LastBroadcastIsOn(s: System)
    requires Good(s) && !s.host.done && s.broadcasts != []
    ensures s.broadcasts[|s.broadcasts| - 1].phase != GameOver
  {}

  lemma Takes(seats: seq<Seat>, s: System, action: GuestAction, rest: seq<GuestWire>) returns (t: System)
    requires Playing(seats, s, [GuestWire.Action(action)] + rest)
    ensures ComesTo(seats, t) && t == s.(links := t.links) && |t.links| == |s.links|
    ensures t.links[0] == s.links[0].(listeners := t.links[0].listeners, inbox := multiset{Acted(action)},
      toHost := rest)
  {
    ComesToGood(seats, s);
    ListenerIsThere(s, 0);
    t := Next(s, HostListens(0));
    Goes(seats, s, HostListens(0));
    var queue := s.links[0].toHost;
    assert queue[0] == GuestWire.Action(action) && queue[1..] == rest;
  }

  /** The host takes the guest's next message on the guest's turn, and carries it out. */
  lemma Serves(seats: seq<Seat>, s: System, action: GuestAction, rest: seq<GuestWire>, die: Die) returns (t: System)
    requires Playing(seats, s, [GuestWire.Action(action)] + rest) && s.host.game.turn == 1
    requires CarriedOut(s.host.game, Acted(action)) && Answered(s.host.game, action, die).phase != GameOver
    ensures Playing(seats, t, rest) && t.host.game == Answered(s.host.game, action, die)
    ensures t.played == s.played + [t.host.game] && |t.broadcasts| == |s.broadcasts| + 1
    ensures t.links[0].views == s.links[0].views && t.links[0].guest == s.links[0].guest
      && t.links[0].armed == s.links[0].armed
  {
    var s1 := Takes(seats, s, action, rest);
    var e := HostHandles(0, Acted(action), die);
    t := Next(s1, e);
    ComesToGood(seats, s1);
    Goes(seats, s1, e);
    HandledEffect(s1, 0, action, die);
    ServedTraffic(s1, action, die);
    AnsweredNames(s.host.game, action, die);
  }

  lemma AnsweredNames(game: State, action: GuestAction, die: Die)
    requires WellFormed(game) && TwoNames(game.seats)
    ensures TwoNames(Answered(game, action, die).seats)
  {
    assert SameShape(game.seats, Answered(game, action, die).seats);
  }

  lemma ServedTraffic(s: System, action: GuestAction, die: Die)
    requires Good(s) && !s.host.done && s.links != [] && Acted(action) in s.links[0].inbox && s.host.game.turn == 1
    requires CarriedOut(s.host.game, Acted(action)) && Answered(s.host.game, action, die).phase != GameOver
    ensures var t := Next(s, HostHandles(0, Acted(action), die));
      && t.played == s.played + [t.host.game] && |t.broadcasts| == |s.broadcasts| + 1
      && t.links[0].views == s.links[0].views && t.links[0].guest == s.links[0].guest
      && t.links[0].armed == s.links[0].armed && t.links[0].up == s.links[0].up
  {
    TurnColor(s, 0);
  }

  lemma OpeningRoll(seats: seq<Seat>)
    requires HostSeats(seats) && WellFormed(NewGame(seats))
    ensures Step(NewGame(seats), Roll(1)) == State(seats, 1, 1, RollDice, None, 0)
  {
    assert seats[0] == NewSeat(COLORS[0], seats[0].name, false);
    NoMovesFrom(seats[0].tokens, 1, 0);
  }

  lemma FirstRollKey(seats: seq<Seat>)
    requires HostSeats(seats) && WellFormed(NewGame(seats))
    ensures var h := Start(seats).host;
      HostRollKey(h, 1) == AfterAction(h.(game := State(seats, 1, 1, RollDice, None, 0)))
  {
    OpeningRoll(seats);
    SeatColors(seats);
  }

  lemma FirstRollTraffic(seats: seq<Seat>)
    requires HostSeats(seats) && Ready(Start(seats))
    ensures var s := Next(Start(seats), HostRolls(1));
      && s.host.game == State(seats, 1, 1, RollDice, None, 0) && !s.host.done && |s.broadcasts| == 1
      && s.links != [] && s.links[0].views == [] && s.links[0].armed
      && s.links[0].up && s.links[0].inbox == multiset{} && s.links[0].toHost == []
  {
    FirstRollKey(seats);
    var l := Start(seats).links[0];
    assert Next(Start(seats), HostRolls(1)).links[0] ==
      LinkAfterHost(l, seats[1].color, HostRollKey(Start(seats).host, 1));
  }

  lemma FirstRoll(seats: seq<Seat>) returns (s: System)
    requires HostSeats(seats) && TwoNames(seats)
    ensures Playing(seats, s, []) && |s.links[0].views| + 1 == |s.broadcasts| && s.links[0].armed
    ensures s.host.game == State(seats, 1, 1, RollDice, None, 0)
  {
    StartGood(seats);
    assert RunsFrom(seats, [], Start(seats)) && KeyedRun(Start(seats), []);
    s := Next(Start(seats), HostRolls(1));
    Goes(seats, Start(seats), HostRolls(1));
    FirstRollTraffic(seats);
  }

  /** The host rolls a one, which gets it nowhere; the first guest sees that it is its turn. */
  lemma Opening(seats: seq<Seat>) returns (s: System)
    requires HostSeats(seats) && TwoNames(seats)
    ensures Playing(seats, s, []) && UpToDate(s) && s.links[0].armed
    ensures s.host.game == State(seats, 1, 1, RollDice, None, 0)
  {
    var s1 := FirstRoll(seats);
    s := Sees(seats, s1, []);
  }

  // ---- Two choices from one view ----

  /** The position after the first guest has rolled a six with all its tokens in the yard. */
  lemma SixInTheYard(seats: seq<Seat>)
    requires HostSeats(seats) && WellFormed(NewGame(seats))
    ensures var game := Step(State(seats, 1, 1, RollDice, None, 0), Roll(6));
      && game == State(seats, 1, 6, SelectToken, None, 1)
      && forall id :: 0 <= id < TOKENS_PER_PLAYER ==>
           MoveToken(game, id).Ok? && MoveToken(game, id).value.next.phase == RollDice
  {
    assert seats[1] == NewSeat(COLORS[1], seats[1].name, false);
    var game := State(seats, 1, 6, SelectToken, None, 1);
    assert 0 in LegalMoves(game);
    forall id | 0 <= id < TOKENS_PER_PLAYER
      ensures MoveToken(game, id).Ok? && MoveToken(game, id).value.next.phase == RollDice
    {
      if WinsWith(game, id) { WinsHome(game, id); }
    }
  }

  /** The first guest rolls a six and sees it. */
  lemma RollsSix(seats: seq<Seat>) returns (s: System)
    requires HostSeats(seats) && TwoNames(seats)
    ensures Playing(seats, s, []) && UpToDate(s) && s.links[0].armed
      && s.host.game == State(seats, 1, 6, SelectToken, None, 1)
  {
    var s0 := Opening(seats);
    KeysLetThrough(seats, s0, ActRoll);
    var s1 := Sends(seats, s0, [], ActRoll);
    SixInTheYard(seats);
    var s2 := Serves(seats, s1, ActRoll, [], 6);
    s := Sees(seats, s2, []);
  }

  /**
   On a screen that shows the host's position, the first guest's keys let it choose token `id`,
   and the host need only attend to its session for the choice to be handled elsewhere.
   */
  ghost predicate ChoosesInVain(seats: seq<Seat>, s: System, id: int) {
    && ComesTo(seats, s) && Ready(s) && UpToDate(s) && ChoosesByKeys(s, 0, id)
    && HostCanMisjudge(Next(s, Choice(0, id)), 0, id, s.host.game)
  }

  lemma InVain(seats: seq<Seat>, s: System, first: GuestAction, id: int)
    requires Playing(seats, s, [GuestWire.Action(first)]) && UpToDate(s) && s.host.game.turn == 1
    requires MoveToken(s.host.game, id).Ok? && Diverts(s.host.game, Acted(first), id)
    ensures ChoosesInVain(seats, s, id)
  {
    KeysLetThrough(seats, s, ActMove(id));
    ComesToGood(seats, s);
    FirstInFront(s.links[0], first, s.host.game, id);
    InFrontInVain(s, id);
  }

  lemma InFrontInVain(s: System, id: int)
    requires Good(s) && MayChoose(s, 0, id) && InFront(s.links[0].inbox, s.links[0].toHost, s.host.game, id)
    ensures HostCanMisjudge(Next(s, Choice(0, id)), 0, id, s.host.game)
  {
    ComingWhenSent(s, 0, id);
    FrontSend(s.links[0].inbox, s.links[0].toHost, Sent(id), s.host.game, id);
    InFrontIsMisjudged(Next(s, Choice(0, id)), 0, id, s.host.game);
  }

  lemma FirstInFront(l: Link, first: GuestAction, game: State, id: int)
    requires l.inbox == multiset{} && l.toHost == [GuestWire.Action(first)]
    requires WellFormed(game) && Diverts(game, Acted(first), id)
    ensures InFront(l.inbox, l.toHost, game, id)
  {
    assert DivertsAt(l.inbox, l.toHost, 0, game, id) by {
      assert Heard(l.toHost[0]) == Acted(first);
      assert Ahead(l.inbox, l.toHost[..0], id) == 0;
    }
  }

  /** Two tokens chosen from one view: the second choice may be handled when the first has been carried out. */
  lemma DoubleChoice(seats: seq<Seat>) returns (s: System)
    requires HostSeats(seats) && TwoNames(seats)
    ensures ChoosesInVain(seats, s, 1) && s.links[0].toHost == [GuestWire.Action(ActMove(0))]
  {
    var s0 := RollsSix(seats);
    SixInTheYard(seats);
    KeysLetThrough(seats, s0, ActMove(0));
    s := Sends(seats, s0, [], ActMove(0));
    InVain(seats, s, ActMove(0), 1);
  }

  /**
   Two tokens chosen from one view with nothing else under way: the second choice may also
   overtake the first.
   */
  lemma Overtaking(seats: seq<Seat>) returns (s: System)
    requires HostSeats(seats) && TwoNames(seats)
    ensures ComesTo(seats, s) && Ready(s) && UpToDate(s) && ChoosesByKeys(s, 0, 0)
    ensures s.links[0].inbox == multiset{} && s.links[0].toHost == []
    ensures CanBeOvertaken(Next(s, Choice(0, 0)), 0, 0, s.host.game)
  {
    s := RollsSix(seats);
    SixInTheYard(seats);
    FreshChoice(seats, s, 0);
    FreshChoiceOvertaken(seats, s, 0, 1);
  }

  lemma FreshChoice(seats: seq<Seat>, s: System, id: int)
    requires Playing(seats, s, []) && UpToDate(s) && s.host.game.turn == 1 && MoveToken(s.host.game, id).Ok?
    ensures ChoosesByKeys(s, 0, id)
  {
    KeysLetThrough(seats, s, ActMove(id));
  }

  lemma FreshChoiceOvertaken(seats: seq<Seat>, s: System, id: int, k: int)
    requires Playing(seats, s, []) && ChoosesByKeys(s, 0, id) && k != id && MoveToken(s.host.game, k).Ok?
    ensures CanBeOvertaken(Next(s, Choice(0, id)), 0, id, s.host.game)
  {
    ComesToGood(seats, s);
    FirstChoiceIsSafeExactly(s, 0, id);
  }

  /** The roll key pressed twice: the second roll may be made under the choice the first one led to. */
  lemma DoubleRoll(seats: seq<Seat>) returns (s: System)
    requires HostSeats(seats) && TwoNames(seats)
    ensures ChoosesInVain(seats, s, 0) && s.links[0].toHost == [GuestWire.Action(ActRoll)]
  {
    var s0 := Opening(seats);
    KeysLetThrough(seats, s0, ActRoll);
    var s1 := Sends(seats, s0, [], ActRoll);
    var s2 := Sends(seats, s1, [GuestWire.Action(ActRoll)], ActRoll);
    SixInTheYard(seats);
    var s3 := Serves(seats, s2, ActRoll, [GuestWire.Action(ActRoll)], 6);
    s := Sees(seats, s3, [GuestWire.Action(ActRoll)]);
    InVain(seats, s, ActRoll, 0);
  }

  // ---- Any number of rolls in one turn ----

  function Rolls(m: nat): seq<GuestWire> {
    seq(m, _ => GuestWire.Action(ActRoll))
  }

  /** `seat` has rolled a one, and it is still its turn. */
  predicate RolledOn(before: State, after: State, seat: nat) {
    && WellFormed(before) && before.phase != GameOver && after == Step(before, Roll(1))
    && before.turn == seat && after.turn == seat
  }

  /** The last `m` things that happened in the match are rolls, all made by `seat` in one turn. */
  predicate EndsInRolls(played: seq<State>, seat: nat, m: nat) {
    m < |played| && forall j :: |played| - m <= j < |played| ==> RolledOn(played[j - 1], played[j], seat)
  }

  lemma {:induction false} SendsRolls(seats: seq<Seat>, s: System, sent: nat, m: nat) returns (t: System)
    requires Playing(seats, s, Rolls(sent)) && MaySend(s.links[0].guest, ActRoll)
    ensures Playing(seats, t, Rolls(sent + m)) && t.host == s.host && t.played == s.played
    decreases m
  {
    t := s;
    if m > 0 {
      var s1 := Sends(seats, s, Rolls(sent), ActRoll);
      assert Rolls(sent) + [GuestWire.Action(ActRoll)] == Rolls(sent + 1);
      t := SendsRolls(seats, s1, sent + 1, m - 1);
    }
  }

  /** The host serves one of the rolls, with a one. */
  lemma ServesRoll(seats: seq<Seat>, s: System, rest: seq<GuestWire>) returns (t: System)
    requires Playing(seats, s, [GuestWire.Action(ActRoll)] + rest)
    requires s.host.game.turn == 1 && LudoFairness.HasTokenInPlay(s.host.game)
    ensures Playing(seats, t, rest) && t.host.game.turn == 1 && LudoFairness.HasTokenInPlay(t.host.game)
    ensures s.played != [] && s.played[|s.played| - 1] == s.host.game
    ensures t.played == s.played + [t.host.game] && RolledOn(s.host.game, t.host.game, 1)
  {
    ComesToGood(seats, s);
    LudoFairness.OneKeepsTheTurn(s.host.game);
    t := Serves(seats, s, ActRoll, rest, 1);
    assert Current(t.host.game) == Current(s.host.game);
  }

  lemma OneMoreRoll(before: seq<State>, next: State, played: seq<State>, seat: nat, m: nat)
    requires before != [] && RolledOn(before[|before| - 1], next, seat)
    requires EndsInRolls(played, seat, m) && |played| == |before| + 1 + m && before + [next] <= played
    ensures EndsInRolls(played, seat, m + 1) && before <= played
  {
    assert played[|before| - 1] == (before + [next])[|before| - 1] && played[|before|] == (before + [next])[|before|];
  }

  lemma SomethingPlayed(seats: seq<Seat>, s: System)
    requires ComesTo(seats, s)
    ensures s.played != []
  {
    ComesToGood(seats, s);
  }

  lemma {:induction false} ServesRolls(seats: seq<Seat>, s: System, m: nat) returns (t: System)
    requires Playing(seats, s, Rolls(m)) && s.host.game.turn == 1 && LudoFairness.HasTokenInPlay(s.host.game)
    ensures Playing(seats, t, []) && t.host.game.turn == 1
    ensures |t.played| == |s.played| + m && s.played <= t.played && EndsInRolls(t.played, 1, m)
    decreases m
  {
    if m == 0 {
      SomethingPlayed(seats, s);
      t := s;
    } else {
      assert Rolls(m) == [GuestWire.Action(ActRoll)] + Rolls(m - 1);
      var s1 := ServesRoll(seats, s, Rolls(m - 1));
      t := ServesRolls(seats, s1, m - 1);
      OneMoreRoll(s.played, s1.host.game, t.played, 1, m - 1);
    }
  }

  /** After leaving the yard on a six it is the guest's turn to roll again, with a token in play. */
  lemma LeavesTheYard(seats: seq<Seat>) returns (s: System)
    requires HostSeats(seats) && TwoNames(seats)
    ensures Playing(seats, s, []) && UpToDate(s)
    ensures s.host.game.turn == 1 && s.host.game.phase == RollDice && LudoFairness.HasTokenInPlay(s.host.game)
  {
    var s0 := RollsSix(seats);
    SixInTheYard(seats);
    KeysLetThrough(seats, s0, ActMove(0));
    var s1 := Sends(seats, s0, [], ActMove(0));
    OnTheTrack(seats);
    var s2 := Serves(seats, s1, ActMove(0), [], 1);
    s := Sees(seats, s2, []);
  }

  lemma OnTheTrack(seats: seq<Seat>)
    requires HostSeats(seats) && WellFormed(NewGame(seats))
    ensures var game := Step(State(seats, 1, 6, SelectToken, None, 1), Move(0));
      game.turn == 1 && game.phase == RollDice && LudoFairness.HasTokenInPlay(game)
  {
    SixInTheYard(seats);
    var before := State(seats, 1, 6, SelectToken, None, 1);
    assert seats[1] == NewSeat(COLORS[1], seats[1].name, false);
    MoveEffect(before, 0);
    var game := Step(before, Move(0));
    assert game.seats[1].tokens[0] == Token(OnTrack, 0);
    assert CanMove(Current(game).tokens[0], 1);
  }

  /**
   In every match a guest can come to make any number of rolls in one turn, by pressing the
   roll key again and again before the host's answer to the first press is on its screen.
   */
  lemma HastyGuestHoldsTheTurn(seats: seq<Seat>, m: nat) returns (s: System)
    requires HostSeats(seats) && TwoNames(seats)
    ensures ComesTo(seats, s) && !s.host.done && EndsInRolls(s.played, 1, m) && s.host.game.turn == 1
  {
    var s0 := LeavesTheYard(seats);
    KeysLetThrough(seats, s0, ActRoll);
    var s1 := SendsRolls(seats, s0, 0, m);
    s := ServesRolls(seats, s1, m);
  }
}
