/**
 A networked Ludo match as a system: one host, its guests, the two queues of every session,
 the listeners armed on them and the messages those have taken but not yet handed over. Any
 guest may send anything at any time; connections may drop at any time.
 */
module LudoNet {
  import opened Wrappers
  import opened LudoBoard
  import opened LudoRules
  import opened LudoInvariant
  import opened LudoPeer

  /** What travels from a guest to the host. */
  datatype GuestWire = Action(action: GuestAction) | Unreadable | Resigned | Gone

  datatype Link = Link(
    up: bool,
    toHost: seq<GuestWire>,          // sent by the guest, not yet taken by a listener
    listeners: nat,                  // listeners the host has armed on this session
    inbox: multiset<GuestMessage>,   // taken by a listener, not yet handled; any order
    toGuest: seq<HostMessage>,
    guest: Guest,
    armed: bool,                     // the guest's listener
    pending: Option<HostMessage>,    // taken by it, not yet handled
    views: seq<State>,               // every snapshot the guest has shown, in order
    ends: nat)                       // how often the guest has announced the end

  datatype System = System(
    host: Host,
    hostEnds: nat,
    played: seq<State>,              // the host's game at the start and after each action
    broadcasts: seq<State>,          // what was broadcast after each action
    links: seq<Link>)                // the guests, from the second seat on

  datatype Event =
    | HostRolls(die: Die)
    | HostMoves(id: int)
    | HostQuits
    | HostListens(i: nat)
    | HostHandles(i: nat, m: GuestMessage, die: Die)
    | GuestSends(i: nat, wire: GuestWire)
    | GuestListens(i: nat)
    | GuestHandles(i: nat)
    | GuestQuits(i: nat)
    | LinkDrops(i: nat, keptUp: nat, keptDown: nat)

  /** The colour of the guest on link `i`. */
  function GuestColor(s: System, i: nat): Color
    requires i + 1 < |s.host.game.seats|
  {
    s.host.game.seats[i + 1].color
  }

  function Start(seats: seq<Seat>): System
    requires |seats| > 0
  {
    System(
      Host(NewGame(seats), seats[0].name, false, NoResult), 0, [NewGame(seats)], [],
      seq(|seats| - 1, i requires 0 <= i < |seats| - 1 =>
        Link(true, [], 1, multiset{}, [], Guest(None, seats[i + 1].name, false, NoResult), true, None, [], 0)))
  }

  // ---- What a reaction does to the system ----

  function LinkAfterHost(l: Link, color: Color, r: HostReaction): Link {
    var l' := l.(listeners := l.listeners + if r.listen == Some(color) then 1 else 0);
    if !l.up then l'
    else l'.(
      up := !r.closed,
      toHost := l.toHost + (if r.closed then [Gone] else []),
      toGuest := l.toGuest + (if r.broadcast.Some? then [Snapshot(r.broadcast.value)] else [])
                           + (if r.resigned then [EndedByHost] else []) + (if r.closed then [Lost] else []))
  }

  function AfterHost(s: System, r: HostReaction): (t: System)
    requires |s.links| < |s.host.game.seats|
    ensures |t.links| == |s.links|
  {
    System(
      r.host,
      s.hostEnds + (if r.announced then 1 else 0),
      s.played + (if r.broadcast.Some? then [r.host.game] else []),
      s.broadcasts + (if r.broadcast.Some? then [r.broadcast.value] else []),
      seq(|s.links|, i requires 0 <= i < |s.links| => LinkAfterHost(s.links[i], GuestColor(s, i), r)))
  }

  function LinkAfterGuest(l: Link, r: GuestReaction): Link {
    var l' := l.(guest := r.guest, armed := l.armed || r.listen, ends := l.ends + if r.announced then 1 else 0);
    if !l.up || !r.closed then l'
    else l'.(
      up := false,
      toHost := l.toHost + (if r.resigned then [Resigned] else []) + [Gone],
      toGuest := l.toGuest + [Lost])
  }

  // ---- Events ----

  /** A listener turns an action into a message, and anything else into a departure. */
  function Heard(wire: GuestWire): GuestMessage {
    match wire
    case Action(action) => Acted(action)
    case Unreadable | Resigned | Gone => Left
  }

  predicate Enabled(s: System, e: Event) {
    match e
    case HostRolls(_) | HostMoves(_) | HostQuits => true
    case HostListens(i) => i < |s.links| && s.links[i].listeners > 0 && s.links[i].toHost != []
    case HostHandles(i, m, _) => i < |s.links| && m in s.links[i].inbox
    case GuestSends(i, wire) => i < |s.links| && (wire.Action? || wire.Unreadable?)
    case GuestListens(i) => i < |s.links| && s.links[i].armed && s.links[i].toGuest != []
    case GuestHandles(i) => i < |s.links| && s.links[i].pending.Some?
    case GuestQuits(i) => i < |s.links|
    case LinkDrops(i, up, down) => i < |s.links| && up <= |s.links[i].toHost| && down <= |s.links[i].toGuest|
  }

  /** Taking the next message off a session; the end of a closed one is there to be read again and again. */
  function LinkListens(l: Link): Link
    requires l.listeners > 0 && l.toHost != []
  {
    l.(listeners := l.listeners - 1,
       inbox := l.inbox + multiset{Heard(l.toHost[0])},
       toHost := if l.toHost[0].Gone? then l.toHost else l.toHost[1..])
  }

  function LinkGuestListens(l: Link): Link
    requires l.toGuest != []
  {
    l.(armed := false,
       pending := Some(l.toGuest[0]),
       toGuest := if l.toGuest[0].Lost? then l.toGuest else l.toGuest[1..])
  }

  /** A connection fails, and with it any part of what was under way; both ends find out. */
  function LinkDropped(l: Link, up: nat, down: nat): Link
    requires up <= |l.toHost| && down <= |l.toGuest|
  {
    if l.up then l.(up := false, toHost := l.toHost[..up] + [Gone], toGuest := l.toGuest[..down] + [Lost]) else l
  }

  function LinkGuestHandles(l: Link): Link
    requires l.pending.Some?
  {
    var m := l.pending.value;
    LinkAfterGuest(
      l.(pending := None, views := if !l.guest.done && m.Snapshot? then l.views + [m.game] else l.views),
      GuestReceive(l.guest, m))
  }

  /** A match is on, with a seat for every guest. */
  predicate Ready(s: System) {
    WellFormed(s.host.game) && |s.links| < |s.host.game.seats|
  }

  function Next(s: System, e: Event): (t: System)
    requires Enabled(s, e) && Ready(s)
    ensures Ready(t) && |t.links| == |s.links|
  {
    match e
    case HostRolls(die) => AfterHost(s, HostRollKey(s.host, die))
    case HostMoves(id) => AfterHost(s, HostMoveKey(s.host, id))
    case HostQuits => AfterHost(s, HostQuitKey(s.host))
    case HostListens(i) => s.(links := s.links[i := LinkListens(s.links[i])])
    case HostHandles(i, m, die) =>
      var l := s.links[i];
      AfterHost(s.(links := s.links[i := l.(inbox := l.inbox - multiset{m})]),
        HostReceive(s.host, GuestColor(s, i), m, die))
    case GuestSends(i, wire) =>
      var l := s.links[i];
      if l.up then s.(links := s.links[i := l.(toHost := l.toHost + [wire])]) else s
    case GuestListens(i) => s.(links := s.links[i := LinkGuestListens(s.links[i])])
    case GuestHandles(i) => s.(links := s.links[i := LinkGuestHandles(s.links[i])])
    case GuestQuits(i) => s.(links := s.links[i := LinkAfterGuest(s.links[i], GuestQuitKey(s.links[i].guest))])
    case LinkDrops(i, up, down) => s.(links := s.links[i := LinkDropped(s.links[i], up, down)])
  }

  // ---- What every run keeps ----

  function Snapshots(q: seq<HostMessage>): seq<State> {
    if q == [] then []
    else (if q[0].Snapshot? then [q[0].game] else []) + Snapshots(q[1..])
  }

  function PendingQueue(l: Link): seq<HostMessage> {
    (if l.pending.Some? then [l.pending.value] else []) + l.toGuest
  }

  /** The guest has seen a prefix of the broadcasts, and while the session is up the rest is on its way. */
  predicate Following(l: Link, broadcasts: seq<State>) {
    && l.views <= broadcasts
    && l.guest.view == (if l.views == [] then None else Some(l.views[|l.views| - 1]))
    && (!l.guest.done ==> l.views + Snapshots(PendingQueue(l)) <= broadcasts)
    && (l.up ==> l.views + Snapshots(PendingQueue(l)) == broadcasts)
    && (l.up ==> !l.guest.done && forall m :: m in PendingQueue(l) ==> m.Snapshot?)
    && (!l.guest.done ==> (l.armed <==> l.pending.None?))
    && (l.armed ==> l.pending.None?)
  }

  /** A guest's end of the match is announced once, and a won match is reported as such. */
  predicate GuestEnds(l: Link) {
    && l.ends == (if l.guest.done then 1 else 0)
    && (l.guest.view.Some? && l.guest.view.value.phase == GameOver ==>
          l.guest.done && l.guest.result == WinText(l.guest.view.value, l.guest.self))
  }

  /**
   One listener per guest, and a second for the guest whose turn it is, counting those whose message
   waits to be handled.
   */
  predicate Listening(l: Link, current: bool) {
    l.listeners + |l.inbox| == if current then 2 else 1
  }

  ghost predicate EngineStep(before: State, after: State)
    requires WellFormed(before)
  {
    exists a :: after == Step(before, a)
  }

  /** Each game in the list comes from the one before by an action of the engine. */
  ghost predicate Played(games: seq<State>) {
    && (forall j :: 0 <= j < |games| ==> WellFormed(games[j]))
    && forall j :: 0 < j < |games| ==> EngineStep(games[j - 1], games[j])
  }

  predicate HostEnds(s: System) {
    && s.hostEnds == (if s.host.done then 1 else 0)
    && (s.host.game.phase == GameOver ==> s.host.done && s.host.result == WinText(s.host.game, s.host.self))
    && (s.host.done ==> forall i :: 0 <= i < |s.links| ==> !s.links[i].up)
  }

  predicate Seating(s: System) {
    && Inv(s.host.game)
    && |s.links| == |s.host.game.seats| - 1
    && s.host.game.seats[0].color == Red
    && s.host.self == s.host.game.seats[0].name
    && (forall i :: 0 <= i < |s.links| ==> s.links[i].guest.self == s.host.game.seats[i + 1].name)
  }

  ghost predicate History(s: System) {
    && |s.played| == |s.broadcasts| + 1
    && Played(s.played)
    && s.host.game == s.played[|s.broadcasts|]
    && forall j :: 0 <= j < |s.broadcasts| ==> s.broadcasts[j] == Project(s.played[j + 1])
  }

  /** Everything but the count of listeners. */
  ghost predicate Core(s: System) {
    && Seating(s)
    && History(s)
    && HostEnds(s)
    && forall i :: 0 <= i < |s.links| ==> Following(s.links[i], s.broadcasts) && GuestEnds(s.links[i])
  }

  predicate AllListening(s: System) {
    !s.host.done ==> forall i :: 0 <= i < |s.links| ==> Listening(s.links[i], s.host.game.turn == i + 1)
  }

  ghost predicate Good(s: System) {
    Core(s) && AllListening(s)
  }

  // ---- Queues of snapshots ----

  lemma {:induction false} SnapshotsConcat(a: seq<HostMessage>, b: seq<HostMessage>)
    ensures Snapshots(a + b) == Snapshots(a) + Snapshots(b)
  {
    if a == [] {
      assert a + b == b;
    } else {
      var head := if a[0].Snapshot? then [a[0].game] else [];
      var (x, y) := (Snapshots(a[1..]), Snapshots(b));
      assert Snapshots(a + b) == head + (x + y) by {
        SnapshotsConcat(a[1..], b);
        assert (a + b)[0] == a[0] && (a + b)[1..] == a[1..] + b;
      }
      assert head + (x + y) == (head + x) + y;
    }
  }

  // ---- The reactions keep what every run keeps ----

  function Pushed(r: HostReaction): seq<HostMessage> {
    (if r.broadcast.Some? then [Snapshot(r.broadcast.value)] else [])
    + ((if r.resigned then [EndedByHost] else []) + (if r.closed then [Lost] else []))
  }

  function Added(r: HostReaction): seq<State> {
    if r.broadcast.Some? then [r.broadcast.value] else []
  }

  lemma SnapshotsPushed(q: seq<HostMessage>, r: HostReaction)
    ensures Snapshots(q + Pushed(r)) == Snapshots(q) + Added(r)
  {
    var tail := (if r.resigned then [EndedByHost] else []) + (if r.closed then [Lost] else []);
    SnapshotsConcat(q, Pushed(r));
    SnapshotsConcat(if r.broadcast.Some? then [Snapshot(r.broadcast.value)] else [], tail);
    SnapshotsConcat(if r.resigned then [EndedByHost] else [], if r.closed then [Lost] else []);
  }

  lemma HostKeepsFollowing(l: Link, color: Color, r: HostReaction, broadcasts: seq<State>)
    requires Following(l, broadcasts) && (r.resigned ==> r.closed)
    ensures Following(LinkAfterHost(l, color, r), broadcasts + Added(r))
  {
    var l' := LinkAfterHost(l, color, r);
    if l.up {
      assert PendingQueue(l') == PendingQueue(l) + Pushed(r);
      SnapshotsPushed(PendingQueue(l), r);
      assert l.views + (Snapshots(PendingQueue(l)) + Added(r)) == broadcasts + Added(r);
    } else {
      assert PendingQueue(l') == PendingQueue(l);
    }
  }

  lemma HostKeepsGuestEnds(l: Link, color: Color, r: HostReaction)
    requires GuestEnds(l)
    ensures GuestEnds(LinkAfterHost(l, color, r))
  {}

  /** The host's own actions reach every link alike. */
  lemma LinksAfterHost(s: System, r: HostReaction)
    requires Seating(s) && (r.resigned ==> r.closed)
    requires forall i :: 0 <= i < |s.links| ==> Following(s.links[i], s.broadcasts) && GuestEnds(s.links[i])
    ensures var t := AfterHost(s, r);
      forall i :: 0 <= i < |t.links| ==> Following(t.links[i], t.broadcasts) && GuestEnds(t.links[i])
  {
    forall i | 0 <= i < |s.links|
      ensures Following(AfterHost(s, r).links[i], AfterHost(s, r).broadcasts) && GuestEnds(AfterHost(s, r).links[i])
    {
      HostKeepsFollowing(s.links[i], GuestColor(s, i), r, s.broadcasts);
      HostKeepsGuestEnds(s.links[i], GuestColor(s, i), r);
    }
  }

  lemma StepKeepsSeating(s: System, a: LudoRules.Action)
    requires Seating(s)
    ensures Seating(s.(host := s.host.(game := Step(s.host.game, a))))
  {
    StepInv(s.host.game, a);
    assert SameShape(s.host.game.seats, Step(s.host.game, a).seats);
  }

  lemma ActedHistory(s: System, t: System)
    requires History(s) && WellFormed(t.host.game) && EngineStep(s.host.game, t.host.game)
    requires t.played == s.played + [t.host.game] && t.broadcasts == s.broadcasts + [Project(t.host.game)]
    ensures History(t)
  {
    forall j | 0 < j < |t.played| ensures EngineStep(t.played[j - 1], t.played[j]) {
      if j < |s.played| { assert EngineStep(s.played[j - 1], s.played[j]); }
    }
  }

  lemma ActedHostEnds(s: System, a: LudoRules.Action)
    requires Seating(s) && HostEnds(s) && !s.host.done
    ensures HostEnds(AfterHost(s, AfterAction(s.host.(game := Step(s.host.game, a)))))
  {}

  lemma ActedSeating(s: System, a: LudoRules.Action)
    requires Seating(s)
    ensures Seating(AfterHost(s, AfterAction(s.host.(game := Step(s.host.game, a)))))
  {
    StepKeepsSeating(s, a);
    var t := AfterHost(s, AfterAction(s.host.(game := Step(s.host.game, a))));
    assert t.host.game == Step(s.host.game, a) && t.host.self == s.host.self;
    forall i | 0 <= i < |s.links| ensures t.links[i].guest == s.links[i].guest {
      assert t.links[i] == LinkAfterHost(s.links[i], GuestColor(s, i),
        AfterAction(s.host.(game := Step(s.host.game, a))));
    }
  }

  lemma ActedCore(s: System, a: LudoRules.Action)
    requires Core(s) && !s.host.done
    ensures Core(AfterHost(s, AfterAction(s.host.(game := Step(s.host.game, a)))))
  {
    var r := AfterAction(s.host.(game := Step(s.host.game, a)));
    var t := AfterHost(s, r);
    ActedSeating(s, a);
    LinksAfterHost(s, r);
    ActedHistory(s, t);
    ActedHostEnds(s, a);
  }

  lemma ActedListening(l: Link, color: Color, r: HostReaction, current: bool)
    requires Listening(l, false) && (r.listen == Some(color) <==> current)
    ensures Listening(LinkAfterHost(l, color, r), current)
  {}

  /** An action carried out by the host: broadcast to all, and a listener for the seat that is next. */
  lemma ActedGood(s: System, a: LudoRules.Action)
    requires Core(s) && !s.host.done
    requires forall i :: 0 <= i < |s.links| ==> Listening(s.links[i], false)
    ensures Good(AfterHost(s, AfterAction(s.host.(game := Step(s.host.game, a)))))
  {
    var t := AfterHost(s, AfterAction(s.host.(game := Step(s.host.game, a))));
    ActedCore(s, a);
    if !t.host.done {
      forall i | 0 <= i < |t.links| ensures Listening(t.links[i], t.host.game.turn == i + 1) {
        ActedListens(s, a, i);
      }
    }
  }

  lemma ActedListens(s: System, a: LudoRules.Action, i: nat)
    requires Seating(s) && i < |s.links| && Listening(s.links[i], false) && Step(s.host.game, a).phase != GameOver
    ensures var t := AfterHost(s, AfterAction(s.host.(game := Step(s.host.game, a))));
      Listening(t.links[i], t.host.game.turn == i + 1)
  {
    var game := Step(s.host.game, a);
    var r := AfterAction(s.host.(game := game));
    StepKeepsSeating(s, a);
    assert game.seats[i + 1].color == GuestColor(s, i) != game.seats[0].color == Red;
    ActedListening(s.links[i], GuestColor(s, i), r, game.turn == i + 1);
  }

  lemma FinishedGood(s: System, reason: Outcome, resigned: bool)
    requires Core(s) && !s.host.done
    ensures Good(AfterHost(s, HostFinishWithReason(s.host, reason, resigned)))
  {
    var r := HostFinishWithReason(s.host, reason, resigned);
    var t := AfterHost(s, r);
    LinksAfterHost(s, r);
    assert t.played == s.played && t.broadcasts == s.broadcasts;
  }

  lemma ListenAgainCore(s: System, color: Color)
    requires Core(s) && !s.host.done
    ensures Core(AfterHost(s, ListenAgain(s.host, color)))
  {
    var r := ListenAgain(s.host, color);
    LinksAfterHost(s, r);
    assert AfterHost(s, r).played == s.played && AfterHost(s, r).broadcasts == s.broadcasts;
  }

  lemma GuestColorsDiffer(s: System, i: nat, k: nat)
    requires Seating(s) && i < |s.links| && k < |s.links| && i != k
    ensures GuestColor(s, k) != GuestColor(s, i)
  {}

  /** A message without effect: the listener it used up is armed again. */
  lemma ListenAgainGood(s: System, i: nat)
    requires Core(s) && !s.host.done && i < |s.links|
    requires forall k :: 0 <= k < |s.links| && k != i ==> Listening(s.links[k], s.host.game.turn == k + 1)
    requires s.links[i].listeners + 1 + |s.links[i].inbox| == if s.host.game.turn == i + 1 then 2 else 1
    ensures Good(AfterHost(s, ListenAgain(s.host, GuestColor(s, i))))
  {
    var r := ListenAgain(s.host, GuestColor(s, i));
    var t := AfterHost(s, r);
    ListenAgainCore(s, GuestColor(s, i));
    forall k | 0 <= k < |t.links| ensures Listening(t.links[k], t.host.game.turn == k + 1) {
      assert t.links[k] == LinkAfterHost(s.links[k], GuestColor(s, k), r);
      if k != i {
        GuestColorsDiffer(s, i, k);
      }
    }
  }

  lemma IdleNothing(s: System)
    requires Seating(s)
    ensures AfterHost(s, Idle(s.host)) == s
  {
    var t := AfterHost(s, Idle(s.host));
    forall i | 0 <= i < |s.links| ensures t.links[i] == s.links[i] {
      assert s.links[i].toHost + [] == s.links[i].toHost && s.links[i].toGuest + [] + [] + [] == s.links[i].toGuest;
    }
    assert t.links == s.links && t.played == s.played && t.broadcasts == s.broadcasts;
  }

  // ---- Every event keeps it ----

  /** The host's keys act only on the host's own turn, when no guest has a second listener. */
  lemma HostsOwnTurn(s: System)
    requires Seating(s) && Current(s.host.game).color == SeatColorOf(s.host.game.seats, s.host.self)
    ensures s.host.game.turn == 0
  {
    assert s.host.game.seats[0].color == Current(s.host.game).color;
  }

  lemma HostKeyGood(s: System, e: Event)
    requires Good(s) && Enabled(s, e) && (e.HostRolls? || e.HostMoves? || e.HostQuits?)
    ensures Good(Next(s, e))
  {
    IdleNothing(s);
    if !s.host.done {
      if e.HostQuits? {
        FinishedGood(s, YouLeft, true);
      } else if Current(s.host.game).color == SeatColorOf(s.host.game.seats, s.host.self) {
        HostsOwnTurn(s);
        if e.HostRolls? {
          ActedGood(s, Roll(e.die));
        } else {
          ActedGood(s, Move(e.id));
        }
      }
    }
  }

  lemma OneLinkCore(s: System, i: nat, l: Link)
    requires Core(s) && i < |s.links|
    requires Following(l, s.broadcasts) && GuestEnds(l) && l.guest.self == s.links[i].guest.self
    requires l.up ==> s.links[i].up
    ensures Core(s.(links := s.links[i := l]))
  {
    var t := s.(links := s.links[i := l]);
    assert Seating(t);
    assert HostEnds(t);
    assert History(t);
  }

  lemma OneLinkGood(s: System, i: nat, l: Link)
    requires Good(s) && i < |s.links|
    requires Following(l, s.broadcasts) && GuestEnds(l) && l.guest.self == s.links[i].guest.self
    requires l.up ==> s.links[i].up
    requires l.listeners + |l.inbox| == s.links[i].listeners + |s.links[i].inbox|
    ensures Good(s.(links := s.links[i := l]))
  {
    OneLinkCore(s, i, l);
    var t := s.(links := s.links[i := l]);
    forall k | 0 <= k < |t.links| && !t.host.done ensures Listening(t.links[k], t.host.game.turn == k + 1) {
      assert Listening(s.links[k], s.host.game.turn == k + 1);
    }
  }

  /** Handling the message `m` of guest `i`: an action of the guest whose turn it is, or nothing, or the end. */
  lemma HostHandlesGood(s: System, i: nat, m: GuestMessage, die: Die)
    requires Good(s) && Enabled(s, HostHandles(i, m, die))
    ensures Good(Next(s, HostHandles(i, m, die)))
  {
    var l := s.links[i].(inbox := s.links[i].inbox - multiset{m});
    var s1 := s.(links := s.links[i := l]);
    assert PendingQueue(l) == PendingQueue(s.links[i]);
    OneLinkCore(s, i, l);
    if s.host.done {
      IdleNothing(s1);
    } else {
      assert Listening(s.links[i], s.host.game.turn == i + 1);
      assert |l.inbox| == |s.links[i].inbox| - 1;
      TakenHandledGood(s1, i, m, die);
    }
  }

  /** The same, once the message has been taken from those that wait. */
  lemma TakenHandledGood(s: System, i: nat, m: GuestMessage, die: Die)
    requires Core(s) && !s.host.done && i < |s.links|
    requires forall k :: 0 <= k < |s.links| && k != i ==> Listening(s.links[k], s.host.game.turn == k + 1)
    requires s.links[i].listeners + 1 + |s.links[i].inbox| == if s.host.game.turn == i + 1 then 2 else 1
    ensures Good(AfterHost(s, HostReceive(s.host, GuestColor(s, i), m, die)))
  {
    match m
    case Left =>
      FinishedGood(s, GuestLeft(NameFor(s.host.game.seats, GuestColor(s, i), ColorName(GuestColor(s, i)))), false);
    case Acted(action) => HandlesActionGood(s, i, action, die);
  }

  /** A guest's colour is the current one exactly on its turn. */
  lemma TurnColor(s: System, i: nat)
    requires Seating(s) && i < |s.links|
    ensures (Current(s.host.game).color == GuestColor(s, i)) <==> s.host.game.turn == i + 1
  {
    assert GuestColor(s, i) == s.host.game.seats[i + 1].color;
  }

  lemma HandlesActionGood(s: System, i: nat, action: GuestAction, die: Die)
    requires Core(s) && !s.host.done && i < |s.links|
    requires forall k :: 0 <= k < |s.links| && k != i ==> Listening(s.links[k], s.host.game.turn == k + 1)
    requires s.links[i].listeners + 1 + |s.links[i].inbox| == if s.host.game.turn == i + 1 then 2 else 1
    ensures Good(AfterHost(s, HostReceive(s.host, GuestColor(s, i), Acted(action), die)))
  {
    TurnColor(s, i);
    var carriedOut := s.host.game.turn == i + 1
      && (action.ActRoll? || (action.ActMove? && MoveToken(s.host.game, action.id).Ok?));
    if carriedOut {
      assert forall k :: 0 <= k < |s.links| ==> Listening(s.links[k], false);
      ActedGood(s, if action.ActRoll? then Roll(die) else Move(action.id));
    } else {
      ListenAgainGood(s, i);
    }
  }

  lemma GuestListensGood(l: Link, broadcasts: seq<State>)
    requires Following(l, broadcasts) && GuestEnds(l) && l.armed && l.toGuest != []
    ensures Following(LinkGuestListens(l), broadcasts) && GuestEnds(LinkGuestListens(l))
  {
    var l' := LinkGuestListens(l);
    assert PendingQueue(l) == l.toGuest && l.toGuest[0] in l.toGuest;
    if l.toGuest[0].Lost? {
      assert PendingQueue(l')[1..] == l.toGuest;
      assert Snapshots(PendingQueue(l')) == [] + Snapshots(l.toGuest);
    } else {
      assert PendingQueue(l') == l.toGuest;
    }
  }

  lemma GuestHandlesGood(l: Link, broadcasts: seq<State>)
    requires Following(l, broadcasts) && GuestEnds(l) && l.pending.Some?
    ensures Following(LinkGuestHandles(l), broadcasts) && GuestEnds(LinkGuestHandles(l))
  {
    var l' := LinkGuestHandles(l);
    var m := l.pending.value;
    var queue := PendingQueue(l);
    assert queue[0] == m && queue[1..] == l.toGuest;
    if !l.guest.done {
      if m.Snapshot? {
        assert l.views + Snapshots(queue) == (l.views + [m.game]) + Snapshots(l.toGuest);
      }
      if !l'.guest.done {
        assert PendingQueue(l') == l.toGuest;
        assert forall q :: q in l.toGuest ==> q in queue;
      }
    }
  }

  lemma GuestQuitsGood(l: Link, broadcasts: seq<State>)
    requires Following(l, broadcasts) && GuestEnds(l)
    ensures var l' := LinkAfterGuest(l, GuestQuitKey(l.guest)); Following(l', broadcasts) && GuestEnds(l')
  {}

  lemma LinkDropsGood(l: Link, broadcasts: seq<State>, up: nat, down: nat)
    requires Following(l, broadcasts) && GuestEnds(l) && up <= |l.toHost| && down <= |l.toGuest|
    ensures Following(LinkDropped(l, up, down), broadcasts) && GuestEnds(LinkDropped(l, up, down))
  {
    var kept := (if l.pending.Some? then [l.pending.value] else []) + l.toGuest[..down];
    assert PendingQueue(l) == kept + l.toGuest[down..];
    SnapshotsConcat(kept, l.toGuest[down..]);
    SnapshotsConcat(kept, [Lost]);
    if l.up {
      assert PendingQueue(LinkDropped(l, up, down)) == kept + [Lost];
    }
  }

  /** An event that changes one link and nothing else. */
  lemma LinkEventGood(s: System, e: Event, i: nat, l: Link)
    requires Good(s) && Enabled(s, e) && i < |s.links| && Next(s, e) == s.(links := s.links[i := l])
    requires Following(l, s.broadcasts) && GuestEnds(l) && l.guest.self == s.links[i].guest.self
    requires l.up ==> s.links[i].up
    requires l.listeners + |l.inbox| == s.links[i].listeners + |s.links[i].inbox|
    ensures Good(Next(s, e))
  {
    OneLinkGood(s, i, l);
  }

  lemma SendOrListenGood(s: System, e: Event)
    requires Good(s) && Enabled(s, e) && (e.GuestSends? || e.HostListens? || e.GuestListens?)
    ensures Good(Next(s, e))
  {
    var l := s.links[e.i];
    match e
    case GuestSends(i, wire) => if l.up { LinkEventGood(s, e, i, l.(toHost := l.toHost + [wire])); }
    case HostListens(i) => LinkEventGood(s, e, i, LinkListens(l));
    case GuestListens(i) =>
      GuestListensGood(l, s.broadcasts);
      LinkEventGood(s, e, i, LinkGuestListens(l));
  }

  lemma GuestHandlesKeepsRest(l: Link)
    requires l.pending.Some?
    ensures var l' := LinkGuestHandles(l);
      l'.guest.self == l.guest.self && (l'.up ==> l.up) && l'.listeners == l.listeners && l'.inbox == l.inbox
  {}

  lemma GuestHandlesEventGood(s: System, i: nat)
    requires Good(s) && Enabled(s, GuestHandles(i))
    ensures Good(Next(s, GuestHandles(i)))
  {
    GuestHandlesGood(s.links[i], s.broadcasts);
    GuestHandlesKeepsRest(s.links[i]);
    LinkEventGood(s, GuestHandles(i), i, LinkGuestHandles(s.links[i]));
  }

  lemma GuestQuitsEventGood(s: System, i: nat)
    requires Good(s) && Enabled(s, GuestQuits(i))
    ensures Good(Next(s, GuestQuits(i)))
  {
    GuestQuitsGood(s.links[i], s.broadcasts);
    LinkEventGood(s, GuestQuits(i), i, LinkAfterGuest(s.links[i], GuestQuitKey(s.links[i].guest)));
  }

  lemma LinkDropsEventGood(s: System, i: nat, up: nat, down: nat)
    requires Good(s) && Enabled(s, LinkDrops(i, up, down))
    ensures Good(Next(s, LinkDrops(i, up, down)))
  {
    LinkDropsGood(s.links[i], s.broadcasts, up, down);
    LinkEventGood(s, LinkDrops(i, up, down), i, LinkDropped(s.links[i], up, down));
  }

  lemma NextGood(s: System, e: Event)
    requires Good(s) && Enabled(s, e)
    ensures Good(Next(s, e))
  {
    match e
    case HostRolls(_) | HostMoves(_) | HostQuits => HostKeyGood(s, e);
    case HostHandles(i, m, die) => HostHandlesGood(s, i, m, die);
    case GuestSends(_, _) | HostListens(_) | GuestListens(_) => SendOrListenGood(s, e);
    case GuestHandles(i) => GuestHandlesEventGood(s, i);
    case GuestQuits(i) => GuestQuitsEventGood(s, i);
    case LinkDrops(i, up, down) => LinkDropsEventGood(s, i, up, down);
  }

  // ---- Whole runs ----

  predicate CanRun(s: System, es: seq<Event>)
    requires Ready(s)
    decreases |es|
  {
    es == [] || (Enabled(s, es[0]) && CanRun(Next(s, es[0]), es[1..]))
  }

  function Run(s: System, es: seq<Event>): (t: System)
    requires Ready(s) && CanRun(s, es)
    ensures Ready(t) && |t.links| == |s.links|
    decreases |es|
  {
    if es == [] then s else Run(Next(s, es[0]), es[1..])
  }

  lemma {:induction false} RunGood(s: System, es: seq<Event>)
    requires Good(s) && CanRun(s, es)
    ensures Good(Run(s, es))
    decreases |es|
  {
    if es != [] {
      NextGood(s, es[0]);
      RunGood(Next(s, es[0]), es[1..]);
    }
  }

  /** The seats a host gives out: itself as Red, its guests as Green, Yellow and Blue. */
  predicate HostSeats(seats: seq<Seat>) {
    2 <= |seats| <= 4 && forall i :: 0 <= i < |seats| ==> seats[i] == NewSeat(COLORS[i], seats[i].name, false)
  }

  lemma ColorsDiffer(i: nat, j: nat)
    requires i < j < 4
    ensures COLORS[i] != COLORS[j]
  {}

  lemma SeatColors(seats: seq<Seat>)
    requires HostSeats(seats)
    ensures seats[0].color == Red && forall i, j :: 0 <= i < j < |seats| ==> seats[i].color != seats[j].color
  {
    forall i, j | 0 <= i < j < |seats| ensures seats[i].color != seats[j].color {
      ColorsDiffer(i, j);
    }
  }

  lemma StartSeating(seats: seq<Seat>)
    requires HostSeats(seats)
    ensures Seating(Start(seats))
  {
    StartInv(seats);
    SeatColors(seats);
    StartPlayers(seats);
  }

  lemma StartPlayers(seats: seq<Seat>)
    requires seats != []
    ensures var s := Start(seats);
      && s.host.game.seats == seats && s.host.self == seats[0].name && |s.links| == |seats| - 1
      && forall i :: 0 <= i < |s.links| ==> s.links[i].guest.self == seats[i + 1].name
  {}

  lemma StartInv(seats: seq<Seat>)
    requires HostSeats(seats)
    ensures Inv(NewGame(seats))
  {
    SeatColors(seats);
    assert forall i :: 0 <= i < |seats| ==>
      seats[i].tokens == NewSeat(seats[i].color, seats[i].name, seats[i].isAI).tokens;
    NewGameInv(seats);
  }

  lemma StartGood(seats: seq<Seat>)
    requires HostSeats(seats)
    ensures Good(Start(seats))
  {
    StartSeating(seats);
    var s := Start(seats);
    forall i | 0 <= i < |s.links|
      ensures Following(s.links[i], []) && GuestEnds(s.links[i]) && Listening(s.links[i], false)
    {
      assert PendingQueue(s.links[i]) == [];
    }
    assert History(s);
    assert HostEnds(s);
  }

  ghost predicate RunsFrom(seats: seq<Seat>, es: seq<Event>, s: System) {
    HostSeats(seats) && Ready(Start(seats)) && CanRun(Start(seats), es) && s == Run(Start(seats), es)
  }

  ghost predicate ReachableSystem(s: System) {
    exists seats: seq<Seat>, es: seq<Event> :: RunsFrom(seats, es, s)
  }

  lemma ReachableGood(s: System)
    requires ReachableSystem(s)
    ensures Good(s)
  {
    var seats: seq<Seat>, es: seq<Event> :| RunsFrom(seats, es, s);
    StartGood(seats);
    RunGood(Start(seats), es);
  }

  // ---- The theorems ----

  /** The seat whose player an event speaks for. */
  function Actor(e: Event): Option<nat> {
    match e
    case HostRolls(_) | HostMoves(_) => Some(0)
    case HostHandles(i, _, _) => Some(i + 1)
    case _ => None
  }

  predicate Unplayed(s: System, t: System) {
    t.host.game == s.host.game && t.broadcasts == s.broadcasts
  }

  /** The engine has carried out and the host has broadcast action `a`. */
  predicate PlayedBy(s: System, a: LudoRules.Action, t: System)
    requires WellFormed(s.host.game)
  {
    && t.host.game == Step(s.host.game, a)
    && (a.Move? ==> MoveToken(s.host.game, a.id).Ok?)
    && t.broadcasts == s.broadcasts + [Project(t.host.game)]
  }

  lemma ActedIsPlayed(s: System, s1: System, a: LudoRules.Action)
    requires Seating(s) && s1.host == s.host && s1.broadcasts == s.broadcasts && |s1.links| == |s.links|
    requires a.Move? ==> MoveToken(s.host.game, a.id).Ok?
    ensures PlayedBy(s, a, AfterHost(s1, AfterAction(s.host.(game := Step(s.host.game, a)))))
  {}

  lemma UnplayedReaction(s: System, r: HostReaction)
    requires Seating(s) && r.broadcast == None && r.host.game == s.host.game
    ensures Unplayed(s, AfterHost(s, r))
  {}

  /** The event leaves the match alone, or is an action of the engine for the seat whose turn it is. */
  ghost predicate ByEngine(s: System, e: Event, t: System)
    requires WellFormed(s.host.game)
  {
    Unplayed(s, t) || (Actor(e) == Some(s.host.game.turn) && exists a :: PlayedBy(s, a, t))
  }

  lemma KeyIsEngineStep(s: System, e: Event)
    requires Good(s) && (e.HostRolls? || e.HostMoves?)
    ensures ByEngine(s, e, Next(s, e))
  {
    var a := if e.HostRolls? then Roll(e.die) else Move(e.id);
    if a.Roll? || MoveToken(s.host.game, a.id).Ok? { ActedIsPlayed(s, s, a); }
    UnplayedReaction(s, Idle(s.host));
    if Current(s.host.game).color == SeatColorOf(s.host.game.seats, s.host.self) { HostsOwnTurn(s); }
  }

  /** A message either leaves the game alone or is an action of the player whose turn it is. */
  lemma ReceivedAction(h: Host, seat: Color, m: GuestMessage, die: Die) returns (a: LudoRules.Action)
    requires WellFormed(h.game)
    requires var r := HostReceive(h, seat, m, die); !(r.broadcast == None && r.host.game == h.game)
    ensures Current(h.game).color == seat && (a.Move? ==> MoveToken(h.game, a.id).Ok?)
    ensures HostReceive(h, seat, m, die) == AfterAction(h.(game := Step(h.game, a)))
  {
    a := if m.action.ActRoll? then Roll(die) else Move(m.action.id);
  }

  lemma HandledIsEngineStep(s: System, i: nat, m: GuestMessage, die: Die)
    requires Good(s) && Enabled(s, HostHandles(i, m, die))
    ensures var t := Next(s, HostHandles(i, m, die));
      Unplayed(s, t) || (s.host.game.turn == i + 1 && exists a :: PlayedBy(s, a, t))
  {
    var s1 := s.(links := s.links[i := s.links[i].(inbox := s.links[i].inbox - multiset{m})]);
    var r := HostReceive(s.host, GuestColor(s, i), m, die);
    if r.broadcast == None && r.host.game == s.host.game {
      UnplayedReaction(s1, r);
    } else {
      var a := ReceivedAction(s.host, GuestColor(s, i), m, die);
      ActedIsPlayed(s, s1, a);
    }
  }

  /**
   Whatever the guests send, the host's game changes only by actions of the engine for the
   seat whose turn it is, a move only if the engine accepts it, and each is broadcast.
   */
  lemma HostTakesEngineSteps(s: System, e: Event)
    requires Good(s) && Enabled(s, e)
    ensures ByEngine(s, e, Next(s, e))
  {
    if e.HostRolls? || e.HostMoves? {
      KeyIsEngineStep(s, e);
    } else if e.HostQuits? {
      QuittingPlaysNothing(s);
    } else if e.HostHandles? {
      HandledIsByEngine(s, e);
    } else {
      GuestsPlayNothing(s, e);
    }
  }

  lemma QuittingPlaysNothing(s: System)
    requires Good(s)
    ensures Unplayed(s, Next(s, HostQuits))
  {
    UnplayedReaction(s, HostQuitKey(s.host));
  }

  lemma HandledIsByEngine(s: System, e: Event)
    requires Good(s) && Enabled(s, e) && e.HostHandles?
    ensures ByEngine(s, e, Next(s, e))
  {
    HandledIsEngineStep(s, e.i, e.m, e.die);
    assert e == HostHandles(e.i, e.m, e.die);
  }

  lemma GuestsPlayNothing(s: System, e: Event)
    requires Good(s) && Enabled(s, e) && !e.HostRolls? && !e.HostMoves? && !e.HostQuits? && !e.HostHandles?
    ensures Unplayed(s, Next(s, e))
  {}

  /** A guest's k-th view is what its screen keeps of the host's game after the k-th action, and it has missed none. */
  lemma GuestsFollowTheHost(s: System, i: nat)
    requires ReachableSystem(s) && i < |s.links|
    ensures |s.links[i].views| <= |s.broadcasts| && |s.played| == |s.broadcasts| + 1
    ensures forall k :: 0 <= k < |s.links[i].views| ==> s.links[i].views[k] == Project(s.played[k + 1])
    ensures s.links[i].guest.view ==
      if s.links[i].views == [] then None else Some(Project(s.played[|s.links[i].views|]))
    ensures Played(s.played)
  {
    ReachableGood(s);
  }

  /** Until the match ends, a guest has one listener or waiting message, and the guest whose turn it is has two. */
  lemma ListenerCount(s: System, i: nat)
    requires ReachableSystem(s) && i < |s.links| && !s.host.done
    ensures s.links[i].listeners + |s.links[i].inbox| == 1 + (if s.host.game.turn == i + 1 then 1 else 0)
  {
    ReachableGood(s);
  }

  // ---- Departures are heard ----

  lemma RunOne(s: System, e: Event, rest: seq<Event>)
    requires Good(s) && Enabled(s, e) && Good(Next(s, e)) && CanRun(Next(s, e), rest)
    ensures CanRun(s, [e] + rest) && Run(s, [e] + rest) == Run(Next(s, e), rest)
  {
    assert ([e] + rest)[1..] == rest;
  }

  predicate AboutGuest(e: Event, i: nat) {
    (e.HostListens? && e.i == i) || (e.HostHandles? && e.i == i)
  }

  /** Handling a message of guest `i` takes nothing off its session unless it ends the match. */
  lemma HandlingKeepsQueue(s: System, i: nat, m: GuestMessage, die: Die)
    requires Good(s) && !s.host.done && Enabled(s, HostHandles(i, m, die)) && !Next(s, HostHandles(i, m, die)).host.done
    ensures var t := Next(s, HostHandles(i, m, die));
      t.links[i].toHost == s.links[i].toHost && t.links[i].inbox == s.links[i].inbox - multiset{m}
  {}

  lemma LeftHeard(s: System, i: nat) returns (es: seq<Event>)
    requires Good(s) && !s.host.done && i < |s.links| && Left in s.links[i].inbox
    ensures CanRun(s, es) && Run(s, es).host.done
    ensures forall e :: e in es ==> AboutGuest(e, i)
  {
    var e := HostHandles(i, Left, 1);
    NextGood(s, e);
    RunOne(s, e, []);
    es := [e] + [];
  }

  /** Once guest `i`'s session has ended, the host has only to attend to that session to find out. */
  lemma {:induction false} DepartureHeard(s: System, i: nat, k: nat) returns (es: seq<Event>)
    requires Good(s) && !s.host.done && i < |s.links| && k < |s.links[i].toHost| && s.links[i].toHost[k] == Gone
    ensures CanRun(s, es) && Run(s, es).host.done
    ensures forall e :: e in es ==> AboutGuest(e, i)
    decreases k, |s.links[i].inbox|, 1
  {
    var l := s.links[i];
    if l.inbox == multiset{} {
      es := DepartureListened(s, i, k);
    } else {
      var m :| m in l.inbox;
      var e := HostHandles(i, m, 1);
      NextGood(s, e);
      var rest := [];
      if !Next(s, e).host.done {
        HandlingKeepsQueue(s, i, m, 1);
        rest := DepartureHeard(Next(s, e), i, k);
      }
      RunOne(s, e, rest);
      es := [e] + rest;
    }
  }

  lemma ListenerIsThere(s: System, i: nat)
    requires Good(s) && !s.host.done && i < |s.links| && s.links[i].inbox == multiset{}
    ensures s.links[i].listeners > 0
  {
    assert Listening(s.links[i], s.host.game.turn == i + 1);
  }

  lemma {:induction false} DepartureListened(s: System, i: nat, k: nat) returns (es: seq<Event>)
    requires Good(s) && !s.host.done && i < |s.links| && k < |s.links[i].toHost| && s.links[i].toHost[k] == Gone
    requires s.links[i].inbox == multiset{}
    ensures CanRun(s, es) && Run(s, es).host.done
    ensures forall e :: e in es ==> AboutGuest(e, i)
    decreases k, 0, 0
  {
    var l := s.links[i];
    var e := HostListens(i);
    ListenerIsThere(s, i);
    NextGood(s, e);
    var t := Next(s, e);
    assert t.links[i] == LinkListens(l) && t.host == s.host;
    var rest;
    if l.toHost[0] == Gone {
      rest := LeftHeard(t, i);
    } else {
      rest := DepartureHeard(t, i, k - 1);
    }
    RunOne(s, e, rest);
    es := [e] + rest;
  }

  lemma HostStaysDone(s: System, e: Event)
    requires Ready(s) && Enabled(s, e) && s.host.done
    ensures Next(s, e).host == s.host
  {}

  lemma {:induction false} DoneForGood(s: System, es: seq<Event>)
    requires Ready(s) && CanRun(s, es) && s.host.done
    ensures Run(s, es).host.done
    decreases |es|
  {
    if es != [] {
      HostStaysDone(s, es[0]);
      DoneForGood(Next(s, es[0]), es[1..]);
    }
  }

  /** How often the host can still attend to a session that ends with message `k`, before it finds out. */
  function AttentionLeft(l: Link, k: nat): int {
    2 * k + |l.inbox| + 2 - 2 * l.inbox[Left]
  }

  lemma AttentionLeftNat(s: System, i: nat, k: nat)
    requires Good(s) && !s.host.done && i < |s.links|
    ensures AttentionLeft(s.links[i], k) >= 0
  {
    assert Listening(s.links[i], s.host.game.turn == i + 1);
    assert s.links[i].inbox[Left] <= |s.links[i].inbox|;
  }

  /** One event of the host attending to the session: the end comes nearer, or the match is over. */
  lemma AttendingStep(s: System, e: Event, i: nat, k: nat) returns (k': nat)
    requires Good(s) && !s.host.done && Enabled(s, e) && AboutGuest(e, i) && !Next(s, e).host.done
    requires k < |s.links[i].toHost| && s.links[i].toHost[k] == Gone
    ensures var l := Next(s, e).links[i];
      k' < |l.toHost| && l.toHost[k'] == Gone && AttentionLeft(l, k') < AttentionLeft(s.links[i], k)
  {
    var l := s.links[i];
    if e.HostHandles? {
      HandlingKeepsQueue(s, i, e.m, e.die);
      assert (l.inbox - multiset{e.m})[Left] == l.inbox[Left];
      k' := k;
    } else {
      assert Next(s, e).links[i] == LinkListens(l);
      k' := if l.toHost[0].Gone? then k else k - 1;
    }
  }

  /** However the host attends to that session, it cannot do so for long without finding out. */
  lemma {:induction false} DepartureCannotBeMissed(s: System, i: nat, k: nat, es: seq<Event>)
    requires Good(s) && !s.host.done && i < |s.links| && k < |s.links[i].toHost| && s.links[i].toHost[k] == Gone
    requires CanRun(s, es) && forall e :: e in es ==> AboutGuest(e, i)
    requires |es| > 2 * k + |s.links[i].inbox| + 2 - 2 * s.links[i].inbox[Left]
    ensures Run(s, es).host.done
    decreases |es|
  {
    AttentionLeftNat(s, i, k);
    var t := Next(s, es[0]);
    NextGood(s, es[0]);
    if t.host.done {
      DoneForGood(t, es[1..]);
    } else {
      var k' := AttendingStep(s, es[0], i, k);
      DepartureCannotBeMissed(t, i, k', es[1..]);
    }
  }

  // ---- The outcome ----

  /**
   With distinct names and the final position delivered to all, exactly the winner's instance
   reports a win, every other names the winner, and each has announced the end once.
   */
  lemma WonMatchOutcome(s: System, i: nat)
    requires ReachableSystem(s) && DistinctNames(s.host.game.seats) && s.host.game.phase == GameOver
    requires forall k :: 0 <= k < |s.links| ==> s.links[k].guest.view == Some(Project(s.host.game))
    requires i < |s.host.game.seats|
    ensures |s.links| + 1 == |s.host.game.seats|
    ensures var w := s.host.game.turn;
      && HasWon(s.host.game.seats[w])
      && (if i == 0 then s.host.result else s.links[i - 1].guest.result)
         == (if i == w then YouWin else Wins(s.host.game.seats[w].name))
      && (if i == 0 then s.hostEnds else s.links[i - 1].ends) == 1
  {
    ReachableGood(s);
    WinTextPerSeat(s.host.game, s.host.game.turn, i);
    WinTextPerSeat(Project(s.host.game), s.host.game.turn, i);
  }

  /** No instance ever announces the end twice. */
  lemma EndAnnouncedAtMostOnce(s: System)
    requires ReachableSystem(s)
    ensures s.hostEnds <= 1 && (s.hostEnds == 1 <==> s.host.done)
    ensures forall i :: 0 <= i < |s.links| ==> s.links[i].ends <= 1 && (s.links[i].ends == 1 <==> s.links[i].guest.done)
  {
    ReachableGood(s);
  }
}
