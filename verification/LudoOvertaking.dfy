/**
 A guest that goes on pressing its keys after it has chosen a token: when its choice is certain
 to be carried out in the position it was made in, and when something can overtake it.
 */
module LudoOvertaking {
  import opened Wrappers
  import opened LudoRules
  import opened LudoInvariant
  import opened LudoPeer
  import opened LudoNet
  import opened LudoChoices

  /** Whatever guest `i` sends in this event, its keys let through. */
  predicate KeyedEvent(s: System, e: Event, i: nat) {
    e.GuestSends? && e.i == i ==> i < |s.links| && e.wire.Action? && MaySend(s.links[i].guest, e.wire.action)
  }

  predicate KeyedBy(s: System, es: seq<Event>, i: nat)
    requires Ready(s) && CanRun(s, es)
    decreases |es|
  {
    es == [] || (KeyedEvent(s, es[0], i) && KeyedBy(Next(s, es[0]), es[1..], i))
  }

  /**
   In some run in which guest `i` presses whatever keys it likes, stays or leaves, the choice is
   handled elsewhere than in `game` before any copy of it has been carried out there.
   */
  ghost predicate CanBeOvertaken(s: System, i: nat, id: int, game: State)
    requires Ready(s) && WellFormed(game) && MoveToken(game, id).Ok?
  {
    exists es :: CanRun(s, es) && KeyedBy(s, es, i) && MisjudgedFirst(s, es, i, id, game)
  }

  /** The guest has another legal token to choose. */
  ghost predicate AnotherChoice(game: State, id: int)
    requires WellFormed(game)
  {
    exists k :: k != id && MoveToken(game, k).Ok?
  }

  /** The message is carried out in `game` and is not the choice of `id`. */
  predicate Diverts(game: State, m: GuestMessage, id: int)
    requires WellFormed(game)
  {
    CarriedOut(game, m) && m != Chosen(id)
  }

  /**
   Message `r` of those yet to be taken diverts, with at most one copy of the choice before it:
   the host attends to two messages of a guest at a time.
   */
  predicate DivertsAt(inbox: multiset<GuestMessage>, queue: seq<GuestWire>, r: nat, game: State, id: int)
    requires WellFormed(game)
  {
    r < |queue| && Diverts(game, Heard(queue[r]), id) && Ahead(inbox, queue[..r], id) <= 1
  }

  /** Something under way can be carried out before the first copy of the choice. */
  ghost predicate InFront(inbox: multiset<GuestMessage>, queue: seq<GuestWire>, game: State, id: int)
    requires WellFormed(game)
  {
    (exists m :: m in inbox && Diverts(game, m, id)) || (exists r: nat :: DivertsAt(inbox, queue, r, game, id))
  }

  // ---- What is in front can be carried out first ----

  predicate ChoiceComing(s: System, i: nat, id: int, game: State) {
    && ChoiceAtLarge(s, i, id) && s.host.game == game
    && WellFormed(game) && game.turn == i + 1 && MoveToken(game, id).Ok?
  }

  /** What diverts does not win: a winning choice is the only one there is. */
  lemma DiversionGoesOn(game: State, m: GuestMessage, id: int)
    requires WellFormed(game) && MoveToken(game, id).Ok? && Diverts(game, m, id)
    ensures Disturbs(game, m)
  {
    if m.action.ActMove? && WinsWith(game, m.action.id) { OneWinningChoice(game, m.action.id, id); }
  }

  lemma DivertedDrifts(s: System, i: nat, m: GuestMessage, id: int, game: State) returns (e: Event)
    requires Good(s) && ChoiceComing(s, i, id, game) && m in s.links[i].inbox && Diverts(game, m, id)
    ensures Enabled(s, e) && AboutGuest(e, i) && !HandlesChoice(e, i, id)
    ensures ChoiceAtLarge(Next(s, e), i, id) && Drifted(Next(s, e).host.game, game)
  {
    DiversionGoesOn(game, m, id);
    var die := AnsweredDrifts(game, game, m.action);
    HandledEffect(s, i, m.action, die);
    e := HostHandles(i, m, die);
  }

  lemma DivertedIsMisjudged(s: System, i: nat, m: GuestMessage, id: int, game: State)
    requires Good(s) && ChoiceComing(s, i, id, game) && m in s.links[i].inbox && Diverts(game, m, id)
    ensures HostCanMisjudge(s, i, id, game)
  {
    var e := DivertedDrifts(s, i, m, id, game);
    NextGood(s, e);
    DriftedIsMisjudged(Next(s, e), i, id, game);
    MisjudgedNext(s, e, i, id, game);
  }

  lemma InFrontAfterTaking(inbox: multiset<GuestMessage>, queue: seq<GuestWire>, game: State, id: int)
    requires WellFormed(game) && queue != [] && InFront(inbox, queue, game, id)
    ensures InFront(inbox + multiset{Heard(queue[0])}, queue[1..], game, id)
  {
    var inbox' := inbox + multiset{Heard(queue[0])};
    if m :| m in inbox && Diverts(game, m, id) {
      assert m in inbox';
    } else {
      var r: nat :| DivertsAt(inbox, queue, r, game, id);
      if r == 0 {
        assert Heard(queue[0]) in inbox';
      } else {
        AheadMoves(inbox, queue, r, id);
        assert DivertsAt(inbox', queue[1..], r - 1, game, id);
      }
    }
  }

  lemma InFrontWithoutHarmless(
      inbox: multiset<GuestMessage>, queue: seq<GuestWire>, m: GuestMessage, game: State, id: int)
    requires WellFormed(game) && MoveToken(game, id).Ok? && m in inbox && !CarriedOut(game, m)
    ensures InFront(inbox - multiset{m}, queue, game, id) <==> InFront(inbox, queue, game, id)
  {
    var inbox' := inbox - multiset{m};
    assert forall k: GuestMessage :: k != m ==> inbox'[k] == inbox[k];
    assert m != Chosen(id);
    assert forall r: nat :: DivertsAt(inbox', queue, r, game, id) <==> DivertsAt(inbox, queue, r, game, id);
  }

  /** With only copies of the choice among the messages taken, there is a listener for the next. */
  lemma RoomForNext(s: System, i: nat, id: int, game: State)
    requires Good(s) && ChoiceComing(s, i, id, game) && InFront(s.links[i].inbox, s.links[i].toHost, game, id)
    requires forall m :: m in s.links[i].inbox ==> m == Chosen(id)
    ensures Enabled(s, HostListens(i))
  {
    CountOfEqual(s.links[i].inbox, Chosen(id));
    assert Listening(s.links[i], s.host.game.turn == i + 1);
  }

  lemma TakingKeepsComing(s: System, i: nat, id: int, game: State)
    requires Good(s) && ChoiceComing(s, i, id, game) && Enabled(s, HostListens(i))
    ensures var t := Next(s, HostListens(i));
      ChoiceComing(t, i, id, game) && Backlog(t.links[i]) < Backlog(s.links[i])
  {
    var l := s.links[i];
    ListenedEffect(s, i);
    assert l.toHost == [l.toHost[0]] + l.toHost[1..];
  }

  lemma TakesOne(s: System, i: nat, id: int, game: State)
    requires Good(s) && ChoiceComing(s, i, id, game) && InFront(s.links[i].inbox, s.links[i].toHost, game, id)
    requires Enabled(s, HostListens(i))
    ensures var t := Next(s, HostListens(i));
      && ChoiceComing(t, i, id, game) && InFront(t.links[i].inbox, t.links[i].toHost, game, id)
      && Backlog(t.links[i]) < Backlog(s.links[i])
  {
    var l := s.links[i];
    TakingKeepsComing(s, i, id, game);
    ListenedEffect(s, i);
    InFrontAfterTaking(l.inbox, l.toHost, game, id);
    assert l.toHost[0] in l.toHost;
  }

  lemma HarmlessPassed(s: System, i: nat, m: GuestMessage, id: int, game: State)
    requires Good(s) && ChoiceComing(s, i, id, game) && InFront(s.links[i].inbox, s.links[i].toHost, game, id)
    requires m in s.links[i].inbox && !CarriedOut(game, m)
    ensures var t := Next(s, HostHandles(i, m, 1));
      && ChoiceComing(t, i, id, game) && InFront(t.links[i].inbox, t.links[i].toHost, game, id)
      && Backlog(t.links[i]) < Backlog(s.links[i])
  {
    HandledEffect(s, i, m.action, 1);
    InFrontWithoutHarmless(s.links[i].inbox, s.links[i].toHost, m, game, id);
  }

  lemma {:induction false} InFrontIsMisjudged(s: System, i: nat, id: int, game: State)
    requires Good(s) && ChoiceComing(s, i, id, game) && InFront(s.links[i].inbox, s.links[i].toHost, game, id)
    ensures HostCanMisjudge(s, i, id, game)
    decreases Backlog(s.links[i])
  {
    var inbox := s.links[i].inbox;
    if m :| m in inbox && Diverts(game, m, id) {
      DivertedIsMisjudged(s, i, m, id, game);
    } else {
      var e := HostListens(i);
      if m :| m in inbox && !CarriedOut(game, m) {
        HarmlessPassed(s, i, m, id, game);
        e := HostHandles(i, m, 1);
      } else {
        RoomForNext(s, i, id, game);
        TakesOne(s, i, id, game);
      }
      NextGood(s, e);
      InFrontIsMisjudged(Next(s, e), i, id, game);
      MisjudgedNext(s, e, i, id, game);
    }
  }

  // ---- What nothing is or can get in front of is carried out first ----

  /**
   Nothing diverts before the first copy of the choice; and while the guest can send, either it
   has no other choice to send or two copies are ahead of whatever it sends.
   */
  ghost predicate Uncontested(l: Link, id: int, game: State)
    requires WellFormed(game)
  {
    && !InFront(l.inbox, l.toHost, game, id)
    && (l.up ==> UnderWay(l, id) && (AnotherChoice(game, id) ==> Ahead(l.inbox, l.toHost, id) >= 2))
  }

  /** The guest's screen shows the host's position, as long as the session is up. */
  predicate Watching(s: System, i: nat) {
    i < |s.links| && (s.links[i].up ==> s.broadcasts != [] && s.links[i].views == s.broadcasts)
  }

  /** The match waits in `game` for the choice, or for the host to hear that the guest has gone. */
  ghost predicate OnCourse(s: System, i: nat, id: int, game: State) {
    && !s.host.done && s.host.game == game && WellFormed(game) && game.turn == i + 1 && MoveToken(game, id).Ok?
    && Watching(s, i) && Uncontested(s.links[i], id, game)
  }

  /** The first `n` messages on the session stay, and no action is added. */
  predicate CutTo(l: Link, l': Link, n: nat, rest: seq<GuestWire>) {
    && n <= |l.toHost| && l'.inbox == l.inbox && l'.toHost == l.toHost[..n] + rest
    && (forall w :: w in rest ==> !w.Action?)
    && (l'.up ==> l.up && n == |l.toHost|)
  }

  lemma CutAt(queue: seq<GuestWire>, n: nat, rest: seq<GuestWire>, r: nat)
    requires n <= |queue| && r < n + |rest|
    ensures var cut := queue[..n] + rest; if r < n then cut[r] == queue[r] else cut[r] in rest
  {}

  lemma InFrontBeforeCut(l: Link, l': Link, n: nat, rest: seq<GuestWire>, id: int, game: State)
    requires WellFormed(game) && CutTo(l, l', n, rest) && InFront(l'.inbox, l'.toHost, game, id)
    ensures InFront(l.inbox, l.toHost, game, id)
  {
    if r: nat :| DivertsAt(l'.inbox, l'.toHost, r, game, id) {
      CutAt(l.toHost, n, rest, r);
      assert l'.toHost[..r] == l.toHost[..r] && DivertsAt(l.inbox, l.toHost, r, game, id);
    }
  }

  lemma UncontestedCut(l: Link, l': Link, n: nat, rest: seq<GuestWire>, id: int, game: State)
    requires WellFormed(game) && Uncontested(l, id, game) && CutTo(l, l', n, rest)
    ensures Uncontested(l', id, game)
  {
    if InFront(l'.inbox, l'.toHost, game, id) { InFrontBeforeCut(l, l', n, rest, id, game); }
    if l'.up {
      assert l.toHost[..n] == l.toHost && Sent(id) !in rest;
    }
  }

  lemma InFrontBeforeSend(l: Link, k: int, id: int, game: State)
    requires WellFormed(game) && InFront(l.inbox, l.toHost + [Sent(k)], game, id)
    ensures InFront(l.inbox, l.toHost, game, id) || (k != id && Ahead(l.inbox, l.toHost, id) <= 1)
  {
    var queue := l.toHost + [Sent(k)];
    assert queue[..|l.toHost|] == l.toHost;
    if r: nat :| DivertsAt(l.inbox, queue, r, game, id) {
      if r < |l.toHost| {
        assert queue[..r] == l.toHost[..r] && DivertsAt(l.inbox, l.toHost, r, game, id);
      }
    }
  }

  lemma UncontestedSend(l: Link, k: int, id: int, game: State)
    requires WellFormed(game) && Uncontested(l, id, game) && l.up && MoveToken(game, k).Ok?
    ensures Uncontested(l.(toHost := l.toHost + [Sent(k)]), id, game)
  {
    assert k != id ==> AnotherChoice(game, id);
    if InFront(l.inbox, l.toHost + [Sent(k)], game, id) { InFrontBeforeSend(l, k, id, game); }
  }

  lemma DivertsAtBeforeTaking(l: Link, r: nat, game: State, id: int)
    requires WellFormed(game) && l.listeners > 0 && l.toHost != []
    requires DivertsAt(LinkListens(l).inbox, LinkListens(l).toHost, r, game, id)
    ensures InFront(l.inbox, l.toHost, game, id)
  {
    var l' := LinkListens(l);
    if l.toHost[0].Gone? {
      assert l'.inbox[Chosen(id)] == l.inbox[Chosen(id)];
      assert DivertsAt(l.inbox, l.toHost, r, game, id);
    } else {
      AheadMoves(l.inbox, l.toHost, r + 1, id);
      assert l.toHost[1..][..r] == l'.toHost[..r];
      assert DivertsAt(l.inbox, l.toHost, r + 1, game, id);
    }
  }

  lemma InFrontBeforeTaking(l: Link, game: State, id: int)
    requires WellFormed(game) && l.listeners > 0 && l.toHost != [] && l.listeners + |l.inbox| <= 2
    requires InFront(LinkListens(l).inbox, LinkListens(l).toHost, game, id)
    ensures InFront(l.inbox, l.toHost, game, id)
  {
    var l' := LinkListens(l);
    if Diverts(game, Heard(l.toHost[0]), id) {
      assert l.toHost[..0] == [] && l.inbox[Chosen(id)] <= |l.inbox|;
      assert DivertsAt(l.inbox, l.toHost, 0, game, id);
    } else if r: nat :| DivertsAt(l'.inbox, l'.toHost, r, game, id) {
      DivertsAtBeforeTaking(l, r, game, id);
    }
  }

  lemma UncontestedTaken(l: Link, id: int, game: State)
    requires WellFormed(game) && Uncontested(l, id, game)
    requires l.listeners > 0 && l.toHost != [] && l.listeners + |l.inbox| <= 2
    ensures Uncontested(LinkListens(l), id, game)
  {
    ListeningKeepsAhead(l, id);
    var l' := LinkListens(l);
    if InFront(l'.inbox, l'.toHost, game, id) { InFrontBeforeTaking(l, game, id); }
    if l.up {
      assert Ahead(l'.inbox, l'.toHost, id) > 0;
    }
  }

  lemma UncontestedWithoutHarmless(l: Link, m: GuestMessage, id: int, game: State)
    requires WellFormed(game) && MoveToken(game, id).Ok? && Uncontested(l, id, game)
    requires m in l.inbox && m != Chosen(id)
    ensures !CarriedOut(game, m) && Uncontested(l.(inbox := l.inbox - multiset{m}), id, game)
  {
    assert !Diverts(game, m, id);
    InFrontWithoutHarmless(l.inbox, l.toHost, m, game, id);
    assert (l.inbox - multiset{m})[Chosen(id)] == l.inbox[Chosen(id)];
  }

  // ---- Every event of a run ----

  /** Nothing the host does changes what a guest has seen. */
  lemma HostLeavesViews(s: System, e: Event, i: nat)
    requires Good(s) && Enabled(s, e) && i < |s.links|
    requires e.HostRolls? || e.HostMoves? || e.HostQuits? || e.HostHandles?
    ensures Next(s, e).links[i].views == s.links[i].views && (Next(s, e).links[i].up ==> s.links[i].up)
  {}

  lemma WatchingStays(s: System, e: Event, i: nat)
    requires Good(s) && Enabled(s, e) && Watching(s, i) && Next(s, e).broadcasts == s.broadcasts
    ensures Watching(Next(s, e), i)
  {
    if e.HostRolls? || e.HostMoves? || e.HostQuits? || e.HostHandles? {
      HostLeavesViews(s, e, i);
    } else if s.links[i].up {
      NothingToSee(s.links[i], s.broadcasts);
    }
  }

  /** A guest that has seen everything has nothing to take and nothing in hand. */
  lemma NothingToSee(l: Link, broadcasts: seq<State>)
    requires Following(l, broadcasts) && l.up && l.views == broadcasts
    ensures l.pending == None && l.toGuest == []
  {
    AllSnapshots(PendingQueue(l));
    assert |l.views + Snapshots(PendingQueue(l))| == |broadcasts|;
  }

  lemma {:induction false} AllSnapshots(q: seq<HostMessage>)
    requires forall m :: m in q ==> m.Snapshot?
    ensures |Snapshots(q)| == |q|
  {
    if q != [] {
      assert forall m :: m in q[1..] ==> m in q;
      AllSnapshots(q[1..]);
    }
  }

  /** What does not come from the guest and is not about it cuts nothing off. */
  lemma OthersCut(s: System, e: Event, i: nat)
    requires Good(s) && Enabled(s, e) && i < |s.links| && Waits(e, i) && !AboutGuest(e, i)
    ensures exists rest ::
      CutTo(s.links[i], Next(s, e).links[i], |s.links[i].toHost|, rest)
  {
    OthersKeep(s, e, i);
    var (l, l') := (s.links[i], Next(s, e).links[i]);
    var rest := if l'.toHost == l.toHost then [] else [Gone];
    assert l.toHost[..|l.toHost|] == l.toHost;
    assert CutTo(l, l', |l.toHost|, rest);
  }

  /** Leaving or being cut off may cut off what is under way, and ends the session. */
  lemma GoingCuts(s: System, e: Event, i: nat) returns (n: nat, rest: seq<GuestWire>)
    requires Good(s) && Enabled(s, e) && i < |s.links| && ((e.GuestQuits? && e.i == i) || (e.LinkDrops? && e.i == i))
    ensures CutTo(s.links[i], Next(s, e).links[i], n, rest) && Next(s, e).host == s.host
      && Next(s, e).broadcasts == s.broadcasts
  {
    var (l, l') := (s.links[i], Next(s, e).links[i]);
    assert l.toHost[..|l.toHost|] == l.toHost;
    n := if e.LinkDrops? && l.up then e.keptUp else |l.toHost|;
    rest := l'.toHost[n..];
  }

  /** By its keys the guest can send choices legal in `game` and nothing else. */
  lemma KeysAreChoices(s: System, i: nat, action: GuestAction, id: int, game: State)
    requires Good(s) && OnCourse(s, i, id, game) && s.links[i].up && MaySend(s.links[i].guest, action)
    ensures action.ActMove? && MoveToken(game, action.id).Ok?
  {
    KeysFitExactly(s, i, action);
  }

  lemma KeyedSend(s: System, i: nat, wire: GuestWire, id: int, game: State)
    requires Good(s) && OnCourse(s, i, id, game) && Enabled(s, GuestSends(i, wire))
      && KeyedEvent(s, GuestSends(i, wire), i)
    ensures OnCourse(Next(s, GuestSends(i, wire)), i, id, game)
  {
    var l := s.links[i];
    if l.up {
      KeysAreChoices(s, i, wire.action, id, game);
      assert wire == Sent(wire.action.id);
      UncontestedSend(l, wire.action.id, id, game);
      assert Next(s, GuestSends(i, wire)).links[i] == l.(toHost := l.toHost + [wire]);
    }
  }

  lemma CourseKept(s: System, e: Event, i: nat, n: nat, rest: seq<GuestWire>, id: int, game: State)
    requires Good(s) && OnCourse(s, i, id, game) && Enabled(s, e)
    requires CutTo(s.links[i], Next(s, e).links[i], n, rest)
    requires Next(s, e).host.game == s.host.game && Next(s, e).broadcasts == s.broadcasts && !Next(s, e).host.done
    ensures OnCourse(Next(s, e), i, id, game)
  {
    WatchingStays(s, e, i);
    UncontestedCut(s.links[i], Next(s, e).links[i], n, rest, id, game);
  }

  /** Whatever is neither from the guest nor about it: the match stays where it is, or ends. */
  lemma OthersKeepCourse(s: System, e: Event, i: nat, id: int, game: State)
    requires Good(s) && OnCourse(s, i, id, game) && Enabled(s, e) && Waits(e, i) && !AboutGuest(e, i)
    ensures Next(s, e).host.done || OnCourse(Next(s, e), i, id, game)
  {
    OthersCut(s, e, i);
    var rest :| CutTo(s.links[i], Next(s, e).links[i], |s.links[i].toHost|, rest);
    HostTakesEngineSteps(s, e);
    if !Next(s, e).host.done { CourseKept(s, e, i, |s.links[i].toHost|, rest, id, game); }
  }

  lemma GoingKeepsCourse(s: System, e: Event, i: nat, id: int, game: State)
    requires Good(s) && OnCourse(s, i, id, game) && Enabled(s, e)
    requires (e.GuestQuits? && e.i == i) || (e.LinkDrops? && e.i == i)
    ensures OnCourse(Next(s, e), i, id, game)
  {
    var n, rest := GoingCuts(s, e, i);
    CourseKept(s, e, i, n, rest, id, game);
  }

  lemma TakingKeepsCourse(s: System, i: nat, id: int, game: State)
    requires Good(s) && OnCourse(s, i, id, game) && Enabled(s, HostListens(i))
    ensures OnCourse(Next(s, HostListens(i)), i, id, game)
  {
    assert Listening(s.links[i], s.host.game.turn == i + 1);
    ListenedEffect(s, i);
    UncontestedTaken(s.links[i], id, game);
  }

  /** A message that is not carried out is not broadcast. */
  lemma HarmlessIsQuiet(s: System, i: nat, m: GuestMessage, die: Die)
    requires Good(s) && !s.host.done && Enabled(s, HostHandles(i, m, die)) && m.Acted? && !CarriedOut(s.host.game, m)
    ensures Next(s, HostHandles(i, m, die)).broadcasts == s.broadcasts
  {}

  lemma HandlingKeepsCourse(s: System, i: nat, m: GuestMessage, die: Die, id: int, game: State)
    requires Good(s) && OnCourse(s, i, id, game) && m in s.links[i].inbox && m != Chosen(id)
    ensures var t := Next(s, HostHandles(i, m, die)); t.host.done || OnCourse(t, i, id, game)
  {
    var e := HostHandles(i, m, die);
    var l := s.links[i];
    UncontestedWithoutHarmless(l, m, id, game);
    if m.Acted? && !Next(s, e).host.done {
      HandledEffect(s, i, m.action, die);
      HarmlessIsQuiet(s, i, m, die);
      WatchingStays(s, e, i);
      var l1 := l.(inbox := l.inbox - multiset{m});
      assert l1.toHost[..|l1.toHost|] == l1.toHost;
      UncontestedCut(l1, Next(s, e).links[i], |l1.toHost|, [], id, game);
    }
  }

  lemma ChoiceHandledOnCourse(s: System, i: nat, die: Die, id: int, game: State)
    requires Good(s) && OnCourse(s, i, id, game) && Chosen(id) in s.links[i].inbox
    ensures CarriesOut(s, HostHandles(i, Chosen(id), die), i, id, game)
  {
    HandledEffect(s, i, ActMove(id), die);
  }

  lemma AboutGuestKeepsCourse(s: System, e: Event, i: nat, id: int, game: State)
    requires Good(s) && OnCourse(s, i, id, game) && Enabled(s, e) && AboutGuest(e, i) && !HandlesChoice(e, i, id)
    ensures Next(s, e).host.done || OnCourse(Next(s, e), i, id, game)
  {
    if e.HostHandles? {
      HandlingKeepsCourse(s, i, e.m, e.die, id, game);
    } else {
      TakingKeepsCourse(s, i, id, game);
    }
  }

  lemma CourseStep(s: System, e: Event, i: nat, id: int, game: State)
    requires Good(s) && OnCourse(s, i, id, game) && Enabled(s, e) && KeyedEvent(s, e, i)
    ensures !Misjudges(s, e, i, id, game)
    ensures Next(s, e).host.done || OnCourse(Next(s, e), i, id, game) || CarriesOut(s, e, i, id, game)
  {
    if HandlesChoice(e, i, id) {
      ChoiceHandledOnCourse(s, i, e.die, id, game);
    } else if AboutGuest(e, i) {
      AboutGuestKeepsCourse(s, e, i, id, game);
    } else if e.GuestSends? && e.i == i {
      KeyedSend(s, i, e.wire, id, game);
    } else if (e.GuestQuits? && e.i == i) || (e.LinkDrops? && e.i == i) {
      GoingKeepsCourse(s, e, i, id, game);
    } else {
      OthersKeepCourse(s, e, i, id, game);
    }
  }

  lemma {:induction false} OverNeverMisjudged(s: System, es: seq<Event>, i: nat, id: int, game: State)
    requires Ready(s) && CanRun(s, es) && s.host.done && WellFormed(game) && MoveToken(game, id).Ok?
    ensures !MisjudgedFirst(s, es, i, id, game)
    decreases |es|
  {
    if es != [] {
      HostStaysDone(s, es[0]);
      OverNeverMisjudged(Next(s, es[0]), es[1..], i, id, game);
    }
  }

  /** In the run the choice is carried out in `game`, unless the match ends or it waits there for it still. */
  ghost predicate IsCarriedOut(s: System, es: seq<Event>, i: nat, id: int, game: State)
    requires Ready(s) && CanRun(s, es) && WellFormed(game) && MoveToken(game, id).Ok?
  {
    CarriedOutIn(s, es, i, id, game) || EndedIn(s, es) || OnCourse(Run(s, es), i, id, game)
  }

  lemma {:induction false} OnCourseIsCarriedOut(s: System, es: seq<Event>, i: nat, id: int, game: State)
    requires Good(s) && CanRun(s, es) && OnCourse(s, i, id, game) && KeyedBy(s, es, i)
    ensures !MisjudgedFirst(s, es, i, id, game) && IsCarriedOut(s, es, i, id, game)
    decreases |es|
  {
    if es != [] {
      var (t, rest) := (Next(s, es[0]), es[1..]);
      NextGood(s, es[0]);
      CourseStep(s, es[0], i, id, game);
      if t.host.done {
        OverNeverMisjudged(t, rest, i, id, game);
      } else if OnCourse(t, i, id, game) {
        OnCourseIsCarriedOut(t, rest, i, id, game);
      }
    }
  }

  // ---- The theorem ----

  /** Guest `i`'s keys let it choose token `id` on its own turn, on a screen that shows the host's position. */
  predicate ChoosesByKeys(s: System, i: nat, id: int) {
    MayChoose(s, i, id) && Watching(s, i) && MaySend(s.links[i].guest, ActMove(id))
  }

  lemma FrontSend(inbox: multiset<GuestMessage>, queue: seq<GuestWire>, wire: GuestWire, game: State, id: int)
    requires WellFormed(game) && InFront(inbox, queue, game, id)
    ensures InFront(inbox, queue + [wire], game, id)
  {
    if r: nat :| DivertsAt(inbox, queue, r, game, id) {
      assert (queue + [wire])[..r] == queue[..r] && DivertsAt(inbox, queue + [wire], r, game, id);
    }
  }

  lemma ComingWhenSent(s: System, i: nat, id: int)
    requires Good(s) && MayChoose(s, i, id)
    ensures Good(Next(s, Choice(i, id))) && ChoiceComing(Next(s, Choice(i, id)), i, id, s.host.game)
    ensures var (l, t) := (s.links[i], Next(s, Choice(i, id)));
      && t.host == s.host && t.broadcasts == s.broadcasts
      && t.links[i] == l.(toHost := l.toHost + [Sent(id)])
  {
    NextGood(s, Choice(i, id));
  }

  lemma OvertakenWhenInFront(s: System, i: nat, id: int, game: State)
    requires Good(s) && ChoiceComing(s, i, id, game) && InFront(s.links[i].inbox, s.links[i].toHost, game, id)
    ensures CanBeOvertaken(s, i, id, game)
  {
    InFrontIsMisjudged(s, i, id, game);
    var es :| CanRun(s, es) && (forall e :: e in es ==> AboutGuest(e, i)) && MisjudgedFirst(s, es, i, id, game);
    AttendingIsKeyed(s, es, i);
  }

  lemma {:induction false} AttendingIsKeyed(s: System, es: seq<Event>, i: nat)
    requires Ready(s) && CanRun(s, es) && forall e :: e in es ==> AboutGuest(e, i)
    ensures KeyedBy(s, es, i)
    decreases |es|
  {
    if es != [] {
      assert es[0] in es && forall e :: e in es[1..] ==> e in es;
      AttendingIsKeyed(Next(s, es[0]), es[1..], i);
    }
  }

  lemma OvertakenNext(s: System, e: Event, i: nat, id: int, game: State)
    requires Good(s) && Enabled(s, e) && KeyedEvent(s, e, i) && WellFormed(game) && MoveToken(game, id).Ok?
    requires !HandlesChoice(e, i, id) && CanBeOvertaken(Next(s, e), i, id, game)
    ensures CanBeOvertaken(s, i, id, game)
  {
    var t := Next(s, e);
    var rest :| CanRun(t, rest) && KeyedBy(t, rest, i) && MisjudgedFirst(t, rest, i, id, game);
    FirstThenRest(s, e, rest);
    assert KeyedBy(s, [e] + rest, i) && MisjudgedFirst(s, [e] + rest, i, id, game);
  }

  /** A second choice, sent when only one copy of the first is under way, can be carried out before it. */
  lemma SecondChoiceOvertakes(s: System, i: nat, id: int, k: int, game: State)
    requires Good(s) && ChoiceComing(s, i, id, game) && s.links[i].up
    requires Ahead(s.links[i].inbox, s.links[i].toHost, id) <= 1
    requires k != id && MoveToken(game, k).Ok? && MaySend(s.links[i].guest, ActMove(k))
    ensures CanBeOvertaken(s, i, id, game)
  {
    var l := s.links[i];
    ComingWhenSent(s, i, k);
    var t := Next(s, Choice(i, k));
    var queue := l.toHost + [Sent(k)];
    assert queue[..|l.toHost|] == l.toHost && DivertsAt(l.inbox, queue, |l.toHost|, game, id);
    OvertakenWhenInFront(t, i, id, game);
    OvertakenNext(s, Choice(i, k), i, id, game);
  }

  lemma OnCourseWhenSent(s: System, i: nat, id: int)
    requires Good(s) && ChoosesByKeys(s, i, id)
    requires var (game, l) := (s.host.game, s.links[i]);
      !InFront(l.inbox, l.toHost, game, id) && (AnotherChoice(game, id) ==> Ahead(l.inbox, l.toHost, id) >= 1)
    ensures OnCourse(Next(s, Choice(i, id)), i, id, s.host.game)
  {
    var (game, l) := (s.host.game, s.links[i]);
    ComingWhenSent(s, i, id);
    if InFront(l.inbox, l.toHost + [Sent(id)], game, id) { InFrontBeforeSend(l, id, id, game); }
  }

  /**
   A choice that a guest's keys let it make, on its own turn and on a screen that shows the
   host's position: it can come to be handled elsewhere before any copy of it has been carried
   out in that position exactly if something under way can be carried out before it, or the
   guest has another legal choice and no copy of this one under way yet, for then the other,
   sent next, can overtake it. In all other cases it is carried out in that position, whatever
   keys the guest presses next, unless the match ends or the guest goes first.
   */
  lemma ChoiceIsSafeExactly(s: System, i: nat, id: int)
    requires Good(s) && ChoosesByKeys(s, i, id)
    ensures var (t, game, l) := (Next(s, Choice(i, id)), s.host.game, s.links[i]);
      var unsafe := InFront(l.inbox, l.toHost, game, id)
        || (AnotherChoice(game, id) && Ahead(l.inbox, l.toHost, id) == 0);
      && (CanBeOvertaken(t, i, id, game) <==> unsafe)
      && (!unsafe ==> forall es :: CanRun(t, es) && KeyedBy(t, es, i) ==> IsCarriedOut(t, es, i, id, game))
  {
    var (t, game, l) := (Next(s, Choice(i, id)), s.host.game, s.links[i]);
    ComingWhenSent(s, i, id);
    if InFront(l.inbox, l.toHost, game, id) {
      FrontSend(l.inbox, l.toHost, Sent(id), game, id);
      OvertakenWhenInFront(t, i, id, game);
    } else if AnotherChoice(game, id) && Ahead(l.inbox, l.toHost, id) == 0 {
      AnotherOvertakes(s, i, id);
    } else {
      OnCourseWhenSent(s, i, id);
      forall es | CanRun(t, es) && KeyedBy(t, es, i)
        ensures !MisjudgedFirst(t, es, i, id, game) && IsCarriedOut(t, es, i, id, game)
      {
        OnCourseIsCarriedOut(t, es, i, id, game);
      }
    }
  }

  lemma AnotherOvertakes(s: System, i: nat, id: int)
    requires Good(s) && ChoosesByKeys(s, i, id) && AnotherChoice(s.host.game, id)
    requires Ahead(s.links[i].inbox, s.links[i].toHost, id) == 0
    ensures CanBeOvertaken(Next(s, Choice(i, id)), i, id, s.host.game)
  {
    var k :| k != id && MoveToken(s.host.game, k).Ok?;
    ComingWhenSent(s, i, id);
    KeysFitExactly(s, i, ActMove(id));
    KeysFitExactly(s, i, ActMove(k));
    SecondChoiceOvertakes(Next(s, Choice(i, id)), i, id, k, s.host.game);
  }

  lemma NothingInFront(game: State, id: int)
    requires WellFormed(game)
    ensures !InFront(multiset{}, [], game, id) && Ahead(multiset{}, [], id) == 0
  {}

  /** With nothing else under way, that is: exactly if the guest has another legal choice. */
  lemma FirstChoiceIsSafeExactly(s: System, i: nat, id: int)
    requires Good(s) && ChoosesByKeys(s, i, id) && s.links[i].inbox == multiset{} && s.links[i].toHost == []
    ensures CanBeOvertaken(Next(s, Choice(i, id)), i, id, s.host.game) <==> AnotherChoice(s.host.game, id)
  {
    NothingInFront(s.host.game, id);
    ChoiceIsSafeExactly(s, i, id);
  }
}
