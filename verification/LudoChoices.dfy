/**
 A guest's choice of a token on its way to the host of a networked Ludo match: when it is
 certain to be carried out in the position the guest chose in, and when it is not.
 */
module LudoChoices {
  import opened LudoBoard
  import opened LudoRules
  import opened LudoInvariant
  import opened LudoPeer
  import opened LudoNet

  function Chosen(id: int): GuestMessage {
    Acted(ActMove(id))
  }

  function Sent(id: int): GuestWire {
    GuestWire.Action(ActMove(id))
  }

  /** The host carries the message out in `game`, where it is the sender's turn. */
  predicate CarriedOut(game: State, m: GuestMessage)
    requires WellFormed(game)
  {
    m.Acted? && (m.action.ActRoll? || (m.action.ActMove? && MoveToken(game, m.action.id).Ok?))
  }

  predicate WinsWith(game: State, id: int)
    requires WellFormed(game)
  {
    MoveToken(game, id).Ok? && MoveToken(game, id).value.next.phase == GameOver
  }

  /** It is carried out, and the match goes on from another position. */
  predicate Disturbs(game: State, m: GuestMessage)
    requires WellFormed(game)
  {
    CarriedOut(game, m) && !(m.action.ActMove? && WinsWith(game, m.action.id))
  }

  /**
   Something among the messages taken (`inbox`) and those yet to be taken (`queue`) would
   disturb `game` before a choice of token `id` sent after them is handled. Where that choice
   wins, copies of it ahead of the disturbance hold it up: the host attends to two messages
   of a guest at a time, and the match is over once it handles one of them.
   */
  ghost predicate Spoiled(inbox: multiset<GuestMessage>, queue: seq<GuestWire>, game: State, id: int)
    requires WellFormed(game)
  {
    || (exists m :: m in inbox && Disturbs(game, m))
    || (exists r: nat :: DisturbsAt(inbox, queue, r, game, id))
  }

  predicate DisturbsAt(inbox: multiset<GuestMessage>, queue: seq<GuestWire>, r: nat, game: State, id: int)
    requires WellFormed(game)
  {
    r < |queue| && Disturbs(game, Heard(queue[r])) && (WinsWith(game, id) ==> Ahead(inbox, queue[..r], id) <= 1)
  }

  /** How often the choice of `id` is among these. */
  function Ahead(inbox: multiset<GuestMessage>, queue: seq<GuestWire>, id: int): nat {
    inbox[Chosen(id)] + multiset(queue)[Sent(id)]
  }

  predicate UnderWay(l: Link, id: int) {
    Chosen(id) in l.inbox || Sent(id) in l.toHost
  }

  /** The guest has sent nothing that reads as its departure. */
  predicate OnlyActions(l: Link) {
    (forall m :: m in l.inbox ==> m.Acted?) && (forall w :: w in l.toHost ==> w.Action?)
  }

  /** The guest waits for what comes of what it has sent: it sends nothing more, does not leave and is not cut off. */
  predicate Waits(e: Event, i: nat) {
    !(e.GuestSends? && e.i == i) && !(e.GuestQuits? && e.i == i) && !(e.LinkDrops? && e.i == i)
  }

  predicate HandlesChoice(e: Event, i: nat, id: int) {
    e.HostHandles? && e.i == i && e.m == Chosen(id)
  }

  /** The host handles the choice in the position `game` and carries it out. */
  predicate CarriesOut(s: System, e: Event, i: nat, id: int, game: State)
    requires Ready(s) && Enabled(s, e) && WellFormed(game) && MoveToken(game, id).Ok?
  {
    && HandlesChoice(e, i, id) && !s.host.done && s.host.game == game
    && Next(s, e).host.game == MoveToken(game, id).value.next
  }

  /** With the match still on, the host handles the choice and does not carry it out in `game`. */
  predicate Misjudges(s: System, e: Event, i: nat, id: int, game: State)
    requires Ready(s) && Enabled(s, e) && WellFormed(game) && MoveToken(game, id).Ok?
  {
    HandlesChoice(e, i, id) && !s.host.done && !CarriesOut(s, e, i, id, game)
  }

  predicate CarriedOutIn(s: System, es: seq<Event>, i: nat, id: int, game: State)
    requires Ready(s) && CanRun(s, es) && WellFormed(game) && MoveToken(game, id).Ok?
    decreases |es|
  {
    es != [] && (CarriesOut(s, es[0], i, id, game) || CarriedOutIn(Next(s, es[0]), es[1..], i, id, game))
  }

  predicate MisjudgedIn(s: System, es: seq<Event>, i: nat, id: int, game: State)
    requires Ready(s) && CanRun(s, es) && WellFormed(game) && MoveToken(game, id).Ok?
    decreases |es|
  {
    es != [] && (Misjudges(s, es[0], i, id, game) || MisjudgedIn(Next(s, es[0]), es[1..], i, id, game))
  }

  /** The same, before any copy of the choice has been carried out in `game`. */
  predicate MisjudgedFirst(s: System, es: seq<Event>, i: nat, id: int, game: State)
    requires Ready(s) && CanRun(s, es) && WellFormed(game) && MoveToken(game, id).Ok?
    decreases |es|
  {
    && es != []
    && (|| Misjudges(s, es[0], i, id, game)
        || (!CarriesOut(s, es[0], i, id, game) && MisjudgedFirst(Next(s, es[0]), es[1..], i, id, game)))
  }

  predicate EndedIn(s: System, es: seq<Event>)
    requires Ready(s) && CanRun(s, es)
    decreases |es|
  {
    s.host.done || (es != [] && EndedIn(Next(s, es[0]), es[1..]))
  }

  ghost predicate CanBeMisjudged(s: System, i: nat, id: int, game: State)
    requires Ready(s) && WellFormed(game) && MoveToken(game, id).Ok?
  {
    exists es :: CanRun(s, es) && (forall e :: e in es ==> Waits(e, i)) && MisjudgedIn(s, es, i, id, game)
  }

  /** For the choice to be misjudged first, the host need only attend to that guest's session. */
  ghost predicate HostCanMisjudge(s: System, i: nat, id: int, game: State)
    requires Ready(s) && WellFormed(game) && MoveToken(game, id).Ok?
  {
    exists es :: CanRun(s, es) && (forall e :: e in es ==> AboutGuest(e, i)) && MisjudgedFirst(s, es, i, id, game)
  }

  lemma {:induction false} FirstIsSome(s: System, es: seq<Event>, i: nat, id: int, game: State)
    requires Ready(s) && CanRun(s, es) && WellFormed(game) && MoveToken(game, id).Ok?
    requires MisjudgedFirst(s, es, i, id, game)
    ensures MisjudgedIn(s, es, i, id, game)
    decreases |es|
  {
    if !Misjudges(s, es[0], i, id, game) { FirstIsSome(Next(s, es[0]), es[1..], i, id, game); }
  }

  lemma HostMisjudgesWaiting(s: System, i: nat, id: int, game: State)
    requires Ready(s) && WellFormed(game) && MoveToken(game, id).Ok? && HostCanMisjudge(s, i, id, game)
    ensures CanBeMisjudged(s, i, id, game)
  {
    var es :| CanRun(s, es) && (forall e :: e in es ==> AboutGuest(e, i)) && MisjudgedFirst(s, es, i, id, game);
    FirstIsSome(s, es, i, id, game);
    assert forall e :: e in es ==> Waits(e, i);
  }

  // ---- What handling a message does ----

  /** The position after handling an action of the player whose turn it is. */
  function Answered(game: State, action: GuestAction, die: Die): (r: State)
    requires WellFormed(game)
    ensures WellFormed(r)
  {
    match action
    case ActRoll => Step(game, Roll(die))
    case ActMove(id) => Step(game, Move(id))
    case ActUnknown => game
  }

  lemma HandledEffect(s: System, i: nat, action: GuestAction, die: Die)
    requires Good(s) && !s.host.done && i < |s.links| && Acted(action) in s.links[i].inbox
    ensures var t := Next(s, HostHandles(i, Acted(action), die));
      && t.host.game == (if s.host.game.turn == i + 1 then Answered(s.host.game, action, die) else s.host.game)
      && (t.host.done <==> t.host.game.phase == GameOver)
      && t.links[i].inbox == s.links[i].inbox - multiset{Acted(action)}
      && (!t.host.done ==> t.links[i].toHost == s.links[i].toHost)
  {
    TurnColor(s, i);
  }

  lemma ListenedEffect(s: System, i: nat)
    requires Good(s) && Enabled(s, HostListens(i))
    ensures var t := Next(s, HostListens(i)); t.host == s.host && t.links[i] == LinkListens(s.links[i])
  {}

  // ---- Winning with one die only ----

  /** Token `k` is the last one out and `dice` takes it home. */
  predicate HomeWith(tokens: seq<Token>, k: nat, dice: int) {
    && k < |tokens| && tokens[k].state != Finished && tokens[k].state != InYard && tokens[k].pos + dice == FINISH_POS
    && forall j :: 0 <= j < |tokens| && j != k ==> tokens[j].state == Finished
  }

  lemma WinsHome(game: State, id: int)
    requires WellFormed(game) && WinsWith(game, id)
    ensures 0 <= id && HomeWith(Current(game).tokens, id, game.dice)
  {
    MoveEffect(game, id);
    var tokens := Current(game).tokens;
    var after := MoveToken(game, id).value.next.seats[game.turn].tokens;
    assert after == tokens[id := Advance(tokens[id], game.dice)];
    assert forall j :: 0 <= j < |after| ==> after[j].state == Finished;
    assert after[id].state == Finished;
    forall j | 0 <= j < |tokens| && j != id ensures tokens[j].state == Finished {
      assert after[j] == tokens[j];
    }
  }

  lemma HomeWithOneDie(tokens: seq<Token>, k: nat, dice: int, k': nat, dice': int)
    requires HomeWith(tokens, k, dice) && HomeWith(tokens, k', dice')
    ensures k == k' && dice == dice'
  {}

  /** Only one choice can win. */
  lemma OneWinningChoice(game: State, id: int, id': int)
    requires WellFormed(game) && WinsWith(game, id) && MoveToken(game, id').Ok?
    ensures id' == id
  {
    WinsHome(game, id);
  }

  // ---- Once disturbed, never restored ----

  ghost predicate NobodyWins(game: State)
    requires WellFormed(game)
  {
    forall k :: MoveToken(game, k).Ok? ==> !WinsWith(game, k)
  }

  /**
   The match is on and no longer at `before`, a pending choice; with a choice pending still, none
   made now would end it.
   */
  ghost predicate Drifted(game: State, before: State)
    requires WellFormed(game)
  {
    && game.phase != GameOver
    && (game.turn != before.turn || game.phase == RollDice || (game.dice != before.dice && NobodyWins(game)))
  }

  /** Of the dice 1, 2 and 3 one is not the die chosen for and takes nobody home. */
  lemma DriftingDie(game: State, before: State) returns (die: Die)
    requires Inv(game) && game.phase != GameOver
    ensures Drifted(Step(game, Roll(die)), before)
  {
    var tokens := Current(game).tokens;
    var first: Die := if before.dice == 1 then 2 else 1;
    var second: Die := if before.dice == 3 then 2 else 3;
    assert first != second && first != before.dice && second != before.dice;
    die := if exists k :: HomeWith(tokens, k, first) then second else first;
    if exists k :: HomeWith(tokens, k, first) {
      var k :| HomeWith(tokens, k, first);
      forall k' ensures !HomeWith(tokens, k', second) {
        if HomeWith(tokens, k', second) { HomeWithOneDie(tokens, k, first, k', second); }
      }
    }
    NotHomeNotWon(game, before, die);
  }

  lemma NotHomeNotWon(game: State, before: State, die: Die)
    requires WellFormed(game) && game.phase != GameOver && die != before.dice
    requires forall k :: !HomeWith(Current(game).tokens, k, die)
    ensures Drifted(Step(game, Roll(die)), before)
  {
    var t := Step(game, Roll(die));
    if t.phase == SelectToken {
      assert Current(t) == Current(game) && t.dice == die;
      forall k | MoveToken(t, k).Ok? ensures !WinsWith(t, k) {
        if WinsWith(t, k) { WinsHome(t, k); }
      }
    }
  }

  /** A disturbance leads away from the position, and whatever is handled next leads no way back. */
  lemma AnsweredDrifts(game: State, before: State, action: GuestAction) returns (die: Die)
    requires Inv(game) && WellFormed(before) && game.turn == before.turn && game.phase != GameOver
    requires Drifted(game, before) || Disturbs(game, Acted(action))
    ensures Drifted(Answered(game, action, die), before)
  {
    die := 1;
    match action
    case ActRoll => die := DriftingDie(game, before);
    case ActMove(id) =>
    case ActUnknown =>
  }

  lemma FirstThenRest(s: System, e: Event, rest: seq<Event>)
    requires Ready(s) && Enabled(s, e) && CanRun(Next(s, e), rest)
    ensures var es := [e] + rest;
      es[0] == e && es[1..] == rest && (forall d :: d in es ==> d == e || d in rest) && CanRun(s, es)
  {
    assert ([e] + rest)[1..] == rest;
  }

  lemma MisjudgedNow(s: System, e: Event, i: nat, id: int, game: State)
    requires Good(s) && Enabled(s, e) && WellFormed(game) && MoveToken(game, id).Ok? && Misjudges(s, e, i, id, game)
    ensures HostCanMisjudge(s, i, id, game)
  {
    FirstThenRest(s, e, []);
    assert MisjudgedFirst(s, [e] + [], i, id, game);
  }

  lemma MisjudgedNext(s: System, e: Event, i: nat, id: int, game: State)
    requires Good(s) && Enabled(s, e) && AboutGuest(e, i) && WellFormed(game) && MoveToken(game, id).Ok?
    requires !HandlesChoice(e, i, id) && HostCanMisjudge(Next(s, e), i, id, game)
    ensures HostCanMisjudge(s, i, id, game)
  {
    var t := Next(s, e);
    var rest :| CanRun(t, rest) && (forall d :: d in rest ==> AboutGuest(d, i)) && MisjudgedFirst(t, rest, i, id, game);
    FirstThenRest(s, e, rest);
    assert MisjudgedFirst(s, [e] + rest, i, id, game);
  }

  lemma MisjudgedLater(s: System, e: Event, i: nat, id: int, game: State)
    requires Good(s) && Enabled(s, e) && Waits(e, i) && WellFormed(game) && MoveToken(game, id).Ok?
    requires CanBeMisjudged(Next(s, e), i, id, game)
    ensures CanBeMisjudged(s, i, id, game)
  {
    var t := Next(s, e);
    var rest :| CanRun(t, rest) && (forall d :: d in rest ==> Waits(d, i)) && MisjudgedIn(t, rest, i, id, game);
    FirstThenRest(s, e, rest);
    assert MisjudgedIn(s, [e] + rest, i, id, game);
  }

  predicate ChoiceAtLarge(s: System, i: nat, id: int) {
    !s.host.done && i < |s.links| && OnlyActions(s.links[i]) && UnderWay(s.links[i], id)
  }

  /** How much there is for the host to attend to on a session. */
  function Backlog(l: Link): nat {
    2 * |l.toHost| + |l.inbox|
  }

  lemma DriftedHandles(s: System, i: nat, m: GuestMessage, id: int, game: State) returns (e: Event)
    requires Good(s) && ChoiceAtLarge(s, i, id) && m in s.links[i].inbox && m != Chosen(id)
    requires WellFormed(game) && game.turn == i + 1 && Drifted(s.host.game, game)
    ensures Enabled(s, e) && AboutGuest(e, i) && !HandlesChoice(e, i, id)
    ensures ChoiceAtLarge(Next(s, e), i, id) && Drifted(Next(s, e).host.game, game)
    ensures Backlog(Next(s, e).links[i]) < Backlog(s.links[i])
  {
    var die: Die := 1;
    if s.host.game.turn == i + 1 { die := AnsweredDrifts(s.host.game, game, m.action); }
    HandledEffect(s, i, m.action, die);
    e := HostHandles(i, m, die);
  }

  lemma ListensOn(s: System, i: nat, id: int)
    requires Good(s) && ChoiceAtLarge(s, i, id) && s.links[i].inbox == multiset{}
    ensures Enabled(s, HostListens(i)) && Next(s, HostListens(i)).host == s.host
    ensures ChoiceAtLarge(Next(s, HostListens(i)), i, id)
    ensures Backlog(Next(s, HostListens(i)).links[i]) < Backlog(s.links[i])
  {
    ListenerIsThere(s, i);
    ListenedEffect(s, i);
    var l := s.links[i];
    assert l.toHost == [l.toHost[0]] + l.toHost[1..];
  }

  /** Once the match has drifted from the position a choice was made in, the choice is handled elsewhere. */
  lemma {:induction false} DriftedIsMisjudged(s: System, i: nat, id: int, game: State)
    requires Good(s) && ChoiceAtLarge(s, i, id)
    requires WellFormed(game) && game.turn == i + 1 && MoveToken(game, id).Ok? && Drifted(s.host.game, game)
    ensures HostCanMisjudge(s, i, id, game)
    decreases Backlog(s.links[i])
  {
    var l := s.links[i];
    if Chosen(id) in l.inbox {
      MisjudgedNow(s, HostHandles(i, Chosen(id), 1), i, id, game);
    } else {
      var e := HostListens(i);
      if l.inbox == multiset{} {
        ListensOn(s, i, id);
      } else {
        var m :| m in l.inbox;
        e := DriftedHandles(s, i, m, id, game);
      }
      NextGood(s, e);
      DriftedIsMisjudged(Next(s, e), i, id, game);
      MisjudgedNext(s, e, i, id, game);
    }
  }

  // ---- A spoiled choice can be misjudged ----

  /** Guest `i`'s turn in `game`, with its choice of token `id` the last thing it has sent. */
  predicate ChoiceSentLast(s: System, i: nat, queue: seq<GuestWire>, id: int, game: State) {
    && !s.host.done && s.host.game == game && WellFormed(game) && game.turn == i + 1 && MoveToken(game, id).Ok?
    && i < |s.links| && OnlyActions(s.links[i]) && s.links[i].toHost == queue + [Sent(id)]
  }

  lemma DisturbedIsMisjudged(s: System, i: nat, m: GuestMessage, id: int, game: State)
    requires Good(s) && ChoiceAtLarge(s, i, id) && s.host.game == game && game.turn == i + 1 && MoveToken(game, id).Ok?
    requires Sent(id) in s.links[i].toHost && m in s.links[i].inbox && Disturbs(game, m)
    ensures CanBeMisjudged(s, i, id, game)
  {
    var die := AnsweredDrifts(game, game, m.action);
    var e := HostHandles(i, m, die);
    HandledEffect(s, i, m.action, die);
    NextGood(s, e);
    DriftedIsMisjudged(Next(s, e), i, id, game);
    HostMisjudgesWaiting(Next(s, e), i, id, game);
    MisjudgedLater(s, e, i, id, game);
  }

  /** Taking the first message of the queue leaves it where it was: ahead of what comes later. */
  lemma AheadMoves(inbox: multiset<GuestMessage>, queue: seq<GuestWire>, r: nat, id: int)
    requires 0 < r <= |queue|
    ensures Ahead(inbox + multiset{Heard(queue[0])}, queue[1..][..r - 1], id) == Ahead(inbox, queue[..r], id)
  {
    assert queue[..r] == [queue[0]] + queue[1..][..r - 1];
  }

  lemma SpoiledAfterTaking(inbox: multiset<GuestMessage>, queue: seq<GuestWire>, game: State, id: int)
    requires WellFormed(game) && queue != [] && Spoiled(inbox, queue, game, id)
    ensures Spoiled(inbox + multiset{Heard(queue[0])}, queue[1..], game, id)
  {
    var inbox' := inbox + multiset{Heard(queue[0])};
    if m :| m in inbox && Disturbs(game, m) {
      assert m in inbox';
    } else {
      var r: nat :| DisturbsAt(inbox, queue, r, game, id);
      if r == 0 {
        assert Heard(queue[0]) in inbox';
      } else {
        AheadMoves(inbox, queue, r, id);
        assert DisturbsAt(inbox', queue[1..], r - 1, game, id);
      }
    }
  }

  lemma SpoiledWithoutHarmless(inbox: multiset<GuestMessage>, queue: seq<GuestWire>, m: GuestMessage, game: State,
    id: int)
    requires WellFormed(game) && MoveToken(game, id).Ok? && m in inbox && !CarriedOut(game, m)
    ensures Spoiled(inbox - multiset{m}, queue, game, id) <==> Spoiled(inbox, queue, game, id)
  {
    var inbox' := inbox - multiset{m};
    assert forall k: GuestMessage :: k != m ==> inbox'[k] == inbox[k];
    assert m != Chosen(id);
    assert forall r: nat :: DisturbsAt(inbox', queue, r, game, id) <==> DisturbsAt(inbox, queue, r, game, id);
  }

  lemma {:induction false} CountOfEqual(inbox: multiset<GuestMessage>, m: GuestMessage)
    requires forall k :: k in inbox ==> k == m
    ensures |inbox| == inbox[m]
  {
    assert inbox == multiset{}[m := inbox[m]];
  }

  /** With nothing to disturb or pass over among the messages taken, there is a listener for the next. */
  lemma RoomToListen(s: System, i: nat, queue: seq<GuestWire>, id: int, game: State)
    requires Good(s) && ChoiceSentLast(s, i, queue, id, game) && Spoiled(s.links[i].inbox, queue, game, id)
    requires forall m :: m in s.links[i].inbox ==> CarriedOut(game, m) && !Disturbs(game, m)
    ensures queue != [] && Enabled(s, HostListens(i))
  {
    var inbox := s.links[i].inbox;
    forall m | m in inbox ensures m == Chosen(id) && WinsWith(game, id) {
      OneWinningChoice(game, m.action.id, id);
    }
    CountOfEqual(inbox, Chosen(id));
    assert Listening(s.links[i], s.host.game.turn == i + 1);
  }

  lemma TakesNext(s: System, i: nat, queue: seq<GuestWire>, id: int, game: State)
    requires Good(s) && ChoiceSentLast(s, i, queue, id, game) && Spoiled(s.links[i].inbox, queue, game, id)
    requires queue != [] && Enabled(s, HostListens(i))
    ensures var t := Next(s, HostListens(i));
      && ChoiceSentLast(t, i, queue[1..], id, game) && Spoiled(t.links[i].inbox, queue[1..], game, id)
      && Backlog(t.links[i]) < Backlog(s.links[i])
  {
    var l := s.links[i];
    ListenedEffect(s, i);
    SpoiledAfterTaking(l.inbox, queue, game, id);
    assert l.toHost[0] == queue[0] && l.toHost[0] in l.toHost && (queue + [Sent(id)])[1..] == queue[1..] + [Sent(id)];
  }

  lemma PassesOver(s: System, i: nat, queue: seq<GuestWire>, m: GuestMessage, id: int, game: State)
    requires Good(s) && ChoiceSentLast(s, i, queue, id, game) && Spoiled(s.links[i].inbox, queue, game, id)
    requires m in s.links[i].inbox && !CarriedOut(game, m)
    ensures var t := Next(s, HostHandles(i, m, 1));
      && ChoiceSentLast(t, i, queue, id, game) && Spoiled(t.links[i].inbox, queue, game, id)
      && Backlog(t.links[i]) < Backlog(s.links[i])
  {
    HandledEffect(s, i, m.action, 1);
    SpoiledWithoutHarmless(s.links[i].inbox, queue, m, game, id);
  }

  /** The host can get to the disturbance before it gets to the choice. */
  lemma {:induction false} SpoiledIsMisjudged(s: System, i: nat, queue: seq<GuestWire>, id: int, game: State)
    requires Good(s) && ChoiceSentLast(s, i, queue, id, game) && Spoiled(s.links[i].inbox, queue, game, id)
    ensures CanBeMisjudged(s, i, id, game)
    decreases Backlog(s.links[i])
  {
    var inbox := s.links[i].inbox;
    if m :| m in inbox && Disturbs(game, m) {
      DisturbedIsMisjudged(s, i, m, id, game);
    } else {
      var e, queue' := HostListens(i), queue;
      if m :| m in inbox && !CarriedOut(game, m) {
        PassesOver(s, i, queue, m, id, game);
        e := HostHandles(i, m, 1);
      } else {
        RoomToListen(s, i, queue, id, game);
        TakesNext(s, i, queue, id, game);
        queue' := queue[1..];
      }
      NextGood(s, e);
      SpoiledIsMisjudged(Next(s, e), i, queue', id, game);
      MisjudgedLater(s, e, i, id, game);
    }
  }

  // ---- A choice that is not spoiled is carried out where it was made ----

  /**
   A choice that wins is clear while nothing can disturb the position before it; any other,
   while nothing else under way would be carried out, another copy of it included.
   */
  ghost predicate Clear(l: Link, id: int, game: State)
    requires WellFormed(game)
  {
    && UnderWay(l, id)
    && if WinsWith(game, id) then !Spoiled(l.inbox, l.toHost, game, id)
       else && Ahead(l.inbox, l.toHost, id) == 1
            && (forall m :: m in l.inbox && m != Chosen(id) ==> !CarriedOut(game, m))
            && (forall w :: w in l.toHost && w != Sent(id) ==> !CarriedOut(game, Heard(w)))
  }

  ghost predicate Undisturbed(s: System, i: nat, id: int, game: State) {
    && !s.host.done && s.host.game == game && WellFormed(game) && game.turn == i + 1 && MoveToken(game, id).Ok?
    && i < |s.links| && Clear(s.links[i], id, game)
  }

  /** The choice has been handled, or there is no match left to handle it in. */
  predicate Settled(s: System, i: nat, id: int) {
    s.host.done || (i < |s.links| && Ahead(s.links[i].inbox, s.links[i].toHost, id) == 0)
  }

  /** What is under way from a guest stays, with at most the end of the session after it. */
  predicate Kept(l: Link, l': Link) {
    l'.inbox == l.inbox && (l'.toHost == l.toHost || l'.toHost == l.toHost + [Gone])
  }

  lemma HostKeeps(s: System, i: nat, r: HostReaction)
    requires i < |s.links| < |s.host.game.seats|
    ensures Kept(s.links[i], AfterHost(s, r).links[i])
  {
    assert s.links[i].toHost + [] == s.links[i].toHost;
  }

  lemma HandlingAnotherKeeps(s: System, j: nat, m: GuestMessage, die: Die, i: nat)
    requires Good(s) && Enabled(s, HostHandles(j, m, die)) && i < |s.links| && i != j
    ensures Kept(s.links[i], Next(s, HostHandles(j, m, die)).links[i])
  {
    var l := s.links[j];
    HostKeeps(s.(links := s.links[j := l.(inbox := l.inbox - multiset{m})]), i,
      HostReceive(s.host, GuestColor(s, j), m, die));
  }

  lemma HostKeysKeep(s: System, e: Event, i: nat)
    requires Good(s) && i < |s.links| && (e.HostRolls? || e.HostMoves? || e.HostQuits?)
    ensures Kept(s.links[i], Next(s, e).links[i])
  {
    match e
    case HostRolls(die) => HostKeeps(s, i, HostRollKey(s.host, die));
    case HostMoves(id) => HostKeeps(s, i, HostMoveKey(s.host, id));
    case HostQuits => HostKeeps(s, i, HostQuitKey(s.host));
  }

  lemma GuestsKeep(s: System, e: Event, i: nat)
    requires Good(s) && Enabled(s, e) && i < |s.links| && Waits(e, i) && !AboutGuest(e, i)
    requires !e.HostRolls? && !e.HostMoves? && !e.HostQuits? && !e.HostHandles?
    ensures Kept(s.links[i], Next(s, e).links[i])
  {}

  lemma OthersKeep(s: System, e: Event, i: nat)
    requires Good(s) && Enabled(s, e) && i < |s.links| && Waits(e, i) && !AboutGuest(e, i)
    ensures Kept(s.links[i], Next(s, e).links[i])
  {
    if e.HostRolls? || e.HostMoves? || e.HostQuits? {
      HostKeysKeep(s, e, i);
    } else if e.HostHandles? {
      HandlingAnotherKeeps(s, e.i, e.m, e.die, i);
    } else {
      GuestsKeep(s, e, i);
    }
  }

  lemma AheadKept(l: Link, l': Link, id: int)
    requires Kept(l, l')
    ensures Ahead(l'.inbox, l'.toHost, id) == Ahead(l.inbox, l.toHost, id)
  {}

  lemma SpoiledKept(l: Link, l': Link, id: int, game: State)
    requires WellFormed(game) && Kept(l, l') && Spoiled(l'.inbox, l'.toHost, game, id)
    ensures Spoiled(l.inbox, l.toHost, game, id)
  {
    if r: nat :| DisturbsAt(l'.inbox, l'.toHost, r, game, id) {
      assert l'.toHost[..r] == l.toHost[..r] && DisturbsAt(l.inbox, l.toHost, r, game, id);
    }
  }

  lemma ClearKept(l: Link, l': Link, id: int, game: State)
    requires WellFormed(game) && Clear(l, id, game) && Kept(l, l')
    ensures Clear(l', id, game)
  {
    AheadKept(l, l', id);
    if Spoiled(l'.inbox, l'.toHost, game, id) { SpoiledKept(l, l', id, game); }
  }

  /** On guest `i`'s turn nobody else changes the position, short of ending the match. */
  lemma OthersLeaveGame(s: System, e: Event, i: nat)
    requires Good(s) && Enabled(s, e) && s.host.game.turn == i + 1 && !(e.HostHandles? && e.i == i)
    ensures Next(s, e).host.game == s.host.game
  {
    HostTakesEngineSteps(s, e);
  }

  lemma ListeningKeepsAhead(l: Link, id: int)
    requires l.listeners > 0 && l.toHost != []
    ensures Ahead(LinkListens(l).inbox, LinkListens(l).toHost, id) == Ahead(l.inbox, l.toHost, id)
  {
    assert l.toHost == [l.toHost[0]] + l.toHost[1..];
  }

  lemma DisturbsAtBeforeTaking(l: Link, r: nat, game: State, id: int)
    requires WellFormed(game) && l.listeners > 0 && l.toHost != []
    requires DisturbsAt(LinkListens(l).inbox, LinkListens(l).toHost, r, game, id)
    ensures Spoiled(l.inbox, l.toHost, game, id)
  {
    var l' := LinkListens(l);
    if l.toHost[0].Gone? {
      assert l'.inbox[Chosen(id)] == l.inbox[Chosen(id)];
      assert DisturbsAt(l.inbox, l.toHost, r, game, id);
    } else {
      AheadMoves(l.inbox, l.toHost, r + 1, id);
      assert l.toHost[1..][..r] == l'.toHost[..r];
      assert DisturbsAt(l.inbox, l.toHost, r + 1, game, id);
    }
  }

  /** What spoils a choice once a message has been taken spoiled it before, if a listener was free to take it. */
  lemma SpoiledBeforeTaking(l: Link, game: State, id: int)
    requires WellFormed(game) && l.listeners > 0 && l.toHost != [] && l.listeners + |l.inbox| <= 2
    requires Spoiled(LinkListens(l).inbox, LinkListens(l).toHost, game, id)
    ensures Spoiled(l.inbox, l.toHost, game, id)
  {
    var l' := LinkListens(l);
    if Disturbs(game, Heard(l.toHost[0])) {
      assert l.toHost[..0] == [] && l.inbox[Chosen(id)] <= |l.inbox|;
      assert DisturbsAt(l.inbox, l.toHost, 0, game, id);
    } else if r: nat :| DisturbsAt(l'.inbox, l'.toHost, r, game, id) {
      DisturbsAtBeforeTaking(l, r, game, id);
    }
  }

  lemma ClearTaken(l: Link, id: int, game: State)
    requires WellFormed(game) && Clear(l, id, game) && l.listeners > 0 && l.toHost != [] && l.listeners + |l.inbox| <= 2
    ensures Clear(LinkListens(l), id, game)
  {
    ListeningKeepsAhead(l, id);
    var l' := LinkListens(l);
    assert l.toHost[0] in l.toHost && forall w :: w in l'.toHost ==> w in l.toHost;
    if Spoiled(l'.inbox, l'.toHost, game, id) { SpoiledBeforeTaking(l, game, id); }
    assert UnderWay(l', id) by {
      assert Ahead(l'.inbox, l'.toHost, id) > 0;
    }
  }

  /** Of what else has been taken nothing is carried out. */
  lemma ClearIsHarmless(l: Link, m: GuestMessage, id: int, game: State)
    requires WellFormed(game) && MoveToken(game, id).Ok? && Clear(l, id, game) && m in l.inbox && m != Chosen(id)
    ensures !CarriedOut(game, m)
  {
    if m.Acted? && m.action.ActMove? && WinsWith(game, m.action.id) { OneWinningChoice(game, m.action.id, id); }
  }

  lemma ClearWithoutHarmless(l: Link, m: GuestMessage, id: int, game: State)
    requires WellFormed(game) && MoveToken(game, id).Ok? && Clear(l, id, game) && m in l.inbox && m != Chosen(id)
    ensures Clear(l.(inbox := l.inbox - multiset{m}), id, game)
  {
    ClearIsHarmless(l, m, id, game);
    SpoiledWithoutHarmless(l.inbox, l.toHost, m, game, id);
    assert (l.inbox - multiset{m})[Chosen(id)] == l.inbox[Chosen(id)];
  }

  lemma ChoiceHandled(s: System, i: nat, id: int, die: Die, game: State)
    requires Good(s) && Undisturbed(s, i, id, game) && Chosen(id) in s.links[i].inbox
    ensures var e := HostHandles(i, Chosen(id), die); CarriesOut(s, e, i, id, game) && Settled(Next(s, e), i, id)
  {
    HandledEffect(s, i, ActMove(id), die);
    var t := Next(s, HostHandles(i, Chosen(id), die));
    if !t.host.done {
      assert t.links[i].inbox[Chosen(id)] == s.links[i].inbox[Chosen(id)] - 1;
    }
  }

  lemma HarmlessHandled(s: System, i: nat, m: GuestMessage, id: int, die: Die, game: State)
    requires Good(s) && Undisturbed(s, i, id, game) && m in s.links[i].inbox && m != Chosen(id)
    ensures var t := Next(s, HostHandles(i, m, die)); t.host.done || Undisturbed(t, i, id, game)
  {
    if m.Acted? {
      var l := s.links[i];
      ClearIsHarmless(l, m, id, game);
      HandledEffect(s, i, m.action, die);
      ClearWithoutHarmless(l, m, id, game);
      ClearKept(l.(inbox := l.inbox - multiset{m}), Next(s, HostHandles(i, m, die)).links[i], id, game);
    }
  }

  lemma ChoiceListened(s: System, i: nat, id: int, game: State)
    requires Good(s) && Undisturbed(s, i, id, game) && Enabled(s, HostListens(i))
    ensures Undisturbed(Next(s, HostListens(i)), i, id, game)
  {
    assert Listening(s.links[i], s.host.game.turn == i + 1);
    ListenedEffect(s, i);
    ClearTaken(s.links[i], id, game);
  }

  lemma UndisturbedStep(s: System, e: Event, i: nat, id: int, game: State)
    requires Good(s) && Enabled(s, e) && Waits(e, i) && Undisturbed(s, i, id, game)
    ensures !Misjudges(s, e, i, id, game)
    ensures
      || Next(s, e).host.done
      || Undisturbed(Next(s, e), i, id, game)
      || (CarriesOut(s, e, i, id, game) && Settled(Next(s, e), i, id))
  {
    if HandlesChoice(e, i, id) {
      ChoiceHandled(s, i, id, e.die, game);
    } else if e.HostHandles? && e.i == i {
      HarmlessHandled(s, i, e.m, id, e.die, game);
    } else if e.HostListens? && e.i == i {
      ChoiceListened(s, i, id, game);
    } else {
      OthersKeep(s, e, i);
      OthersLeaveGame(s, e, i);
      ClearKept(s.links[i], Next(s, e).links[i], id, game);
    }
  }

  lemma SettledStep(s: System, e: Event, i: nat, id: int, game: State)
    requires Good(s) && Enabled(s, e) && i < |s.links| && Waits(e, i) && Settled(s, i, id)
    requires WellFormed(game) && MoveToken(game, id).Ok?
    ensures !Misjudges(s, e, i, id, game) && Settled(Next(s, e), i, id)
  {
    if s.host.done {
      HostStaysDone(s, e);
    } else if e.HostListens? && e.i == i {
      ListeningKeepsAhead(s.links[i], id);
    } else if e.HostHandles? && e.i == i {
      if e.m.Acted? { HandledEffect(s, i, e.m.action, e.die); }
    } else {
      OthersKeep(s, e, i);
      AheadKept(s.links[i], Next(s, e).links[i], id);
    }
  }

  lemma {:induction false} SettledNeverMisjudged(s: System, es: seq<Event>, i: nat, id: int, game: State)
    requires Good(s) && CanRun(s, es) && i < |s.links| && Settled(s, i, id)
    requires WellFormed(game) && MoveToken(game, id).Ok? && forall e :: e in es ==> Waits(e, i)
    ensures !MisjudgedIn(s, es, i, id, game)
    decreases |es|
  {
    if es != [] {
      NextGood(s, es[0]);
      SettledStep(s, es[0], i, id, game);
      SettledNeverMisjudged(Next(s, es[0]), es[1..], i, id, game);
    }
  }

  lemma {:induction false} WaitingChoiceIsCarriedOut(s: System, es: seq<Event>, i: nat, id: int, game: State)
    requires Good(s) && CanRun(s, es) && Undisturbed(s, i, id, game)
    requires forall e :: e in es ==> Waits(e, i)
    ensures !MisjudgedIn(s, es, i, id, game)
    ensures CarriedOutIn(s, es, i, id, game) || EndedIn(s, es) || Undisturbed(Run(s, es), i, id, game)
    decreases |es|
  {
    if es != [] {
      var (t, rest) := (Next(s, es[0]), es[1..]);
      NextGood(s, es[0]);
      UndisturbedStep(s, es[0], i, id, game);
      if Undisturbed(t, i, id, game) {
        WaitingChoiceIsCarriedOut(t, rest, i, id, game);
      } else {
        SettledNeverMisjudged(t, rest, i, id, game);
      }
    }
  }

  // ---- The theorem ----

  /** On its own turn guest `i`, on a session that is up, has sent nothing but actions and can choose token `id`. */
  predicate MayChoose(s: System, i: nat, id: int) {
    && !s.host.done && i < |s.links| && s.links[i].up && OnlyActions(s.links[i])
    && WellFormed(s.host.game) && s.host.game.turn == i + 1 && MoveToken(s.host.game, id).Ok?
  }

  function Choice(i: nat, id: int): Event {
    GuestSends(i, Sent(id))
  }

  lemma SpoiledBeforeSend(l: Link, id: int, game: State)
    requires WellFormed(game) && WinsWith(game, id) && Spoiled(l.inbox, l.toHost + [Sent(id)], game, id)
    ensures Spoiled(l.inbox, l.toHost, game, id)
  {
    var queue := l.toHost + [Sent(id)];
    if r: nat :| DisturbsAt(l.inbox, queue, r, game, id) {
      assert queue[..r] == l.toHost[..r] && DisturbsAt(l.inbox, l.toHost, r, game, id);
    }
  }

  lemma ClearWhenSent(l: Link, id: int, game: State)
    requires WellFormed(game) && MoveToken(game, id).Ok? && !Spoiled(l.inbox, l.toHost, game, id)
    ensures Clear(l.(toHost := l.toHost + [Sent(id)]), id, game)
  {
    if WinsWith(game, id) {
      if Spoiled(l.inbox, l.toHost + [Sent(id)], game, id) { SpoiledBeforeSend(l, id, game); }
    } else {
      NothingCarriedOut(l, id, game);
      assert Chosen(id) !in l.inbox && Sent(id) !in l.toHost;
    }
  }

  lemma NothingCarriedOut(l: Link, id: int, game: State)
    requires WellFormed(game) && MoveToken(game, id).Ok? && !WinsWith(game, id) && !Spoiled(l.inbox, l.toHost, game, id)
    ensures forall m :: m in l.inbox ==> !CarriedOut(game, m)
    ensures forall w :: w in l.toHost ==> !CarriedOut(game, Heard(w))
  {
    forall m | CarriedOut(game, m) ensures Disturbs(game, m) {
      if m.action.ActMove? && WinsWith(game, m.action.id) { OneWinningChoice(game, m.action.id, id); }
    }
    forall w | w in l.toHost ensures !CarriedOut(game, Heard(w)) {
      var r: nat :| r < |l.toHost| && l.toHost[r] == w;
      assert !DisturbsAt(l.inbox, l.toHost, r, game, id);
    }
  }

  /** In the run the choice is carried out in `game`, unless the match ends or it is still on its way there. */
  ghost predicate IsSafe(t: System, es: seq<Event>, i: nat, id: int, game: State)
    requires Ready(t) && CanRun(t, es) && WellFormed(game) && MoveToken(game, id).Ok?
  {
    CarriedOutIn(t, es, i, id, game) || EndedIn(t, es) || Undisturbed(Run(t, es), i, id, game)
  }

  lemma SafeWhenClear(t: System, i: nat, id: int, game: State)
    requires Good(t) && Undisturbed(t, i, id, game)
    ensures !CanBeMisjudged(t, i, id, game)
    ensures forall es :: CanRun(t, es) && (forall e :: e in es ==> Waits(e, i)) ==> IsSafe(t, es, i, id, game)
  {
    forall es | CanRun(t, es) && (forall e :: e in es ==> Waits(e, i))
      ensures !MisjudgedIn(t, es, i, id, game) && IsSafe(t, es, i, id, game)
    {
      WaitingChoiceIsCarriedOut(t, es, i, id, game);
    }
  }

  /**
   For a guest that waits once it has chosen, on its own turn: the choice can come to be handled
   in another position than it was made in, or after a copy of it, exactly if something the
   guest had under way already would be carried out before it; otherwise it is carried out in
   that position, or is on its way there until the match ends. What a guest that goes on
   pressing keys can expect is in `LudoOvertaking`.
   */
  lemma WaitingChoiceIsSafeExactly(s: System, i: nat, id: int)
    requires Good(s) && MayChoose(s, i, id)
    ensures var (t, game, l) := (Next(s, Choice(i, id)), s.host.game, s.links[i]);
      CanBeMisjudged(t, i, id, game) <==> Spoiled(l.inbox, l.toHost, game, id)
    ensures var (t, game, l) := (Next(s, Choice(i, id)), s.host.game, s.links[i]);
      !Spoiled(l.inbox, l.toHost, game, id) ==>
        forall es :: CanRun(t, es) && (forall e :: e in es ==> Waits(e, i)) ==> IsSafe(t, es, i, id, game)
  {
    var (t, game, l) := (Next(s, Choice(i, id)), s.host.game, s.links[i]);
    NextGood(s, Choice(i, id));
    assert t.host == s.host && t.links[i] == l.(toHost := l.toHost + [Sent(id)]);
    if Spoiled(l.inbox, l.toHost, game, id) {
      SpoiledIsMisjudged(t, i, l.toHost, id, game);
    } else {
      ClearWhenSent(l, id, game);
      SafeWhenClear(t, i, id, game);
    }
  }

  /** With a choice that does not win, that is: exactly if anything under way would be carried out. */
  lemma UsuallyAnythingSpoils(s: System, i: nat, id: int)
    requires Good(s) && MayChoose(s, i, id) && !WinsWith(s.host.game, id)
    ensures var (game, l) := (s.host.game, s.links[i]);
      Spoiled(l.inbox, l.toHost, game, id) <==>
        (exists m :: m in l.inbox && CarriedOut(game, m)) || (exists w :: w in l.toHost && CarriedOut(game, Heard(w)))
  {
    var (game, l) := (s.host.game, s.links[i]);
    if !Spoiled(l.inbox, l.toHost, game, id) {
      NothingCarriedOut(l, id, game);
    } else if r: nat :| DisturbsAt(l.inbox, l.toHost, r, game, id) {
      assert l.toHost[r] in l.toHost;
    }
  }

  /** The action is one for the position: a due roll or a legal choice. */
  predicate DueIn(game: State, action: GuestAction)
    requires WellFormed(game)
  {
    match action
    case ActRoll => game.phase == RollDice
    case ActMove(id) => MoveToken(game, id).Ok?
    case ActUnknown => false
  }

  lemma UpToDateView(s: System, i: nat)
    requires Good(s) && i < |s.links| && s.broadcasts != [] && s.links[i].views == s.broadcasts
    ensures s.links[i].guest.view.Some? && s.links[i].guest.view.value == Project(s.host.game)
  {}

  /** What a guest's colour is to the host, and what the guest takes it for. */
  lemma OwnColorExactly(s: System, i: nat)
    requires Seating(s) && i < |s.links|
    ensures var (game, taken) := (s.host.game, SeatColorOf(s.host.game.seats, s.links[i].guest.self));
      && (Current(game).color == taken ==> (game.turn == i + 1 <==> FirstBearer(game.seats, i + 1)))
      && (game.turn == i + 1 ==> (Current(game).color == taken <==> FirstBearer(game.seats, i + 1)))
  {
    FindsOwnSeatExactly(s.host.game.seats, i + 1);
  }

  /** On its own turn by its own view, a guest's keys let through what is due in the position it sees. */
  lemma KeysByView(guest: Guest, game: State, action: GuestAction)
    requires WellFormed(game) && guest.view.Some? && guest.view.value == Project(game)
    ensures MaySend(guest, action) <==>
      !guest.done && Current(game).color == SeatColorOf(game.seats, guest.self) && DueIn(game, action)
  {
    var view := Project(game);
    assert Current(view) == Current(game) && LegalMoves(view) == LegalMoves(game) && view.seats == game.seats;
  }

  /**
   What the keys of a guest that has seen every broadcast let it send is due in the host's
   position, and on its own turn that is all of it, exactly if no earlier seat bears its name:
   of two of one name the second takes the first's seat for its own.
   */
  lemma KeysFitExactly(s: System, i: nat, action: GuestAction)
    requires Good(s) && i < |s.links| && s.broadcasts != [] && s.links[i].views == s.broadcasts
    ensures var (game, guest) := (s.host.game, s.links[i].guest);
      && (MaySend(guest, action) ==> DueIn(game, action) && (game.turn == i + 1 <==> FirstBearer(game.seats, i + 1)))
      && (game.turn == i + 1 && !guest.done ==>
            (MaySend(guest, action) <==> DueIn(game, action) && FirstBearer(game.seats, i + 1)))
  {
    UpToDateView(s, i);
    KeysByView(s.links[i].guest, s.host.game, action);
    OwnColorExactly(s, i);
  }
}
