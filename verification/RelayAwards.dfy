/**
 Points for messages: every message delivered is paid for once, or about to be, unless its
 sender had no profile to be paid into.
 */
module RelayAwards {
  import opened Wrappers
  import opened RelayStore
  import opened RelayHub
  import opened RelayServer

  predicate Awaits(k: Conn, user: nat) {
    k.task == Awarding && k.user.Some? && k.user.value.id == user
  }

  /** How many handlers are about to pay the user for a message. */
  function Awaiting(conns: seq<Conn>, user: nat): nat {
    if conns == [] then 0
    else Awaiting(conns[..|conns| - 1], user) + if Awaits(conns[|conns| - 1], user) then 1 else 0
  }

  predicate SentBy(conns: seq<Conn>, d: Delivery, user: nat) {
    d.e.Relay? && d.sender < |conns| && conns[d.sender].user.Some? && conns[d.sender].user.value.id == user
  }

  /** How many messages the user's connections have delivered. */
  function Delivered(conns: seq<Conn>, deliveries: seq<Delivery>, user: nat): nat {
    if deliveries == [] then 0
    else
      Delivered(conns, deliveries[..|deliveries| - 1], user)
      + if SentBy(conns, deliveries[|deliveries| - 1], user) then 1 else 0
  }

  /** How many of the messages the user's connections have delivered are neither paid for nor about to be. */
  function Unpaid(s: Server, user: nat): int {
    Delivered(s.conns, s.deliveries, user) - TimesPaid(s.db.journal, user, MESSAGE_AWARD) - Awaiting(s.conns, user)
  }

  /** The event is an award to the user that changes nothing, for want of a profile. */
  predicate InVain(s: Server, e: Event, user: nat) {
    e.Steps? && e.c < |s.conns| && Awaits(s.conns[e.c], user) && user !in s.db.profiles
  }

  lemma {:induction false} AwaitingUpdate(conns: seq<Conn>, c: nat, k: Conn, user: nat)
    requires c < |conns|
    ensures Awaiting(conns[c := k], user) ==
      Awaiting(conns, user) - (if Awaits(conns[c], user) then 1 else 0) + (if Awaits(k, user) then 1 else 0)
    decreases |conns|
  {
    var last := |conns| - 1;
    if c < last {
      AwaitingUpdate(conns[..last], c, k, user);
      assert conns[c := k][..last] == conns[..last][c := k];
    } else {
      assert conns[c := k][..last] == conns[..last];
    }
  }

  lemma AwaitingMore(conns: seq<Conn>, k: Conn, user: nat)
    ensures Awaiting(conns + [k], user) == Awaiting(conns, user) + if Awaits(k, user) then 1 else 0
  {
    assert (conns + [k])[..|conns|] == conns;
  }

  /** Who sent a message never changes. */
  lemma {:induction false} DeliveredStays(conns: seq<Conn>, conns': seq<Conn>, deliveries: seq<Delivery>, user: nat)
    requires UsersStay(conns, conns')
    requires forall d :: d in deliveries ==> d.sender < |conns| && conns[d.sender].user.Some?
    ensures Delivered(conns', deliveries, user) == Delivered(conns, deliveries, user)
    decreases |deliveries|
  {
    if deliveries != [] {
      assert deliveries[|deliveries| - 1] in deliveries;
      DeliveredStays(conns, conns', deliveries[..|deliveries| - 1], user);
    }
  }

  lemma DeliveredMore(conns: seq<Conn>, deliveries: seq<Delivery>, d: Delivery, user: nat)
    ensures Delivered(conns, deliveries + [d], user) ==
      Delivered(conns, deliveries, user) + if SentBy(conns, d, user) then 1 else 0
  {
    assert (deliveries + [d])[..|deliveries|] == deliveries;
  }

  lemma PaidMore(journal: seq<Entry>, e: Entry, user: nat)
    ensures TimesPaid(journal + [e], user, MESSAGE_AWARD) ==
      TimesPaid(journal, user, MESSAGE_AWARD) + if e == Paid(user, MESSAGE_AWARD) then 1 else 0
  {
    assert (journal + [e])[..|journal|] == journal;
  }

  lemma AddingPays(db: Db, to: nat, amount: int, user: nat)
    ensures TimesPaid(AddPoints(db, to, amount).journal, user, MESSAGE_AWARD) ==
      TimesPaid(db.journal, user, MESSAGE_AWARD)
      + if to == user && amount == MESSAGE_AWARD && user in db.profiles then 1 else 0
  {
    PaidMore(db.journal, Paid(to, amount), user);
  }

  lemma BuyingPaysNobody(db: Db, buyer: nat, item: nat, user: nat)
    ensures TimesPaid(RedeemUnlockable(db, buyer, item).0.journal, user, MESSAGE_AWARD) ==
      TimesPaid(db.journal, user, MESSAGE_AWARD)
  {
    if item in db.catalog { PaidMore(db.journal, Bought(buyer, item, db.catalog[item]), user); }
  }

  lemma JoiningPaysNobody(db: Db, code: string, who: nat, now: int, user: nat)
    ensures TimesPaid(RedeemOrgInvite(db, code, who, now).0.journal, user, MESSAGE_AWARD) ==
      TimesPaid(db.journal, user, MESSAGE_AWARD)
  {
    if code in db.invites { PaidMore(db.journal, Admitted(code, db.invites[code].org, who), user); }
  }

  /** Only one kind of transaction pays for a message, and only into a profile. */
  lemma PaidOnlyByAward(db: Db, op: Op, user: nat)
    ensures TimesPaid(Apply(db, op).journal, user, MESSAGE_AWARD) ==
      TimesPaid(db.journal, user, MESSAGE_AWARD) + if op == EarnsByMessage(user) && user in db.profiles then 1 else 0
  {
    if op.EarnsByMessage? {
      AddingPays(db, op.user, MESSAGE_AWARD, user);
    } else if op.EarnsByTodo? {
      AddingPays(db, op.user, TODO_COMPLETE_AWARD, user);
    } else if op.Redeems? {
      BuyingPaysNobody(db, op.user, op.item, user);
    } else if op.Joins? {
      JoiningPaysNobody(db, op.code, op.user, op.now, user);
    } else {
      PointsUntouched(db, op);
    }
  }

  /** A change of one connection that neither makes nor uses up a delivery. */
  lemma OneConnChanges(s: Server, c: nat, k: Conn, user: nat)
    requires Good(s) && c < |s.conns|
    requires s.conns[c].user.Some? ==> k.user == s.conns[c].user
    requires Awaits(k, user) == Awaits(s.conns[c], user)
    ensures Unpaid(s.(conns := s.conns[c := k]), user) == Unpaid(s, user)
  {
    AwaitingUpdate(s.conns, c, k, user);
    SendersAreUsers(s);
    DeliveredStays(s.conns, s.conns[c := k], s.deliveries, user);
  }

  lemma SendersAreUsers(s: Server)
    requires Good(s)
    ensures forall d :: d in s.deliveries ==> d.sender < |s.conns| && s.conns[d.sender].user.Some?
  {
    assert forall d :: d in s.deliveries ==> Proper(d, s.conns);
  }

  lemma WorksPaid(s: Server, me: User, task: Task, draw: Draw, user: nat)
    requires Grounded(s.db, s.conns, me, task) && !task.Answering? && !task.Putting?
    ensures TimesPaid(DbAfter(s.db, Transaction(s.db, me, task, draw)).journal, user, MESSAGE_AWARD) ==
      TimesPaid(s.db.journal, user, MESSAGE_AWARD)
      + if task == Awarding && me.id == user && user in s.db.profiles then 1 else 0
  {
    NextAwaits(s, me, task, draw);
    var op := Transaction(s.db, me, task, draw);
    if op.Some? {
      PaidOnlyByAward(s.db, op.value, user);
    }
  }

  /** Working never leads to paying for a message, and paying for one is done once. */
  lemma NextAwaits(s: Server, me: User, task: Task, draw: Draw)
    requires Grounded(s.db, s.conns, me, task) && !task.Answering? && !task.Putting?
    ensures NextTask(s, me, task, draw) != Awarding
    ensures forall u :: Transaction(s.db, me, task, draw) == Some(EarnsByMessage(u)) <==> task == Awarding && u == me.id
  {}

  lemma WorksUnpaid(s: Server, c: nat, draw: Draw, user: nat)
    requires Good(s) && c < |s.conns| && s.conns[c].user.Some?
    requires var task := s.conns[c].task; !task.Answering? && !task.Putting?
    ensures Unpaid(Works(s, c, draw), user) == Unpaid(s, user) + if InVain(s, Steps(c, draw), user) then 1 else 0
  {
    var me := s.conns[c].user.value;
    var task := s.conns[c].task;
    var k := s.conns[c].(task := NextTask(s, me, task, draw));
    assert ConnOk(s.db, s.conns, s.conns[c]);
    NextAwaits(s, me, task, draw);
    WorksPaid(s, me, task, draw, user);
    AwaitingUpdate(s.conns, c, k, user);
    SendersAreUsers(s);
    DeliveredStays(s.conns, s.conns[c := k], s.deliveries, user);
  }

  lemma PutsUnpaid(s: Server, c: nat, user: nat)
    requires Good(s) && c < |s.conns| && s.conns[c].task.Putting? && s.conns[c].user.Some?
    requires s.conns[c].task.outbox < |s.conns|
    ensures Unpaid(Puts(s, c), user) == Unpaid(s, user)
  {
    var Putting(e, target, outbox, rest) := s.conns[c].task;
    if |s.conns[outbox].outbox| < OUTBOX_SIZE {
      DeliveryUnpaid(s, c, user);
    } else {
      OneConnChanges(s, c, s.conns[c].(task := AfterSend(e, rest, false)), user);
    }
  }

  /** Putting a message has its sender paid next, once. */
  lemma PutAwaits(conns: seq<Conn>, c: nat, user: nat)
    requires c < |conns| && conns[c].task.Putting? && conns[c].user.Some? && conns[c].task.outbox < |conns|
    ensures var Putting(e, target, outbox, rest) := conns[c].task;
      var mid := conns[outbox := conns[outbox].(outbox := conns[outbox].outbox + [e])];
      var after := mid[c := mid[c].(task := AfterSend(e, rest, true))];
      && UsersStay(conns, after)
      && Awaiting(after, user) == Awaiting(conns, user) + if e.Relay? && conns[c].user.value.id == user then 1 else 0
  {
    var Putting(e, target, outbox, rest) := conns[c].task;
    var mid := conns[outbox := conns[outbox].(outbox := conns[outbox].outbox + [e])];
    AwaitingUpdate(conns, outbox, mid[outbox], user);
    assert Awaits(mid[outbox], user) == Awaits(conns[outbox], user);
    AwaitingUpdate(mid, c, mid[c].(task := AfterSend(e, rest, true)), user);
    assert !Awaits(mid[c], user) && mid[c].user == conns[c].user;
  }

  lemma DeliveryUnpaid(s: Server, c: nat, user: nat)
    requires Good(s) && c < |s.conns| && s.conns[c].task.Putting? && s.conns[c].user.Some?
    requires s.conns[c].task.outbox < |s.conns| && |s.conns[s.conns[c].task.outbox].outbox| < OUTBOX_SIZE
    ensures Unpaid(Puts(s, c), user) == Unpaid(s, user)
  {
    var Putting(e, target, outbox, rest) := s.conns[c].task;
    var conns := Puts(s, c).conns;
    var d := Delivery(e, c, outbox, target, s.db);
    PutAwaits(s.conns, c, user);
    SendersAreUsers(s);
    DeliveredStays(s.conns, conns, s.deliveries, user);
    DeliveredMore(conns, s.deliveries, d, user);
    assert SentBy(conns, d, user) == (e.Relay? && s.conns[c].user.value.id == user);
  }

  lemma AnswersUnpaid(s: Server, c: nat, user: nat)
    requires Good(s) && c < |s.conns| && s.conns[c].task.Answering?
    ensures Unpaid(Answers(s, c), user) == Unpaid(s, user)
  {
    var k := s.conns[c];
    assert ConnOk(s.db, s.conns, k);
    OneConnChanges(s, c, k.(outbox := k.outbox + [k.task.e], task := k.task.next), user);
  }

  lemma StepUnpaid(s: Server, c: nat, draw: Draw, user: nat)
    requires Good(s) && CanStep(s, c, draw)
    ensures Unpaid(Step(s, c, draw), user) == Unpaid(s, user) + if InVain(s, Steps(c, draw), user) then 1 else 0
  {
    var k := s.conns[c];
    assert ConnOk(s.db, s.conns, k);
    if k.task.Answering? {
      AnswersUnpaid(s, c, user);
    } else if k.task.Joining? {
      OneConnChanges(s, c, JoinsHub(s, c).conns[c], user);
    } else if k.task.Leaving? {
      OneConnChanges(s, c, LeavesHub(s, c).conns[c], user);
    } else if k.task.Putting? {
      PutsUnpaid(s, c, user);
    } else {
      WorksUnpaid(s, c, draw, user);
    }
  }

  /** An award made in vain leaves one message more unpaid; nothing else changes how many are. */
  lemma NextUnpaid(s: Server, e: Event, user: nat)
    requires Good(s) && Enabled(s, e)
    ensures Unpaid(Next(s, e), user) == Unpaid(s, user) + if InVain(s, e, user) then 1 else 0
  {
    match e
    case Connects =>
      AwaitingMore(s.conns, Conn(None, false, Idle, [], false), user);
      SendersAreUsers(s);
      DeliveredStays(s.conns, Next(s, e).conns, s.deliveries, user);
    case Steps(c, draw) => StepUnpaid(s, c, draw, user);
    case Elsewhere(op) => PaidOnlyByAward(s.db, op, user);
    case SignsIn(_, _) | Refused(_) | Requests(_, _) | HangsUp(_) | Drains(_) | WriterFails(_) =>
      OneConnChanges(s, e.c, Next(s, e).conns[e.c], user);
  }

  /** How many awards to the user are made in vain during a run. */
  function TimesInVain(s: Server, run: seq<Event>, user: nat): nat
    requires CanRun(s, run)
    decreases |run|
  {
    if run == [] then 0
    else (if InVain(s, run[0], user) then 1 else 0) + TimesInVain(Next(s, run[0]), run[1..], user)
  }

  lemma {:induction false} RunUnpaid(s: Server, run: seq<Event>, user: nat)
    requires Good(s) && CanRun(s, run)
    ensures Good(Run(s, run)) && Unpaid(Run(s, run), user) == Unpaid(s, user) + TimesInVain(s, run, user)
    decreases |run|
  {
    if run != [] {
      NextGood(s, run[0]);
      NextUnpaid(s, run[0], user);
      RunUnpaid(Next(s, run[0]), run[1..], user);
    }
  }

  /**
   In every interleaving, the messages the user's own connections have delivered to others
   who share an organization are those the user has been paid for, those about to be paid
   for, and those whose award found no profile.
   */
  lemma PaidMessagesWereDelivered(catalog: map<nat, int>, run: seq<Event>, user: nat)
    requires CanRun(Start(catalog), run)
    ensures var s := Run(Start(catalog), run);
      && TimesPaid(s.db.journal, user, MESSAGE_AWARD) + Awaiting(s.conns, user) + TimesInVain(Start(catalog), run, user)
           == Delivered(s.conns, s.deliveries, user)
      && forall d :: d in s.deliveries ==> Proper(d, s.conns)
  {
    StartGood(catalog);
    RunUnpaid(Start(catalog), run, user);
    RelayIsGated(catalog, run);
  }

  lemma {:induction false} NeverInVain(s: Server, run: seq<Event>, user: nat)
    requires Good(s) && CanRun(s, run) && user in s.db.profiles
    ensures TimesInVain(s, run, user) == 0
    decreases |run|
  {
    if run != [] {
      NextGood(s, run[0]);
      ProfileStays(s, run[0], user);
      NeverInVain(Next(s, run[0]), run[1..], user);
    }
  }

  lemma ProfileStays(s: Server, e: Event, user: nat)
    requires Good(s) && Enabled(s, e) && user in s.db.profiles
    ensures user in Next(s, e).db.profiles
  {
    NextTransacts(s, e);
    if OpOf(s, e).Some? { ApplyGrows(s.db, OpOf(s, e).value); }
  }

  /**
   A user who has a profile before any message of theirs is delivered has been paid for
   exactly the messages delivered since, but for those about to be paid for.
   */
  lemma WithProfileAllPaid(catalog: map<nat, int>, before: seq<Event>, run: seq<Event>, user: nat)
    requires CanRun(Start(catalog), before)
    requires var s := Run(Start(catalog), before);
      user in s.db.profiles && Delivered(s.conns, s.deliveries, user) == 0 && CanRun(s, run)
    ensures var s := Run(Run(Start(catalog), before), run);
      TimesPaid(s.db.journal, user, MESSAGE_AWARD) + Awaiting(s.conns, user) == Delivered(s.conns, s.deliveries, user)
  {
    StartGood(catalog);
    RunUnpaid(Start(catalog), before, user);
    RunUnpaid(Run(Start(catalog), before), run, user);
    NeverInVain(Run(Start(catalog), before), run, user);
  }
}
