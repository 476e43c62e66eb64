/**
 What comes of a request at the relay when its handler is not interrupted: whether a message
 reaches its target, what is changed in the database, and what is answered.
 */
module RelayRequests {
  import opened Wrappers
  import opened Text
  import opened RelayStore
  import Laws = RelayStoreLaws
  import opened RelayHub
  import opened RelayServer

  /** A signed-in connection that waits for requests. */
  predicate Ready(s: Server, c: nat) {
    c < |s.conns| && s.conns[c].user.Some? && s.conns[c].task.Idle?
  }

  /** At most `n` steps of one handler, with nothing in between; it stops where it waits. */
  function StepsOn(s: Server, c: nat, draw: Draw, n: nat): Server
    decreases n
  {
    if n == 0 || !CanStep(s, c, draw) then s else StepsOn(Step(s, c, draw), c, draw, n - 1)
  }

  /** They are a run of the server. */
  lemma {:induction false} StepsAreRun(s: Server, c: nat, draw: Draw, n: nat) returns (run: seq<Event>)
    ensures CanRun(s, run) && Run(s, run) == StepsOn(s, c, draw, n) && forall e :: e in run ==> e == Steps(c, draw)
    decreases n
  {
    run := [];
    if n > 0 && CanStep(s, c, draw) {
      var rest := StepsAreRun(Step(s, c, draw), c, draw, n - 1);
      run := [Steps(c, draw)] + rest;
      assert run[1..] == rest && Next(s, Steps(c, draw)) == Step(s, c, draw);
    }
  }

  /** The request made, and up to six steps of its handler. */
  function Handled(s: Server, c: nat, task: Task, draw: Draw): Server
    requires Ready(s, c) && Request(task)
  {
    StepsOn(Next(s, Requests(c, task)), c, draw, 6)
  }

  /** One more answer on the connection's outbox, or the handler waiting for room there; all else is as it was. */
  function Answered(s: Server, c: nat): Server
    requires c < |s.conns|
  {
    var k := s.conns[c];
    s.(conns := s.conns[c :=
      if |k.outbox| < 16 then k.(outbox := k.outbox + [Answer]) else k.(task := Answering(Answer, Idle))])
  }

  lemma TaskOnTask(s: Server, c: nat, a: Task, b: Task)
    requires c < |s.conns|
    ensures WithTask(WithTask(s, c, a), c, b) == WithTask(s, c, b)
    ensures s.conns[c].task == a ==> WithTask(s, c, a) == s
  {
    assert s.conns[c].task == a ==> s.conns[c].(task := a) == s.conns[c];
  }

  lemma OneStep(s: Server, c: nat, draw: Draw, n: nat)
    requires n > 0 && CanStep(s, c, draw)
    ensures StepsOn(s, c, draw, n) == StepsOn(Step(s, c, draw), c, draw, n - 1)
  {}

  lemma WaitsThere(s: Server, c: nat, draw: Draw, n: nat)
    requires !CanStep(s, c, draw)
    ensures StepsOn(s, c, draw, n) == s
  {}

  /** A handler that has an answer to give gives it, if it has room. */
  lemma GivesAnswer(s: Server, c: nat, draw: Draw, n: nat)
    requires Ready(s, c) && n > 0
    ensures StepsOn(WithTask(s, c, DONE), c, draw, n) == Answered(s, c)
  {
    var t := WithTask(s, c, DONE);
    if |s.conns[c].outbox| < 16 {
      OneStep(t, c, draw, n);
      assert Step(t, c, draw).conns == Answered(s, c).conns;
      WaitsThere(Answered(s, c), c, draw, n - 1);
    } else {
      WaitsThere(t, c, draw, n);
    }
  }

  // ---- Relaying a message ----

  predicate SharesOrganization(db: Db, u: nat, v: nat) {
    exists m :: m in db.members && m.1 == u && (m.0, v) in db.members
  }

  /** The target is registered, shares an organization with the sender, is online, and has room. */
  predicate Reaches(s: Server, sender: User, target: string) {
    && target in s.db.handles && SharesOrganization(s.db, sender.id, s.db.handles[target])
    && target in s.clients && s.clients[target] < |s.conns| && |s.conns[s.clients[target]].outbox| < 16
  }

  /** What a user has after one more point, if there is a profile for it. */
  function OnePointMore(db: Db, user: nat): Db {
    if user in db.profiles then
      db.(profiles := db.profiles[user := Profile(db.profiles[user].points + 1, db.profiles[user].active)],
          journal := db.journal + [Paid(user, 1)])
    else db
  }

  /** The envelope is on the target's outbox, its delivery is recorded, and the sender has been paid. */
  function Relayed(s: Server, c: nat, target: string, body: string): Server
    requires c < |s.conns| && s.conns[c].user.Some? && target in s.clients && s.clients[target] < |s.conns|
  {
    var (k, sender) := (s.clients[target], s.conns[c].user.value);
    var e := Relay(sender.handle, body);
    s.(db := OnePointMore(s.db, sender.id),
       conns := s.conns[k := s.conns[k].(outbox := s.conns[k].outbox + [e])],
       deliveries := s.deliveries + [Delivery(e, c, k, target, s.db)])
  }

  lemma LooksUp(s: Server, c: nat, target: string, body: string, draw: Draw)
    requires Good(s) && Ready(s, c)
    ensures var t := WithTask(s, c, LookingUp(target, body));
      CanStep(t, c, draw) && Step(t, c, draw) ==
        WithTask(s, c,
          if target in s.db.handles then Checking(target, s.db.users[s.db.handles[target]], body) else DONE)
  {}

  lemma Checks(s: Server, c: nat, target: string, body: string, draw: Draw)
    requires Good(s) && Ready(s, c) && target in s.db.handles
    ensures var (me, id) := (s.conns[c].user.value, s.db.handles[target]);
      var t := WithTask(s, c, Checking(target, s.db.users[id], body));
      CanStep(t, c, draw) && Step(t, c, draw) ==
        WithTask(s, c,
          if SharesOrganization(s.db, me.id, id) then Sending(Relay(me.handle, body), target, []) else DONE)
  {
    assert SharesOrganization(s.db, s.conns[c].user.value.id, s.db.handles[target])
      == SharesOrg(s.db, s.conns[c].user.value.id, s.db.handles[target]);
  }

  lemma Sends(s: Server, c: nat, e: Envelope, target: string, draw: Draw)
    requires Ready(s, c) && e.Relay?
    ensures var t := WithTask(s, c, Sending(e, target, []));
      CanStep(t, c, draw) && Step(t, c, draw) ==
        WithTask(s, c, if target in s.clients then Putting(e, target, s.clients[target], []) else DONE)
  {}

  /** The message has been put, and its sender is about to be paid. */
  function PutBeforePay(s: Server, c: nat, target: string, body: string): Server
    requires c < |s.conns| && s.conns[c].user.Some? && target in s.clients && s.clients[target] < |s.conns|
  {
    WithTask(Relayed(s, c, target, body), c, Awarding).(db := s.db)
  }

  lemma PutsThenPays(s: Server, c: nat, target: string, body: string, draw: Draw)
    requires Ready(s, c) && target in s.clients && s.clients[target] < |s.conns|
    requires |s.conns[s.clients[target]].outbox| < 16
    ensures var (k, e) := (s.clients[target], Relay(s.conns[c].user.value.handle, body));
      Step(WithTask(s, c, Putting(e, target, k, [])), c, draw) == PutBeforePay(s, c, target, body)
  {
    var (k, e) := (s.clients[target], Relay(s.conns[c].user.value.handle, body));
    var t := WithTask(s, c, Putting(e, target, k, []));
    assert Puts(t, c).conns == PutBeforePay(s, c, target, body).conns;
  }

  lemma Pays(s: Server, c: nat, target: string, body: string, draw: Draw)
    requires Ready(s, c) && target in s.clients && s.clients[target] < |s.conns|
    ensures var t := PutBeforePay(s, c, target, body);
      CanStep(t, c, draw) && Step(t, c, draw) == Relayed(s, c, target, body)
  {
    var r := Relayed(s, c, target, body);
    var t := PutBeforePay(s, c, target, body);
    TaskOnTask(r, c, Awarding, Idle);
    TaskOnTask(r, c, Idle, Idle);
    assert Works(t, c, draw) == WithTask(WithTask(r, c, Awarding), c, Idle);
  }

  /** The put: with room the sender is paid next, without it answered. */
  lemma PutsOrNot(s: Server, c: nat, target: string, body: string, draw: Draw, n: nat)
    requires Ready(s, c) && target in s.clients && s.clients[target] < |s.conns| && n >= 2
    ensures var (k, e) := (s.clients[target], Relay(s.conns[c].user.value.handle, body));
      StepsOn(WithTask(s, c, Putting(e, target, k, [])), c, draw, n) ==
        if |s.conns[k].outbox| < 16 then Relayed(s, c, target, body) else Answered(s, c)
  {
    var (k, e) := (s.clients[target], Relay(s.conns[c].user.value.handle, body));
    var t := WithTask(s, c, Putting(e, target, k, []));
    OneStep(t, c, draw, n);
    if |s.conns[k].outbox| < 16 {
      PutsThenPays(s, c, target, body, draw);
      Pays(s, c, target, body, draw);
      OneStep(PutBeforePay(s, c, target, body), c, draw, n - 1);
      WaitsThere(Relayed(s, c, target, body), c, draw, n - 2);
    } else {
      assert Step(t, c, draw) == WithTask(t, c, DONE);
      TaskOnTask(s, c, Putting(e, target, k, []), DONE);
      GivesAnswer(s, c, draw, n - 1);
    }
  }

  /**
   A request to relay a message, its handler not interrupted: if the target is registered, shares
   an organization with the sender, is online and has room, the message is on its outbox under
   the sender's handle, its delivery is recorded and the sender has been paid a point; in every
   other case the sender is answered and nothing else changes.
   */
  lemma RelaysExactly(s: Server, c: nat, target: string, body: string, draw: Draw)
    requires Good(s) && Ready(s, c)
    ensures Handled(s, c, LookingUp(target, body), draw) ==
      if Reaches(s, s.conns[c].user.value, target) then Relayed(s, c, target, body) else Answered(s, c)
  {
    var me := s.conns[c].user.value;
    LooksUp(s, c, target, body, draw);
    OneStep(WithTask(s, c, LookingUp(target, body)), c, draw, 6);
    if target !in s.db.handles {
      GivesAnswer(s, c, draw, 5);
    } else {
      var id := s.db.handles[target];
      Checks(s, c, target, body, draw);
      OneStep(WithTask(s, c, Checking(target, s.db.users[id], body)), c, draw, 5);
      if !SharesOrganization(s.db, me.id, id) {
        GivesAnswer(s, c, draw, 4);
      } else {
        Sends(s, c, Relay(me.handle, body), target, draw);
        OneStep(WithTask(s, c, Sending(Relay(me.handle, body), target, [])), c, draw, 4);
        if target !in s.clients {
          GivesAnswer(s, c, draw, 3);
        } else {
          assert JoinedAs(s.conns, s.clients[target], target);
          PutsOrNot(s, c, target, body, draw, 3);
        }
      }
    }
  }

  // ---- The other requests ----

  /** A step that neither puts nor answers anything: one transaction at most, and what the handler does next. */
  lemma WorksOnce(s: Server, c: nat, task: Task, draw: Draw)
    requires Ready(s, c) && !NoWork(task) && !task.Idle? && !task.Finished? && !task.ReadingMates?
    ensures var (t, me) := (WithTask(s, c, task), s.conns[c].user.value);
      CanStep(t, c, draw) && Step(t, c, draw) ==
        WithTask(s.(db := DbAfter(s.db, Transaction(s.db, me, task, draw))), c, NextTask(t, me, task, draw))
  {
    var me := s.conns[c].user.value;
    TaskOnTask(s, c, task, NextTask(WithTask(s, c, task), me, task, draw));
  }

  /** A system administrator founds an organization of the trimmed name, if it is not blank. */
  lemma FoundsExactly(s: Server, c: nat, name: string, draw: Draw)
    requires Ready(s, c)
    ensures var me := s.conns[c].user.value;
      Handled(s, c, Founding(name), draw) == Answered(
        if me.admin && TrimSpace(name) != "" then s.(db := CreateOrg(s.db, TrimSpace(name), me.id).0) else s, c)
  {
    WorksOnce(s, c, Founding(name), draw);
    OneStep(WithTask(s, c, Founding(name)), c, draw, 6);
    var db := DbAfter(s.db, Transaction(s.db, s.conns[c].user.value, Founding(name), draw));
    GivesAnswer(s.(db := db), c, draw, 5);
  }

  /** An administrator of the organization makes a code that lives seven days. */
  lemma InvitesExactly(s: Server, c: nat, org: nat, draw: Draw)
    requires Ready(s, c)
    ensures var me := s.conns[c].user.value;
      Handled(s, c, AdminChecking(org), draw) == Answered(
        if (org, me.id) in s.db.members && s.db.members[(org, me.id)] == Admin
        then s.(db := CreateOrgInvite(s.db, org, me.id, draw.code, draw.now + 604800).0) else s, c)
  {
    var me := s.conns[c].user.value;
    WorksOnce(s, c, AdminChecking(org), draw);
    OneStep(WithTask(s, c, AdminChecking(org)), c, draw, 6);
    if IsOrgAdmin(s.db, org, me.id) {
      WorksOnce(s, c, Inviting(org), draw);
      OneStep(WithTask(s, c, Inviting(org)), c, draw, 5);
      GivesAnswer(s.(db := CreateOrgInvite(s.db, org, me.id, draw.code, draw.now + 604800).0), c, draw, 4);
    } else {
      GivesAnswer(s, c, draw, 5);
    }
  }

  /** A code is redeemed for whoever asks; who is let in is answered and then learns who is there. */
  lemma JoinsExactly(s: Server, c: nat, code: string, draw: Draw)
    requires Ready(s, c)
    ensures var (me, t) := (s.conns[c].user.value, WithTask(s, c, JoiningOrg(code)));
      var (db, r) := RedeemOrgInvite(s.db, code, me.id, draw.now);
      CanStep(t, c, draw) && Step(t, c, draw) == WithTask(s.(db := db), c,
        if r.Ok? then Answering(Answer, ReadingMates(PresenceJoined(me.handle), Some(r.value.id))) else DONE)
  {
    WorksOnce(s, c, JoiningOrg(code), draw);
  }

  /** An unlockable is bought for whoever asks. */
  lemma RedeemsExactly(s: Server, c: nat, item: nat, draw: Draw)
    requires Ready(s, c)
    ensures Handled(s, c, Redeeming(item), draw) ==
      Answered(s.(db := RedeemUnlockable(s.db, s.conns[c].user.value.id, item).0), c)
  {
    var db := RedeemUnlockable(s.db, s.conns[c].user.value.id, item).0;
    WorksOnce(s, c, Redeeming(item), draw);
    OneStep(WithTask(s, c, Redeeming(item)), c, draw, 6);
    GivesAnswer(s.(db := db), c, draw, 5);
  }

  /** Only what has been unlocked is equipped. */
  lemma EquipsExactly(s: Server, c: nat, item: nat, draw: Draw)
    requires Ready(s, c)
    ensures var me := s.conns[c].user.value;
      Handled(s, c, UnlockChecking(item), draw) == Answered(
        if (me.id, item) in s.db.unlocks then s.(db := SetActiveUnlockable(s.db, me.id, Some(item)).0) else s, c)
  {
    var me := s.conns[c].user.value;
    WorksOnce(s, c, UnlockChecking(item), draw);
    OneStep(WithTask(s, c, UnlockChecking(item)), c, draw, 6);
    if (me.id, item) in s.db.unlocks {
      WorksOnce(s, c, Equipping(item), draw);
      OneStep(WithTask(s, c, Equipping(item)), c, draw, 5);
      GivesAnswer(s.(db := SetActiveUnlockable(s.db, me.id, Some(item)).0), c, draw, 4);
    } else {
      GivesAnswer(s, c, draw, 5);
    }
  }

  lemma AddsAsMember(s: Server, c: nat, org: nat, text: string, draw: Draw)
    requires Ready(s, c)
    ensures StepsOn(WithTask(s, c, AddingTodo(org, text)), c, draw, 5) == Answered(
      if TrimSpace(text) != "" then s.(db := CreateTodo(s.db, org, s.conns[c].user.value.id, TrimSpace(text)).0) else s,
      c)
  {
    WorksOnce(s, c, AddingTodo(org, text), draw);
    OneStep(WithTask(s, c, AddingTodo(org, text)), c, draw, 5);
    if TrimSpace(text) != "" {
      GivesAnswer(s.(db := CreateTodo(s.db, org, s.conns[c].user.value.id, TrimSpace(text)).0), c, draw, 4);
    } else {
      GivesAnswer(s, c, draw, 4);
    }
  }

  /** A member adds a todo of the trimmed text, if it is not blank. */
  lemma AddsExactly(s: Server, c: nat, org: nat, text: string, draw: Draw)
    requires Ready(s, c)
    ensures var me := s.conns[c].user.value;
      Handled(s, c, MemberChecking(org, AddingTodo(org, text)), draw) == Answered(
        if (org, me.id) in s.db.members && TrimSpace(text) != ""
        then s.(db := CreateTodo(s.db, org, me.id, TrimSpace(text)).0) else s, c)
  {
    var checking := MemberChecking(org, AddingTodo(org, text));
    WorksOnce(s, c, checking, draw);
    OneStep(WithTask(s, c, checking), c, draw, 6);
    if (org, s.conns[c].user.value.id) in s.db.members {
      AddsAsMember(s, c, org, text, draw);
    } else {
      GivesAnswer(s, c, draw, 5);
    }
  }

  /** The todo is done; the award is one more step. */
  lemma IsPaidForTodo(s: Server, c: nat, draw: Draw)
    requires Ready(s, c)
    ensures StepsOn(WithTask(s, c, AwardingTodo), c, draw, 4) ==
      Answered(s.(db := AddPoints(s.db, s.conns[c].user.value.id, TODO_COMPLETE_AWARD)), c)
  {
    var me := s.conns[c].user.value;
    WorksOnce(s, c, AwardingTodo, draw);
    OneStep(WithTask(s, c, AwardingTodo), c, draw, 4);
    GivesAnswer(s.(db := AddPoints(s.db, me.id, TODO_COMPLETE_AWARD)), c, draw, 3);
  }

  lemma CompletesAsMember(s: Server, c: nat, org: nat, todo: nat, draw: Draw)
    requires Ready(s, c) && (org, s.conns[c].user.value.id) in s.db.members
    ensures StepsOn(WithTask(s, c, CompletingTodo(org, todo)), c, draw, 5) ==
      Answered(s.(db := CompleteByMember(s.db, org, todo, s.conns[c].user.value.id).0), c)
  {
    WorksOnce(s, c, CompletingTodo(org, todo), draw);
    OneStep(WithTask(s, c, CompletingTodo(org, todo)), c, draw, 5);
    var (done, r) := CompleteTodo(s.db, org, todo);
    if r.Ok? {
      IsPaidForTodo(s.(db := done), c, draw);
    } else {
      GivesAnswer(s, c, draw, 4);
    }
  }

  /** A member completes a todo of the organization's, and is paid for it. */
  lemma CompletesExactly(s: Server, c: nat, org: nat, todo: nat, draw: Draw)
    requires Ready(s, c)
    ensures Handled(s, c, MemberChecking(org, CompletingTodo(org, todo)), draw) ==
      Answered(s.(db := CompleteByMember(s.db, org, todo, s.conns[c].user.value.id).0), c)
  {
    var checking := MemberChecking(org, CompletingTodo(org, todo));
    WorksOnce(s, c, checking, draw);
    OneStep(WithTask(s, c, checking), c, draw, 6);
    if (org, s.conns[c].user.value.id) in s.db.members {
      CompletesAsMember(s, c, org, todo, draw);
    } else {
      GivesAnswer(s, c, draw, 5);
    }
  }

  // ---- Coming and going ----

  /** Signing in registers a handle that is free, and then has the others told; a handle that is taken is refused. */
  lemma SignsInExactly(s: Server, c: nat, user: User, draw: Draw)
    requires c < |s.conns| && s.conns[c].user.None?
    ensures var (t, k) := (WithTask(s, c, Joining(user)), s.conns[c]);
      CanStep(t, c, draw) && Step(t, c, draw) ==
        if user.handle in s.clients then WithTask(s, c, Answering(Answer, Idle))
        else s.(clients := s.clients[user.handle := c],
                conns := s.conns[c := k.(user := Some(user),
                                         task := Answering(Answer, ReadingMates(PresenceJoined(user.handle), None)))])
  {
    TaskOnTask(s, c, Joining(user), Answering(Answer, Idle));
  }

  /** Leaving gives up the handle, if it is registered to this connection, and then has the others told. */
  lemma LeavesExactly(s: Server, c: nat, draw: Draw)
    requires c < |s.conns| && s.conns[c].user.Some?
    ensures var (t, handle) := (WithTask(s, c, Leaving), s.conns[c].user.value.handle);
      CanStep(t, c, draw) && Step(t, c, draw) == s.(
        clients := if handle in s.clients && s.clients[handle] == c then s.clients - {handle} else s.clients,
        conns := s.conns[c := s.conns[c].(left := true, task := ReadingMates(PresenceLeft(handle), None))])
  {}

  /** Whoever is read is told next, in the order read. */
  lemma ReadsThenTells(s: Server, c: nat, e: Envelope, scope: Option<nat>, draw: Draw)
    requires c < |s.conns| && s.conns[c].user.Some?
    ensures var t := WithTask(s, c, ReadingMates(e, scope));
      CanStep(t, c, draw) ==> Step(t, c, draw) == WithTask(s, c, Telling(e, draw.mates))
  {
    TaskOnTask(s, c, ReadingMates(e, scope), Telling(e, draw.mates));
  }

  /**
   Who is told when a user comes or goes: everybody else who shares an organization; or, of one just
   joined, its other members.
   */
  lemma ToldExactly(db: Db, me: User, scope: Option<nat>, h: string)
    requires UsersOk(db) && OrgsOk(db) && Known(db, me)
    ensures h in Mates(db, me, scope) <==>
      && h in db.handles && h != me.handle
      && if scope.None? then SharesOrganization(db, me.id, db.handles[h])
         else (scope.value, db.handles[h]) in db.members
  {
    assert db.users[db.handles[me.handle]].handle == me.handle;
    if scope.Some? {
      Laws.MembersListed(db, scope.value, h);
    } else {
      MatesAreSharers(db, me.id, h);
      if h in db.handles { assert db.users[db.handles[h]].handle == h; }
    }
  }

  /** The envelope on an outbox with room, and nothing without. */
  function Offered(conns: seq<Conn>, k: nat, e: Envelope): (r: seq<Conn>)
    requires k < |conns|
    ensures |r| == |conns|
  {
    if |conns[k].outbox| < 16 then conns[k := conns[k].(outbox := conns[k].outbox + [e])] else conns
  }

  /**
   One user has been told: of a departure, if online with room; of an arrival likewise, and the
   newcomer of that user first.
   */
  function ToldOne(s: Server, c: nat, e: Envelope, h: string): (t: Server)
    requires c < |s.conns| && (h in s.clients ==> s.clients[h] < |s.conns|)
    ensures |t.conns| == |s.conns| && t.clients == s.clients && t.db == s.db
  {
    if h !in s.clients then s
    else
      var greeted := if e.PresenceJoined?
        then s.conns[c := s.conns[c].(outbox := s.conns[c].outbox + [PresenceJoined(h)])] else s.conns;
      PresencePut(s.(conns := greeted), c, e, h)
  }

  function PresencePut(s: Server, c: nat, e: Envelope, h: string): (t: Server)
    requires h in s.clients && s.clients[h] < |s.conns|
    ensures |t.conns| == |s.conns| && t.clients == s.clients && t.db == s.db
  {
    var k := s.clients[h];
    s.(conns := Offered(s.conns, k, e),
       deliveries := if |s.conns[k].outbox| < 16 then s.deliveries + [Delivery(e, c, k, h, s.db)] else s.deliveries)
  }

  lemma SendsPresence(s: Server, c: nat, e: Envelope, h: string, rest: seq<string>, draw: Draw, n: nat)
    requires c < |s.conns| && s.conns[c].user.Some? && !e.Relay?
    requires h in s.clients && s.clients[h] < |s.conns| && n >= 2
    ensures StepsOn(WithTask(s, c, Sending(e, h, rest)), c, draw, n) ==
      StepsOn(WithTask(PresencePut(s, c, e, h), c, Telling(e, rest)), c, draw, n - 2)
  {
    var k := s.clients[h];
    var t := WithTask(s, c, Sending(e, h, rest));
    var u := WithTask(s, c, Putting(e, h, k, rest));
    TaskOnTask(s, c, Sending(e, h, rest), Putting(e, h, k, rest));
    OneStep(t, c, draw, n);
    assert Step(t, c, draw) == u;
    OneStep(u, c, draw, n - 1);
    assert Step(u, c, draw).conns == WithTask(PresencePut(s, c, e, h), c, Telling(e, rest)).conns;
  }

  /** How many steps it takes to tell the next user on the list. */
  function StepsToTell(online: bool, e: Envelope): nat {
    if online then if e.PresenceLeft? then 3 else 4 else if e.PresenceLeft? then 2 else 1
  }

  lemma LeavesThenSends(s: Server, c: nat, e: Envelope, h: string, rest: seq<string>, draw: Draw, m: nat)
    requires c < |s.conns| && s.conns[c].user.Some? && e.PresenceLeft?
    requires h in s.clients && s.clients[h] < |s.conns| && m >= 2
    ensures var t := WithTask(s, c, Telling(e, [h] + rest));
      CanStep(t, c, draw) && StepsOn(Step(t, c, draw), c, draw, m) ==
        StepsOn(WithTask(ToldOne(s, c, e, h), c, Telling(e, rest)), c, draw, m - 2)
  {
    var t := WithTask(s, c, Telling(e, [h] + rest));
    assert ([h] + rest)[0] == h && ([h] + rest)[1..] == rest;
    TaskOnTask(s, c, Telling(e, [h] + rest), Sending(e, h, rest));
    assert Step(t, c, draw) == WithTask(s, c, Sending(e, h, rest));
    SendsPresence(s, c, e, h, rest, draw, m);
  }

  /** The next user on the list has been told after at most four steps. */
  lemma TellsNext(s: Server, c: nat, e: Envelope, h: string, rest: seq<string>, draw: Draw, m: nat)
    requires c < |s.conns| && s.conns[c].user.Some? && (e.PresenceLeft? || e.PresenceJoined?)
    requires (h in s.clients ==> s.clients[h] < |s.conns|) && (e.PresenceJoined? ==> |s.conns[c].outbox| < 16)
    requires m >= StepsToTell(h in s.clients, e)
    ensures StepsOn(WithTask(s, c, Telling(e, [h] + rest)), c, draw, m) ==
      StepsOn(WithTask(ToldOne(s, c, e, h), c, Telling(e, rest)), c, draw, m - StepsToTell(h in s.clients, e))
  {
    if h !in s.clients {
      TellsNobody(s, c, e, h, rest, draw, m);
    } else {
      if e.PresenceLeft? {
        LeavesThenSends(s, c, e, h, rest, draw, m - 1);
      } else {
        GreetsThenSends(s, c, e, h, rest, draw, m - 1);
      }
      OneStep(WithTask(s, c, Telling(e, [h] + rest)), c, draw, m);
    }
  }

  lemma GreetsThenSends(s: Server, c: nat, e: Envelope, h: string, rest: seq<string>, draw: Draw, m: nat)
    requires c < |s.conns| && s.conns[c].user.Some? && e.PresenceJoined? && |s.conns[c].outbox| < 16
    requires h in s.clients && s.clients[h] < |s.conns| && m >= 3
    ensures var t := WithTask(s, c, Telling(e, [h] + rest));
      CanStep(t, c, draw) && StepsOn(Step(t, c, draw), c, draw, m) ==
        StepsOn(WithTask(ToldOne(s, c, e, h), c, Telling(e, rest)), c, draw, m - 3)
  {
    var t := WithTask(s, c, Telling(e, [h] + rest));
    assert ([h] + rest)[0] == h && ([h] + rest)[1..] == rest;
    var greeting := Answering(PresenceJoined(h), Sending(e, h, rest));
    TaskOnTask(s, c, Telling(e, [h] + rest), greeting);
    var u := WithTask(s, c, greeting);
    assert Step(t, c, draw) == u;
    OneStep(u, c, draw, m);
    var greeted := s.(conns := s.conns[c := s.conns[c].(outbox := s.conns[c].outbox + [PresenceJoined(h)])]);
    assert Step(u, c, draw).conns == WithTask(greeted, c, Sending(e, h, rest)).conns;
    SendsPresence(greeted, c, e, h, rest, draw, m - 1);
  }

  lemma TellsNobody(s: Server, c: nat, e: Envelope, h: string, rest: seq<string>, draw: Draw, m: nat)
    requires c < |s.conns| && s.conns[c].user.Some? && (e.PresenceLeft? || e.PresenceJoined?) && h !in s.clients
    requires m >= if e.PresenceLeft? then 2 else 1
    ensures StepsOn(WithTask(s, c, Telling(e, [h] + rest)), c, draw, m) ==
      StepsOn(WithTask(s, c, Telling(e, rest)), c, draw, m - if e.PresenceLeft? then 2 else 1)
  {
    var t := WithTask(s, c, Telling(e, [h] + rest));
    assert ([h] + rest)[0] == h && ([h] + rest)[1..] == rest;
    OneStep(t, c, draw, m);
    TaskOnTask(s, c, Telling(e, [h] + rest), Telling(e, rest));
    TaskOnTask(s, c, Telling(e, [h] + rest), Sending(e, h, rest));
    if e.PresenceLeft? {
      OneStep(WithTask(s, c, Sending(e, h, rest)), c, draw, m - 1);
      TaskOnTask(s, c, Sending(e, h, rest), Telling(e, rest));
    }
  }

  // ---- Everybody is told ----

  /** Everybody on the list has been told, in order. */
  function ToldAll(s: Server, c: nat, e: Envelope, rest: seq<string>): (t: Server)
    requires c < |s.conns| && forall h :: h in s.clients ==> s.clients[h] < |s.conns|
    ensures |t.conns| == |s.conns| && t.clients == s.clients && t.db == s.db
    decreases |rest|
  {
    if rest == [] then s else ToldAll(ToldOne(s, c, e, rest[0]), c, e, rest[1..])
  }

  /** Nobody on the list is this connection, and nobody is on it twice. */
  predicate OthersOnce(s: Server, c: nat, rest: seq<string>) {
    && (forall h :: h in rest && h in s.clients ==> s.clients[h] < |s.conns| && s.clients[h] != c)
    && (forall i, j :: 0 <= i < j < |rest| ==> rest[i] != rest[j])
    && (forall g, h :: g in s.clients && h in s.clients && s.clients[g] == s.clients[h] ==> g == h)
  }

  /** What the connection `x` is told by it. */
  lemma {:induction false} EverybodyIsTold(s: Server, c: nat, e: Envelope, rest: seq<string>, x: nat)
    requires c < |s.conns| && x < |s.conns| && x != c && OthersOnce(s, c, rest)
    requires forall h :: h in s.clients ==> s.clients[h] < |s.conns|
    ensures ToldAll(s, c, e, rest).conns[x] ==
      if (exists h :: h in rest && h in s.clients && s.clients[h] == x) && |s.conns[x].outbox| < 16
      then s.conns[x].(outbox := s.conns[x].outbox + [e]) else s.conns[x]
    decreases |rest|
  {
    if rest != [] {
      var (h, others) := (rest[0], rest[1..]);
      var t := ToldOne(s, c, e, h);
      assert forall g :: g in others ==> g in rest && g != h;
      assert forall g :: g in rest ==> g == h || g in others;
      assert OthersOnce(t, c, others);
      EverybodyIsTold(t, c, e, others, x);
    }
  }

  /** They have been told when the handler is done. */
  lemma {:induction false} TellsAll(s: Server, c: nat, e: Envelope, rest: seq<string>, draw: Draw) returns (n: nat)
    requires c < |s.conns| && s.conns[c].user.Some? && (e.PresenceLeft? || e.PresenceJoined?)
    requires OthersOnce(s, c, rest) && forall h :: h in s.clients ==> s.clients[h] < |s.conns|
    requires e.PresenceJoined? ==> |s.conns[c].outbox| + |rest| <= 16
    ensures forall m :: m >= n ==>
      StepsOn(WithTask(s, c, Telling(e, rest)), c, draw, m) ==
      WithTask(ToldAll(s, c, e, rest), c, if e.PresenceLeft? then Finished else Idle)
    decreases |rest|
  {
    if rest == [] {
      n := 1;
      forall m: nat | m >= n
        ensures StepsOn(WithTask(s, c, Telling(e, [])), c, draw, m) ==
        WithTask(s, c, if e.PresenceLeft? then Finished else Idle)
      {
        StopsTelling(s, c, e, draw, m);
      }
    } else {
      var (h, others) := (rest[0], rest[1..]);
      var t := ToldOne(s, c, e, h);
      assert rest == [h] + others && h in rest;
      var first := StepsToTell(h in s.clients, e);
      assert forall g :: g in others ==> g in rest && g != h;
      assert OthersOnce(t, c, others);
      var later := TellsAll(t, c, e, others, draw);
      n := first + later;
      forall m: nat | m >= n
        ensures StepsOn(WithTask(s, c, Telling(e, rest)), c, draw, m) ==
          WithTask(ToldAll(s, c, e, rest), c, if e.PresenceLeft? then Finished else Idle)
      {
        TellsNext(s, c, e, h, others, draw, m);
      }
    }
  }

  lemma StopsTelling(s: Server, c: nat, e: Envelope, draw: Draw, m: nat)
    requires c < |s.conns| && s.conns[c].user.Some? && (e.PresenceLeft? || e.PresenceJoined?) && m > 0
    ensures StepsOn(WithTask(s, c, Telling(e, [])), c, draw, m) ==
      WithTask(s, c, if e.PresenceLeft? then Finished else Idle)
  {
    var after := if e.PresenceLeft? then Finished else Idle;
    TaskOnTask(s, c, Telling(e, []), after);
    OneStep(WithTask(s, c, Telling(e, [])), c, draw, m);
    WaitsThere(WithTask(s, c, after), c, draw, m - 1);
  }

  /**
   Whoever registers a free handle elsewhere can sign in under it, is an administrator once
   promoted, and has a profile without points once one is made.
   */
  lemma RegisteredSignsIn(s: Server, c: nat, handle: string)
    requires UsersOk(s.db) && handle !in s.db.handles
    requires c < |s.conns| && s.conns[c].user.None? && s.conns[c].task.Idle?
    ensures var t := Next(s, Elsewhere(Registers(handle)));
      && UserByHandle(t.db, handle).Ok?
      && var user := UserByHandle(t.db, handle).value;
         && user.handle == handle && !user.admin && Enabled(t, SignsIn(c, user)) && t == s.(db := t.db)
         && UserByHandle(Next(t, Elsewhere(Promotes(handle))).db, handle) == Ok(User(user.id, handle, true))
         && Laws.PointsOf(Next(t, Elsewhere(MakesProfile(user.id))).db, user.id) ==
              if user.id in s.db.profiles then Laws.PointsOf(s.db, user.id) else Some(0)
  {
    var t := Next(s, Elsewhere(Registers(handle)));
    Laws.RegistersExactly(s.db, handle);
    var user := UserByHandle(t.db, handle).value;
    Laws.PromotesExactly(t.db, handle, handle);
    Laws.MakesProfileExactly(t.db, user.id, user.id);
  }

  // ---- Who hears of an arrival or a departure ----

  /** The rows read are the users to be told, each once. */
  predicate ReadsMates(db: Db, user: User, draw: Draw) {
    && (set h | h in draw.mates) == Mates(db, user, None)
    && forall i, j :: 0 <= i < j < |draw.mates| ==> draw.mates[i] != draw.mates[j]
  }

  /** The others are told of this user by its handler, who read the rows that are to be read, each once. */
  predicate Announces(s: Server, c: nat, draw: Draw) {
    && UsersOk(s.db) && OrgsOk(s.db) && c < |s.conns| && s.conns[c].user.Some?
    && (forall h :: h in s.clients ==> JoinedAs(s.conns, s.clients[h], h))
    && (forall x :: 0 <= x < |s.conns| && s.conns[x].user.Some? ==> Known(s.db, s.conns[x].user.value))
    && (forall x :: 0 <= x < |s.conns| && x != c && s.conns[x].user.Some? ==>
          (!s.conns[x].left <==> s.conns[x].user.value.handle in s.clients
                                 && s.clients[s.conns[x].user.value.handle] == x))
    && ReadsMates(s.db, s.conns[c].user.value, draw)
  }

  /** Online, in an organization with the user, and with room on the outbox. */
  predicate Hears(s: Server, user: User, x: nat)
    requires x < |s.conns|
  {
    var k := s.conns[x];
    k.user.Some? && !k.left && SharesOrganization(s.db, user.id, k.user.value.id) && |k.outbox| < 16
  }

  function Hearing(k: Conn, e: Envelope, hears: bool): Conn {
    if hears then k.(outbox := k.outbox + [e]) else k
  }

  lemma OthersAreRead(s: Server, c: nat, draw: Draw)
    requires Announces(s, c, draw)
    ensures OthersOnce(s, c, draw.mates)
  {
    var me := s.conns[c].user.value;
    forall h | h in draw.mates && h in s.clients
      ensures s.clients[h] < |s.conns| && s.clients[h] != c
    {
      assert h in (set g | g in draw.mates);
      ToldExactly(s.db, me, None, h);
      assert JoinedAs(s.conns, s.clients[h], h);
    }
    forall g, h | g in s.clients && h in s.clients && s.clients[g] == s.clients[h]
      ensures g == h
    {
      assert JoinedAs(s.conns, s.clients[g], g) && JoinedAs(s.conns, s.clients[h], h);
    }
  }

  lemma ReadExactly(s: Server, c: nat, draw: Draw, x: nat)
    requires Announces(s, c, draw) && x < |s.conns| && x != c
    ensures (exists h :: h in draw.mates && h in s.clients && s.clients[h] == x) <==>
      s.conns[x].user.Some? && !s.conns[x].left
        && SharesOrganization(s.db, s.conns[c].user.value.id, s.conns[x].user.value.id)
        && s.conns[x].user.value.handle != s.conns[c].user.value.handle
  {
    var me := s.conns[c].user.value;
    if h :| h in draw.mates && h in s.clients && s.clients[h] == x {
      assert JoinedAs(s.conns, s.clients[h], h) && h in (set g | g in draw.mates);
      ToldExactly(s.db, me, None, h);
    }
    if s.conns[x].user.Some? && !s.conns[x].left {
      var h := s.conns[x].user.value.handle;
      ToldExactly(s.db, me, None, h);
      assert h in (set g | g in draw.mates) <==> h in draw.mates;
    }
  }

  predicate HandleApart(s: Server, c: nat, x: nat)
    requires c < |s.conns| && x < |s.conns| && s.conns[c].user.Some?
  {
    s.conns[x].user.Some? && !s.conns[x].left ==> s.conns[x].user.value.handle != s.conns[c].user.value.handle
  }

  lemma Announced(s: Server, c: nat, e: Envelope, draw: Draw, x: nat) returns (n: nat)
    requires Announces(s, c, draw) && (e.PresenceJoined? || e.PresenceLeft?) && x < |s.conns| && x != c
    requires e.PresenceJoined? ==> |s.conns[c].outbox| + |draw.mates| <= 16
    requires HandleApart(s, c, x)
    ensures var t := StepsOn(WithTask(s, c, ReadingMates(e, None)), c, draw, n);
      && |t.conns| == |s.conns| && t.clients == s.clients
      && t.conns[c].task == (if e.PresenceLeft? then Finished else Idle)
      && t.conns[x] == Hearing(s.conns[x], e, Hears(s, s.conns[c].user.value, x))
  {
    OthersAreRead(s, c, draw);
    assert forall h :: h in s.clients ==> JoinedAs(s.conns, s.clients[h], h);
    var m := TellsAll(s, c, e, draw.mates, draw);
    n := m + 1;
    ReadsThenTells(s, c, e, None, draw);
    OneStep(WithTask(s, c, ReadingMates(e, None)), c, draw, n);
    EverybodyIsTold(s, c, e, draw.mates, x);
    ReadExactly(s, c, draw, x);
  }

  /** Forgotten, before anybody is told. */
  function Gone(s: Server, c: nat): Server
    requires c < |s.conns| && s.conns[c].user.Some?
  {
    s.(clients := s.clients - {s.conns[c].user.value.handle}, conns := s.conns[c := s.conns[c].(left := true)])
  }

  /** Registered and answered, before anybody is told. */
  function Arrived(s: Server, c: nat, user: User): Server
    requires c < |s.conns|
  {
    var k := s.conns[c];
    s.(clients := s.clients[user.handle := c],
       conns := s.conns[c := k.(user := Some(user), outbox := k.outbox + [Answer])])
  }

  lemma AllKnown(s: Server, c: nat, t: Server)
    requires Good(s) && c < |s.conns| == |t.conns| && t.db == s.db && t.conns[c].user.Some?
    requires Known(s.db, t.conns[c].user.value)
    requires forall x :: 0 <= x < |s.conns| && x != c ==> t.conns[x] == s.conns[x]
    ensures forall x :: 0 <= x < |t.conns| && t.conns[x].user.Some? ==> Known(t.db, t.conns[x].user.value)
  {
    forall x | 0 <= x < |t.conns| && t.conns[x].user.Some?
      ensures Known(t.db, t.conns[x].user.value)
    {
      if x != c { assert ConnOk(s.db, s.conns, s.conns[x]); }
    }
  }

  lemma GoneAnnounces(s: Server, c: nat, draw: Draw, x: nat)
    requires Good(s) && Ready(s, c) && ReadsMates(s.db, s.conns[c].user.value, draw) && x < |s.conns| && x != c
    ensures Announces(Gone(s, c), c, draw) && HandleApart(Gone(s, c), c, x)
  {
    assert ConnOk(s.db, s.conns, s.conns[c]);
    var t := Gone(s, c);
    AllKnown(s, c, t);
    forall h | h in t.clients
      ensures JoinedAs(t.conns, t.clients[h], h)
    {
      assert JoinedAs(s.conns, s.clients[h], h);
    }
  }

  lemma ArrivedAnnounces(s: Server, c: nat, user: User, draw: Draw, x: nat)
    requires Good(s) && Enabled(s, SignsIn(c, user)) && user.handle !in s.clients && ReadsMates(s.db, user, draw)
    requires x < |s.conns| && x != c
    ensures Announces(Arrived(s, c, user), c, draw) && HandleApart(Arrived(s, c, user), c, x)
  {
    var t := Arrived(s, c, user);
    AllKnown(s, c, t);
    forall h | h in t.clients
      ensures JoinedAs(t.conns, t.clients[h], h)
    {
      if h in s.clients { assert JoinedAs(s.conns, s.clients[h], h); }
    }
  }

  lemma HangsUpThenTells(s: Server, c: nat, draw: Draw, n: nat)
    requires Ready(s, c) && n > 0
    requires var handle := s.conns[c].user.value.handle; handle in s.clients && s.clients[handle] == c
    ensures StepsOn(Next(s, HangsUp(c)), c, draw, n) == StepsOn(
      WithTask(Gone(s, c), c, ReadingMates(PresenceLeft(s.conns[c].user.value.handle), None)), c, draw, n - 1)
  {
    LeavesExactly(s, c, draw);
    OneStep(WithTask(s, c, Leaving), c, draw, n);
    assert Step(WithTask(s, c, Leaving), c, draw).conns
      == WithTask(Gone(s, c), c, ReadingMates(PresenceLeft(s.conns[c].user.value.handle), None)).conns;
  }

  lemma SignsInThenTells(s: Server, c: nat, user: User, draw: Draw, n: nat)
    requires Enabled(s, SignsIn(c, user)) && user.handle !in s.clients && |s.conns[c].outbox| < 16 && n > 1
    ensures StepsOn(Next(s, SignsIn(c, user)), c, draw, n) == StepsOn(
      WithTask(Arrived(s, c, user), c, ReadingMates(PresenceJoined(user.handle), None)), c, draw, n - 2)
  {
    SignsInExactly(s, c, user, draw);
    OneStep(WithTask(s, c, Joining(user)), c, draw, n);
    var t := Step(WithTask(s, c, Joining(user)), c, draw);
    OneStep(t, c, draw, n - 1);
    assert Step(t, c, draw).conns
      == WithTask(Arrived(s, c, user), c, ReadingMates(PresenceJoined(user.handle), None)).conns;
  }

  /** A connection that hangs up is forgotten, and its departure is told to exactly those who share an organization. */
  lemma DepartureIsTold(s: Server, c: nat, draw: Draw, x: nat) returns (n: nat)
    requires Good(s) && Ready(s, c) && ReadsMates(s.db, s.conns[c].user.value, draw) && x < |s.conns| && x != c
    ensures var me := s.conns[c].user.value;
      var t := StepsOn(Next(s, HangsUp(c)), c, draw, n);
      && |t.conns| == |s.conns| && t.clients == s.clients - {me.handle} && t.conns[c].task.Finished?
      && t.conns[x] == Hearing(s.conns[x], PresenceLeft(me.handle), Hears(s, me, x))
  {
    assert ConnOk(s.db, s.conns, s.conns[c]);
    GoneAnnounces(s, c, draw, x);
    var m := Announced(Gone(s, c), c, PresenceLeft(s.conns[c].user.value.handle), draw, x);
    n := m + 1;
    HangsUpThenTells(s, c, draw, n);
  }

  /** A newcomer is registered, and its arrival is told to exactly those who share an organization. */
  lemma ArrivalIsTold(s: Server, c: nat, user: User, draw: Draw, x: nat) returns (n: nat)
    requires Good(s) && Enabled(s, SignsIn(c, user)) && user.handle !in s.clients && ReadsMates(s.db, user, draw)
    requires |s.conns[c].outbox| + 1 + |draw.mates| <= 16 && x < |s.conns| && x != c
    ensures var t := StepsOn(Next(s, SignsIn(c, user)), c, draw, n);
      && |t.conns| == |s.conns| && t.clients == s.clients[user.handle := c] && t.conns[c].task.Idle?
      && t.conns[x] == Hearing(s.conns[x], PresenceJoined(user.handle), Hears(s, user, x))
  {
    ArrivedAnnounces(s, c, user, draw, x);
    var m := Announced(Arrived(s, c, user), c, PresenceJoined(user.handle), draw, x);
    n := m + 2;
    SignsInThenTells(s, c, user, draw, n);
  }

  // ---- Every delivery was asked for, once ----

  /** How often the connection asked for the message to be relayed. */
  function TimesAsked(run: seq<Event>, c: nat, target: string, body: string): nat {
    if run == [] then 0
    else (if run[0] == Requests(c, LookingUp(target, body)) then 1 else 0) + TimesAsked(run[1..], c, target, body)
  }

  /** How often it was delivered. */
  function TimesDelivered(ds: seq<Delivery>, c: nat, target: string, body: string): nat {
    if ds == [] then 0
    else
      var d := ds[|ds| - 1];
      TimesDelivered(ds[..|ds| - 1], c, target, body)
      + if d.e.Relay? && d.e.body == body && d.sender == c && d.target == target then 1 else 0
  }

  /** Whether the handler is still about to deliver it. */
  predicate Pending(task: Task, target: string, body: string) {
    match task
    case LookingUp(t, b) => t == target && b == body
    case Checking(t, _, b) => t == target && b == body
    case Sending(e, t, _) => e.Relay? && t == target && e.body == body
    case Putting(e, t, _, _) => e.Relay? && t == target && e.body == body
    case Answering(_, next) => Pending(next, target, body)
    case _ => false
  }

  /** Delivered, or about to be. */
  function Served(s: Server, c: nat, target: string, body: string): nat {
    TimesDelivered(s.deliveries, c, target, body)
    + if c < |s.conns| && Pending(s.conns[c].task, target, body) then 1 else 0
  }

  /** A step that puts nothing has no more to deliver than before. */
  lemma NothingMorePending(s: Server, user: User, task: Task, draw: Draw, target: string, body: string)
    requires Grounded(s.db, s.conns, user, task) && !NoWork(task)
    ensures Pending(NextTask(s, user, task, draw), target, body) ==> Pending(task, target, body)
  {
    assert !Pending(Idle, target, body) && !Pending(DONE, target, body);
    match task
    case MemberChecking(org, next) => assert next.Answering? ==> !Pending(next.next, target, body);
    case JoiningOrg(_) => JoinerPendsNothing(s, user, task, draw, target, body);
    case Telling(e, rest) => TellerPendsNothing(s, user, e, rest, draw, target, body);
    case LookingUp(_, _) =>
    case Checking(_, _, _) =>
    case Sending(_, _, _) =>
    case _ =>
  }

  lemma JoinerPendsNothing(s: Server, user: User, task: Task, draw: Draw, target: string, body: string)
    requires task.JoiningOrg?
    ensures !Pending(NextTask(s, user, task, draw), target, body)
  {
    assert !Pending(Idle, target, body);
    var next := NextTask(s, user, task, draw);
    assert next.Answering? && !Pending(next.next, target, body);
  }

  lemma TellerPendsNothing(
    s: Server, user: User, e: Envelope, rest: seq<string>, draw: Draw, target: string, body: string)
    requires !e.Relay?
    ensures !Pending(NextTask(s, user, Telling(e, rest), draw), target, body)
  {
    var next := NextTask(s, user, Telling(e, rest), draw);
    assert next.Answering? ==> !Pending(next.next, target, body);
  }

  lemma DeliveredMore(ds: seq<Delivery>, d: Delivery, c: nat, target: string, body: string)
    ensures TimesDelivered(ds + [d], c, target, body) == TimesDelivered(ds, c, target, body)
      + if d.e.Relay? && d.e.body == body && d.sender == c && d.target == target then 1 else 0
  {
    assert (ds + [d])[..|ds|] == ds;
  }

  lemma OnceSent(e: Envelope, rest: seq<string>, sent: bool, target: string, body: string)
    ensures !Pending(AfterSend(e, rest, sent), target, body)
  {
    assert !Pending(Idle, target, body);
  }

  lemma PutServes(s: Server, x: nat, c: nat, target: string, body: string)
    requires x < |s.conns| && s.conns[x].task.Putting? && s.conns[x].task.outbox < |s.conns|
    ensures Served(Puts(s, x), c, target, body) <= Served(s, c, target, body)
  {
    var Putting(e, t, outbox, rest) := s.conns[x].task;
    DeliveredMore(s.deliveries, Delivery(e, x, outbox, t, s.db), c, target, body);
    OnceSent(e, rest, true, target, body);
    OnceSent(e, rest, false, target, body);
    if c != x { TasksElsewhere(s, x, c); }
  }

  /** A put changes no other handler's task. */
  lemma TasksElsewhere(s: Server, x: nat, c: nat)
    requires x < |s.conns| && s.conns[x].task.Putting? && s.conns[x].task.outbox < |s.conns| && c != x
    ensures var t := Puts(s, x); |t.conns| == |s.conns| && (c < |s.conns| ==> t.conns[c].task == s.conns[c].task)
  {}

  lemma ComesAndGoes(s: Server, x: nat, draw: Draw, target: string, body: string)
    requires CanStep(s, x, draw) && NoWork(s.conns[x].task) && !s.conns[x].task.Putting?
    ensures var t := Step(s, x, draw);
      && t.deliveries == s.deliveries && t.conns == s.conns[x := t.conns[x]]
      && (Pending(t.conns[x].task, target, body) ==> Pending(s.conns[x].task, target, body))
  {
    assert !Pending(Idle, target, body) && !Pending(DONE, target, body);
    var next := Step(s, x, draw).conns[x].task;
    assert s.conns[x].task.Joining? ==> next == DONE || (next.Answering? && !Pending(next.next, target, body));
  }

  lemma StepServes(s: Server, x: nat, draw: Draw, c: nat, target: string, body: string)
    requires Good(s) && CanStep(s, x, draw)
    ensures Served(Step(s, x, draw), c, target, body) <= Served(s, c, target, body)
  {
    var k := s.conns[x];
    if k.task.Putting? {
      PutServes(s, x, c, target, body);
    } else if NoWork(k.task) {
      ComesAndGoes(s, x, draw, target, body);
    } else {
      assert ConnOk(s.db, s.conns, k);
      NothingMorePending(s, k.user.value, k.task, draw, target, body);
    }
  }

  lemma RequestServes(s: Server, x: nat, task: Task, c: nat, target: string, body: string)
    requires Enabled(s, Requests(x, task))
    ensures Served(WithTask(s, x, task), c, target, body) <=
      Served(s, c, target, body) + if x == c && task == LookingUp(target, body) then 1 else 0
  {
    assert task.Answering? ==> !Pending(task.next, target, body);
  }

  lemma NextServes(s: Server, e: Event, c: nat, target: string, body: string)
    requires Good(s) && Enabled(s, e)
    ensures Served(Next(s, e), c, target, body) <=
      Served(s, c, target, body) + TimesAsked([e], c, target, body)
  {
    match e
    case Steps(x, draw) => StepServes(s, x, draw, c, target, body);
    case Requests(x, task) => RequestServes(s, x, task, c, target, body);
    case _ => assert !Pending(Idle, target, body) && !Pending(DONE, target, body);
  }

  lemma {:induction false} RunServes(s: Server, run: seq<Event>, c: nat, target: string, body: string)
    requires Good(s) && CanRun(s, run)
    ensures Served(Run(s, run), c, target, body) <= Served(s, c, target, body) + TimesAsked(run, c, target, body)
    decreases |run|
  {
    if run != [] {
      NextServes(s, run[0], c, target, body);
      NextGood(s, run[0]);
      RunServes(Next(s, run[0]), run[1..], c, target, body);
    }
  }

  /** In every run, a message is delivered at most as often as its sender asked for it, to the target asked for. */
  lemma DeliveredOncePerRequest(catalog: map<nat, int>, run: seq<Event>, c: nat, target: string, body: string)
    requires CanRun(Start(catalog), run)
    ensures TimesDelivered(Run(Start(catalog), run).deliveries, c, target, body) <= TimesAsked(run, c, target, body)
  {
    StartGood(catalog);
    RunServes(Start(catalog), run, c, target, body);
  }
}
