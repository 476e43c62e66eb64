/**
 The relay server as interleaved steps. Every connection has its own handler; a handler's work
 is cut into the steps it takes one at a time: one database transaction, one look at the
 registry, or one envelope put on an outbox. Between two steps of one handler any others may run.
 */
module RelayServer {
  import opened Wrappers
  import opened Text
  import opened RelayStore
  import opened RelayHub

  /** What a handler is about to do. */
  datatype Task =
    | Idle
    | Answering(e: Envelope, next: Task)             // puts an envelope on its own outbox, waiting for room
    | Joining(user: User)
    | LookingUp(target: string, body: string)
    | Checking(target: string, account: User, body: string)
    | Sending(e: Envelope, target: string, rest: seq<string>)
    | Putting(e: Envelope, target: string, outbox: nat, rest: seq<string>)
    | Awarding
    | ReadingMates(e: Envelope, scope: Option<nat>)
    | Telling(e: Envelope, rest: seq<string>)
    | Founding(name: string)
    | AdminChecking(org: nat)
    | Inviting(org: nat)
    | JoiningOrg(code: string)
    | Redeeming(item: nat)
    | UnlockChecking(item: nat)
    | Equipping(item: nat)
    | MemberChecking(org: nat, next: Task)
    | AddingTodo(org: nat, text: string)
    | CompletingTodo(org: nat, todo: nat)
    | AwardingTodo
    | Leaving
    | Finished

  /**
   A connection: the account it signed in as, once it has joined, whether it has left, and whether
   its writer has stopped.
   */
  datatype Conn = Conn(user: Option<User>, left: bool, task: Task, outbox: seq<Envelope>, stopped: bool)

  /** An envelope put on another connection's outbox, and the database of that moment. */
  datatype Delivery = Delivery(e: Envelope, sender: nat, receiver: nat, target: string, db: Db)

  datatype Server = Server(db: Db, clients: map<string, nat>, conns: seq<Conn>, deliveries: seq<Delivery>)

  /** What a step draws from outside: the clock, a fresh code, the order rows come in. */
  datatype Draw = Draw(now: int, code: string, mates: seq<string>)

  datatype Event =
    | Connects
    | SignsIn(c: nat, user: User)
    | Refused(c: nat)
    | Requests(c: nat, task: Task)
    | Steps(c: nat, draw: Draw)
    | HangsUp(c: nat)
    | Drains(c: nat)
    | WriterFails(c: nat)
    | Elsewhere(op: Op)

  function Start(catalog: map<nat, int>): Server {
    Server(NewDb(catalog), map[], [], [])
  }

  /** How a request starts. */
  predicate Request(task: Task) {
    match task
    case Answering(e, next) => e.Answer? && next.Idle?
    case LookingUp(_, _) | Founding(_) | AdminChecking(_) | JoiningOrg(_) | Redeeming(_) | UnlockChecking(_) => true
    case MemberChecking(org, next) =>
      match next {
        case AddingTodo(org', _) => org' == org
        case CompletingTodo(org', _) => org' == org
        case Answering(e, after) => e.Answer? && after.Idle?
        case _ => false
      }
    case _ => false
  }

  const DONE := Answering(Answer, Idle)

  // ---- One step of a handler ----

  function Mates(db: Db, user: User, scope: Option<nat>): set<string> {
    match scope
    case None => OrgMateHandles(db, user.id)
    case Some(o) => OrgMemberHandles(db, o) - {user.handle}
  }

  function AfterSend(e: Envelope, rest: seq<string>, sent: bool): Task {
    if e.Relay? then if sent then Awarding else DONE else Telling(e, rest)
  }

  predicate CanStep(s: Server, c: nat, draw: Draw) {
    && c < |s.conns|
    && var k := s.conns[c];
       match k.task
       case Idle | Finished => false
       case Answering(_, _) => |k.outbox| < OUTBOX_SIZE
       case Joining(_) => k.user.None?
       case ReadingMates(_, scope) => k.user.Some? && (set h | h in draw.mates) == Mates(s.db, k.user.value, scope)
       case Putting(_, _, outbox, _) => k.user.Some? && outbox < |s.conns|
       case _ => k.user.Some?
  }

  /** The transaction a step makes, if it makes one. */
  function Transaction(db: Db, user: User, task: Task, draw: Draw): Option<Op> {
    match task
    case Awarding => Some(EarnsByMessage(user.id))
    case Founding(name) =>
      if user.admin && TrimSpace(name) != "" then Some(CreatesOrg(TrimSpace(name), user.id)) else None
    case Inviting(org) => Some(Invites(org, user.id, draw.code, draw.now + INVITE_TTL))
    case JoiningOrg(code) => Some(Joins(code, user.id, draw.now))
    case Redeeming(item) => Some(Redeems(user.id, item))
    case Equipping(item) => Some(Equips(user.id, item))
    case AddingTodo(org, text) => if TrimSpace(text) != "" then Some(AddsTodo(org, user.id, TrimSpace(text))) else None
    case CompletingTodo(org, todo) => Some(CompletesTodo(org, todo))
    case AwardingTodo => Some(EarnsByTodo(user.id))
    case _ => None
  }

  /** What the handler does after a step that neither joins, leaves nor puts anything. */
  function NextTask(s: Server, user: User, task: Task, draw: Draw): Task {
    match task
    case LookingUp(target, body) =>
      (match UserByHandle(s.db, target)
       case Ok(account) => Checking(target, account, body)
       case Err(_) => DONE)
    case Checking(target, account, body) =>
      if SharesOrg(s.db, user.id, account.id) then Sending(Relay(user.handle, body), target, []) else DONE
    case Sending(e, target, rest) =>
      if target in s.clients then Putting(e, target, s.clients[target], rest) else AfterSend(e, rest, false)
    case Awarding => Idle
    case ReadingMates(e, _) => Telling(e, draw.mates)
    case Telling(e, rest) =>
      if rest == [] then if e.PresenceLeft? then Finished else Idle
      else if e.PresenceLeft? then Sending(e, rest[0], rest[1..])
      else if rest[0] !in s.clients then Telling(e, rest[1..])
      else Answering(PresenceJoined(rest[0]), Sending(e, rest[0], rest[1..]))
    case AdminChecking(org) => if IsOrgAdmin(s.db, org, user.id) then Inviting(org) else DONE
    case JoiningOrg(code) =>
      (match RedeemOrgInvite(s.db, code, user.id, draw.now).1
       case Ok(org) => Answering(Answer, ReadingMates(PresenceJoined(user.handle), Some(org.id)))
       case Err(_) => DONE)
    case UnlockChecking(item) => if (user.id, item) in s.db.unlocks then Equipping(item) else DONE
    case MemberChecking(org, next) => if IsOrgMember(s.db, org, user.id) then next else DONE
    case CompletingTodo(org, todo) => if CompleteTodo(s.db, org, todo).1.Ok? then AwardingTodo else DONE
    case _ => DONE
  }

  function Answers(s: Server, c: nat): Server
    requires c < |s.conns| && s.conns[c].task.Answering?
  {
    var k := s.conns[c];
    s.(conns := s.conns[c := k.(outbox := k.outbox + [k.task.e], task := k.task.next)])
  }

  function JoinsHub(s: Server, c: nat): Server
    requires c < |s.conns| && s.conns[c].task.Joining?
  {
    var k := s.conns[c];
    var user := k.task.user;
    var (clients, joined) := Joined(s.clients, user.handle, c);
    if joined then
      var greet := ReadingMates(PresenceJoined(user.handle), None);
      s.(clients := clients, conns := s.conns[c := k.(user := Some(user), task := Answering(Answer, greet))])
    else s.(conns := s.conns[c := k.(task := DONE)])
  }

  function LeavesHub(s: Server, c: nat): Server
    requires c < |s.conns| && s.conns[c].user.Some?
  {
    var k := s.conns[c];
    var handle := k.user.value.handle;
    s.(clients := Left(s.clients, handle, c),
       conns := s.conns[c := k.(left := true, task := ReadingMates(PresenceLeft(handle), None))])
  }

  function Puts(s: Server, c: nat): Server
    requires c < |s.conns| && s.conns[c].task.Putting? && s.conns[c].task.outbox < |s.conns|
  {
    var Putting(e, target, outbox, rest) := s.conns[c].task;
    var there := s.conns[outbox];
    if |there.outbox| < OUTBOX_SIZE then
      var conns := s.conns[outbox := there.(outbox := there.outbox + [e])];
      s.(conns := conns[c := conns[c].(task := AfterSend(e, rest, true))],
         deliveries := s.deliveries + [Delivery(e, c, outbox, target, s.db)])
    else WithTask(s, c, AfterSend(e, rest, false))
  }

  function DbAfter(db: Db, op: Option<Op>): Db {
    if op.Some? then Apply(db, op.value) else db
  }

  function Works(s: Server, c: nat, draw: Draw): Server
    requires c < |s.conns| && s.conns[c].user.Some?
  {
    var user := s.conns[c].user.value;
    var task := s.conns[c].task;
    var op := Transaction(s.db, user, task, draw);
    WithTask(s, c, NextTask(s, user, task, draw)).(db := DbAfter(s.db, op))
  }

  function Step(s: Server, c: nat, draw: Draw): Server
    requires CanStep(s, c, draw)
  {
    var task := s.conns[c].task;
    if task.Answering? then Answers(s, c)
    else if task.Joining? then JoinsHub(s, c)
    else if task.Leaving? then LeavesHub(s, c)
    else if task.Putting? then Puts(s, c)
    else Works(s, c, draw)
  }

  predicate Enabled(s: Server, e: Event) {
    match e
    case Connects => true
    case SignsIn(c, user) =>
      c < |s.conns| && s.conns[c].user.None? && s.conns[c].task.Idle? && user.id in s.db.users
        && s.db.users[user.id] == user
    case Refused(c) => c < |s.conns| && s.conns[c].user.None? && s.conns[c].task.Idle?
    case Requests(c, task) => c < |s.conns| && s.conns[c].user.Some? && s.conns[c].task.Idle? && Request(task)
    case Steps(c, draw) => CanStep(s, c, draw)
    case HangsUp(c) => c < |s.conns| && s.conns[c].task.Idle?
    case Drains(c) => c < |s.conns| && s.conns[c].outbox != [] && !s.conns[c].stopped
    case WriterFails(c) => c < |s.conns| && s.conns[c].outbox != [] && !s.conns[c].stopped
    case Elsewhere(op) => op.Registers? || op.MakesProfile? || op.Promotes?
  }

  function WithTask(s: Server, c: nat, task: Task): Server
    requires c < |s.conns|
  {
    s.(conns := s.conns[c := s.conns[c].(task := task)])
  }

  function Next(s: Server, e: Event): Server
    requires Enabled(s, e)
  {
    match e
    case Connects => s.(conns := s.conns + [Conn(None, false, Idle, [], false)])
    case SignsIn(c, user) => WithTask(s, c, Joining(user))
    case Refused(c) => WithTask(s, c, DONE)
    case Requests(c, task) => WithTask(s, c, task)
    case Steps(c, draw) => Step(s, c, draw)
    case HangsUp(c) => WithTask(s, c, if s.conns[c].user.Some? then Leaving else Finished)
    case Drains(c) => s.(conns := s.conns[c := s.conns[c].(outbox := s.conns[c].outbox[1..])])
    case WriterFails(c) => s.(conns := s.conns[c := s.conns[c].(outbox := s.conns[c].outbox[1..], stopped := true)])
    case Elsewhere(op) => s.(db := Apply(s.db, op))
  }

  // ---- What every run keeps ----

  predicate Known(db: Db, user: User) {
    && user.handle in db.handles && db.handles[user.handle] == user.id
    && user.id in db.users && (user.admin ==> db.users[user.id].admin)
  }

  predicate Sharing(db: Db, handle: string, other: string) {
    handle in db.handles && other in db.handles && SharesOrg(db, db.handles[handle], db.handles[other])
  }

  predicate AllSharing(db: Db, handle: string, others: seq<string>) {
    forall h :: h in others ==> Sharing(db, handle, h)
  }

  /** The connection joined the registry under the handle, at some time. */
  predicate JoinedAs(conns: seq<Conn>, c: nat, handle: string) {
    c < |conns| && conns[c].user.Some? && conns[c].user.value.handle == handle
  }

  /** What a signed-in handler has established for the steps it has yet to take. */
  predicate Grounded(db: Db, conns: seq<Conn>, user: User, task: Task)
    decreases task
  {
    match task
    case Answering(e, next) => !e.Relay? && !Departing(next) && !next.Awarding? && Grounded(db, conns, user, next)
    case Joining(_) => false
    case Checking(target, account, _) => Known(db, account) && account.handle == target
    case Sending(e, target, rest) =>
      !e.Answer? && e.handle == user.handle && Sharing(db, user.handle, target) && AllSharing(db, user.handle, rest)
    case Putting(e, target, outbox, rest) =>
      && !e.Answer? && e.handle == user.handle && Sharing(db, user.handle, target) && AllSharing(db, user.handle, rest)
      && JoinedAs(conns, outbox, target)
    case ReadingMates(e, scope) =>
      (e.PresenceJoined? || e.PresenceLeft?) && e.handle == user.handle
        && (scope.Some? ==> IsOrgMember(db, scope.value, user.id))
    case Telling(e, rest) => (e.PresenceJoined? || e.PresenceLeft?) && e.handle == user.handle
      && AllSharing(db, user.handle, rest)
    case Inviting(org) => IsOrgAdmin(db, org, user.id)
    case Equipping(item) => (user.id, item) in db.unlocks
    case AddingTodo(org, _) => IsOrgMember(db, org, user.id)
    case CompletingTodo(org, _) => IsOrgMember(db, org, user.id)
    case MemberChecking(org, next) => Request(task)
    case _ => true
  }

  /** Before joining: nothing but signing in and answers. */
  predicate Unjoined(db: Db, task: Task) {
    match task
    case Idle | Finished => true
    case Joining(user) => Known(db, user)
    case Answering(e, next) => !e.Relay? && next.Idle?
    case _ => false
  }

  /** After leaving: nothing but telling the others so. */
  predicate Departing(task: Task) {
    match task
    case ReadingMates(e, _) => e.PresenceLeft?
    case Telling(e, _) => e.PresenceLeft?
    case Sending(e, _, _) => e.PresenceLeft?
    case Putting(e, _, _, _) => e.PresenceLeft?
    case Finished => true
    case _ => false
  }

  predicate ConnOk(db: Db, conns: seq<Conn>, k: Conn) {
    match k.user
    case None => Unjoined(db, k.task) && !k.left
    case Some(user) => Known(db, user) && Grounded(db, conns, user, k.task) && (k.left <==> Departing(k.task))
  }

  /** A handle is registered to a connection exactly if that joined under it and has not left. */
  predicate Registered(conns: seq<Conn>, clients: map<string, nat>) {
    && (forall h :: h in clients ==> JoinedAs(conns, clients[h], h) && !conns[clients[h]].left)
    && (forall c :: 0 <= c < |conns| && conns[c].user.Some? && !conns[c].left ==>
          conns[c].user.value.handle in clients && clients[conns[c].user.value.handle] == c)
  }

  /** Stamped with the sender's handle, put on an outbox registered for the target, between sharers. */
  predicate Proper(d: Delivery, conns: seq<Conn>) {
    && !d.e.Answer?
    && JoinedAs(conns, d.sender, d.e.handle)
    && JoinedAs(conns, d.receiver, d.target)
    && Sharing(d.db, d.e.handle, d.target)
  }

  /** A message on an outbox was delivered there. */
  predicate Accounted(deliveries: seq<Delivery>, c: nat, outbox: seq<Envelope>) {
    && |outbox| <= OUTBOX_SIZE
    && forall e :: e in outbox && e.Relay? ==> exists d :: d in deliveries && d.receiver == c && d.e == e
  }

  ghost predicate Good(s: Server) {
    && Consistent(s.db)
    && Registered(s.conns, s.clients)
    && (forall c :: 0 <= c < |s.conns| ==> ConnOk(s.db, s.conns, s.conns[c]))
    && (forall d :: d in s.deliveries ==> Proper(d, s.conns))
    && (forall c :: 0 <= c < |s.conns| ==> Accounted(s.deliveries, c, s.conns[c].outbox))
  }

  // ---- What a handler has established stays true ----

  predicate UsersStay(before: seq<Conn>, after: seq<Conn>) {
    |before| <= |after| && forall c :: 0 <= c < |before| && before[c].user.Some? ==> after[c].user == before[c].user
  }

  lemma SharingStays(a: Db, b: Db, handle: string, other: string)
    requires Grows(a, b) && Sharing(a, handle, other)
    ensures Sharing(b, handle, other)
  {
    SharingLasts(a, b, a.handles[handle], a.handles[other]);
  }

  lemma AllSharingStays(a: Db, b: Db, handle: string, others: seq<string>)
    requires Grows(a, b) && AllSharing(a, handle, others)
    ensures AllSharing(b, handle, others)
  {
    forall h | h in others
      ensures Sharing(b, handle, h)
    {
      SharingStays(a, b, handle, h);
    }
  }

  lemma {:induction false} GroundedStays(a: Db, b: Db, conns: seq<Conn>, conns': seq<Conn>, user: User, task: Task)
    requires Grows(a, b) && UsersStay(conns, conns') && Grounded(a, conns, user, task)
    ensures Grounded(b, conns', user, task)
    decreases task
  {
    match task
    case Answering(e, next) => GroundedStays(a, b, conns, conns', user, next);
    case Sending(e, target, rest) =>
      SharingStays(a, b, user.handle, target);
      AllSharingStays(a, b, user.handle, rest);
    case Putting(e, target, outbox, rest) =>
      SharingStays(a, b, user.handle, target);
      AllSharingStays(a, b, user.handle, rest);
    case Telling(e, rest) => AllSharingStays(a, b, user.handle, rest);
    case _ =>
  }

  lemma ConnStays(a: Db, b: Db, conns: seq<Conn>, conns': seq<Conn>, k: Conn, k': Conn)
    requires Grows(a, b) && UsersStay(conns, conns') && ConnOk(a, conns, k)
    requires k'.user == k.user && k'.left == k.left && k'.task == k.task
    ensures ConnOk(b, conns', k')
  {
    if k.user.Some? {
      GroundedStays(a, b, conns, conns', k.user.value, k.task);
    }
  }

  lemma ProperStays(d: Delivery, conns: seq<Conn>, conns': seq<Conn>)
    requires Proper(d, conns) && UsersStay(conns, conns')
    ensures Proper(d, conns')
  {}

  // ---- Each event keeps it ----

  lemma DeliveriesStay(s: Server, conns: seq<Conn>)
    requires Good(s) && UsersStay(s.conns, conns)
    ensures forall d :: d in s.deliveries ==> Proper(d, conns)
  {
    forall d | d in s.deliveries
      ensures Proper(d, conns)
    {
      ProperStays(d, s.conns, conns);
    }
  }

  /** The connections are signed in and have left as before. */
  predicate SameStanding(conns: seq<Conn>, conns': seq<Conn>) {
    |conns'| == |conns| && forall i :: 0 <= i < |conns| ==>
      conns'[i].user == conns[i].user && conns'[i].left == conns[i].left
  }

  lemma RegisteredStays(conns: seq<Conn>, conns': seq<Conn>, clients: map<string, nat>)
    requires Registered(conns, clients) && SameStanding(conns, conns')
    ensures Registered(conns', clients)
  {}

  lemma ConnsChange(s: Server, conns: seq<Conn>)
    requires Good(s) && SameStanding(s.conns, conns)
    requires forall i :: 0 <= i < |conns| ==> ConnOk(s.db, s.conns, conns[i])
    requires forall i :: 0 <= i < |conns| ==> Accounted(s.deliveries, i, conns[i].outbox)
    ensures Good(s.(conns := conns))
  {
    RegisteredStays(s.conns, conns, s.clients);
    forall i | 0 <= i < |conns|
      ensures ConnOk(s.db, conns, conns[i])
    {
      ConnStays(s.db, s.db, s.conns, conns, conns[i], conns[i]);
    }
    DeliveriesStay(s, conns);
  }

  /** A change of one connection that leaves it signed in or out, and its outbox accounted for. */
  lemma OneConnChanges(s: Server, c: nat, k: Conn)
    requires Good(s) && c < |s.conns| && k.user == s.conns[c].user && k.left == s.conns[c].left
    requires ConnOk(s.db, s.conns, k) && Accounted(s.deliveries, c, k.outbox)
    ensures Good(s.(conns := s.conns[c := k]))
  {
    var conns := s.conns[c := k];
    forall i | 0 <= i < |conns|
      ensures ConnOk(s.db, s.conns, conns[i]) && Accounted(s.deliveries, i, conns[i].outbox)
    {
      assert ConnOk(s.db, s.conns, s.conns[i]) && Accounted(s.deliveries, i, s.conns[i].outbox);
    }
    ConnsChange(s, conns);
  }

  /** Changing what one handler is about to do touches nothing else. */
  lemma TaskChanges(s: Server, c: nat, task: Task)
    requires Good(s) && c < |s.conns| && ConnOk(s.db, s.conns, s.conns[c].(task := task))
    ensures Good(WithTask(s, c, task))
  {
    assert Accounted(s.deliveries, c, s.conns[c].outbox);
    OneConnChanges(s, c, s.conns[c].(task := task));
  }

  lemma DatabaseGrows(s: Server, db: Db)
    requires Good(s) && Consistent(db) && Grows(s.db, db)
    ensures Good(s.(db := db))
  {
    var t := s.(db := db);
    forall i | 0 <= i < |t.conns|
      ensures ConnOk(t.db, t.conns, t.conns[i]) && Accounted(t.deliveries, i, t.conns[i].outbox)
    {
      assert Accounted(s.deliveries, i, s.conns[i].outbox);
      ConnStays(s.db, db, s.conns, s.conns, s.conns[i], s.conns[i]);
    }
  }

  lemma MatesShare(db: Db, user: User, scope: Option<nat>, mates: seq<string>)
    requires UsersOk(db) && OrgsOk(db) && Known(db, user) && (scope.Some? ==> IsOrgMember(db, scope.value, user.id))
    requires (set h | h in mates) == Mates(db, user, scope)
    ensures AllSharing(db, user.handle, mates)
  {
    forall h | h in mates
      ensures Sharing(db, user.handle, h)
    {
      assert h in Mates(db, user, scope);
      match scope
      case None => MatesAreSharers(db, user.id, h);
      case Some(o) =>
        var m :| m in db.members && m.0 == o && m.1 in db.users && db.users[m.1].handle == h;
        assert (o, user.id) in db.members && (o, m.1) == m;
    }
  }

  /** What the handler does next rests on what it has just found. */
  lemma NextGrounded(s: Server, user: User, task: Task, draw: Draw)
    requires UsersOk(s.db) && OrgsOk(s.db) && Registered(s.conns, s.clients)
    requires Known(s.db, user) && Grounded(s.db, s.conns, user, task)
    requires task.ReadingMates? ==> (set h | h in draw.mates) == Mates(s.db, user, task.scope)
    requires !task.Answering? && !task.Leaving? && !task.Putting? && !task.JoiningOrg?
    ensures Grounded(s.db, s.conns, user, NextTask(s, user, task, draw))
  {
    if task.ReadingMates? {
      MatesShare(s.db, user, task.scope, draw.mates);
    } else if task.Telling? {
      TellingGrounded(s, user, task, draw);
    } else if task.LookingUp? || task.Checking? || task.Sending? {
      RelayGrounded(s, user, task, draw);
    }
  }

  lemma TellingGrounded(s: Server, user: User, task: Task, draw: Draw)
    requires task.Telling? && Grounded(s.db, s.conns, user, task)
    ensures Grounded(s.db, s.conns, user, NextTask(s, user, task, draw))
  {
    if task.rest != [] {
      assert task.rest[0] in task.rest && forall h :: h in task.rest[1..] ==> h in task.rest;
      assert AllSharing(s.db, user.handle, task.rest[1..]);
    }
  }

  lemma RelayGrounded(s: Server, user: User, task: Task, draw: Draw)
    requires UsersOk(s.db) && Registered(s.conns, s.clients) && Known(s.db, user) && Grounded(s.db, s.conns, user, task)
    requires task.LookingUp? || task.Checking? || task.Sending?
    ensures Grounded(s.db, s.conns, user, NextTask(s, user, task, draw))
  {}

  lemma NextDeparting(s: Server, user: User, task: Task, draw: Draw)
    requires !task.Answering? && !task.Leaving? && !task.Putting? && !task.Idle? && !task.Finished? && !task.Joining?
    requires Grounded(s.db, s.conns, user, task)
    ensures Departing(NextTask(s, user, task, draw)) <==> Departing(task)
  {}

  /** A user who has just joined an organization is a member of it. */
  lemma JoinedMember(db: Db, code: string, user: nat, now: int)
    requires OrgsOk(db) && RedeemOrgInvite(db, code, user, now).1.Ok?
    ensures IsOrgMember(RedeemOrgInvite(db, code, user, now).0, RedeemOrgInvite(db, code, user, now).1.value.id, user)
  {}

  lemma TransactionKeeps(db: Db, conns: seq<Conn>, user: User, task: Task, draw: Draw)
    requires Consistent(db) && Known(db, user) && Grounded(db, conns, user, task)
    ensures var db' := DbAfter(db, Transaction(db, user, task, draw));
      Consistent(db') && Grows(db, db')
  {
    var op := Transaction(db, user, task, draw);
    TransactionAllowed(db, conns, user, task, draw);
    if op.Some? {
      ApplyConsistent(db, op.value);
      ApplyGrows(db, op.value);
    }
  }

  lemma JoiningNext(s: Server, user: User, code: string, draw: Draw)
    requires OrgsOk(s.db)
    ensures Grounded(RedeemOrgInvite(s.db, code, user.id, draw.now).0, s.conns, user,
      NextTask(s, user, JoiningOrg(code), draw))
  {
    if RedeemOrgInvite(s.db, code, user.id, draw.now).1.Ok? {
      JoinedMember(s.db, code, user.id, draw.now);
    }
  }

  lemma WorksNext(s: Server, user: User, task: Task, draw: Draw)
    requires UsersOk(s.db) && OrgsOk(s.db) && Registered(s.conns, s.clients)
    requires Known(s.db, user) && Grounded(s.db, s.conns, user, task)
    requires task.ReadingMates? ==> (set h | h in draw.mates) == Mates(s.db, user, task.scope)
    requires !task.Answering? && !task.Leaving? && !task.Putting?
    requires Grows(s.db, DbAfter(s.db, Transaction(s.db, user, task, draw)))
    ensures var db := DbAfter(s.db, Transaction(s.db, user, task, draw));
      Grounded(db, s.conns, user, NextTask(s, user, task, draw))
  {
    if task.JoiningOrg? {
      JoiningNext(s, user, task.code, draw);
    } else {
      NextGrounded(s, user, task, draw);
      GroundedStays(s.db, DbAfter(s.db, Transaction(s.db, user, task, draw)), s.conns, s.conns, user,
        NextTask(s, user, task, draw));
    }
  }

  lemma WorksGood(s: Server, c: nat, draw: Draw)
    requires Good(s) && CanStep(s, c, draw) && s.conns[c].user.Some?
    requires var task := s.conns[c].task; !task.Answering? && !task.Joining? && !task.Leaving? && !task.Putting?
    ensures Good(Works(s, c, draw))
  {
    var user := s.conns[c].user.value;
    var task := s.conns[c].task;
    assert ConnOk(s.db, s.conns, s.conns[c]);
    NextDeparting(s, user, task, draw);
    TransactionKeeps(s.db, s.conns, user, task, draw);
    WorksNext(s, user, task, draw);
    var db := DbAfter(s.db, Transaction(s.db, user, task, draw));
    DatabaseGrows(s, db);
    var next := NextTask(s, user, task, draw);
    assert Known(db, user);
    TaskChanges(s.(db := db), c, next);
    assert Works(s, c, draw) == WithTask(s.(db := db), c, next);
  }

  /** Only messages are accounted for, and an answer is none. */
  lemma AnswersGood(s: Server, c: nat)
    requires Good(s) && c < |s.conns| && s.conns[c].task.Answering? && |s.conns[c].outbox| < OUTBOX_SIZE
    ensures Good(Answers(s, c))
  {
    var k := s.conns[c];
    assert ConnOk(s.db, s.conns, k);
    TaskChanges(s, c, k.task.next);
    var t := WithTask(s, c, k.task.next);
    var u := Answers(s, c);
    assert u.conns == t.conns[c := t.conns[c].(outbox := k.outbox + [k.task.e])];
    assert Accounted(s.deliveries, c, k.outbox);
    OutboxChanges(t, c, k.outbox + [k.task.e]);
  }

  lemma OutboxChanges(s: Server, c: nat, outbox: seq<Envelope>)
    requires Good(s) && c < |s.conns|
    requires Accounted(s.deliveries, c, outbox)
    ensures Good(s.(conns := s.conns[c := s.conns[c].(outbox := outbox)]))
  {
    assert ConnOk(s.db, s.conns, s.conns[c]);
    OneConnChanges(s, c, s.conns[c].(outbox := outbox));
  }

  /** Writing takes the first envelope off; what cannot be written is lost, and nothing is written after it. */
  lemma WritingGood(s: Server, c: nat, stopped: bool)
    requires Good(s) && Enabled(s, Drains(c))
    ensures Good(s.(conns := s.conns[c := s.conns[c].(outbox := s.conns[c].outbox[1..], stopped := stopped)]))
  {
    var k := s.conns[c];
    assert ConnOk(s.db, s.conns, k) && Accounted(s.deliveries, c, k.outbox);
    assert Accounted(s.deliveries, c, k.outbox[1..]);
    OneConnChanges(s, c, k.(outbox := k.outbox[1..], stopped := stopped));
  }

  lemma JoinsRegistered(s: Server, c: nat)
    requires Good(s) && c < |s.conns| && s.conns[c].task.Joining? && s.conns[c].user.None?
    requires s.conns[c].task.user.handle !in s.clients
    ensures Registered(JoinsHub(s, c).conns, JoinsHub(s, c).clients)
    ensures UsersStay(s.conns, JoinsHub(s, c).conns)
  {
    assert ConnOk(s.db, s.conns, s.conns[c]);
  }

  lemma ConnsAfterJoining(s: Server, c: nat)
    requires Good(s) && c < |s.conns| && s.conns[c].task.Joining? && s.conns[c].user.None?
    requires s.conns[c].task.user.handle !in s.clients
    ensures var t := JoinsHub(s, c); forall i :: 0 <= i < |t.conns| ==> ConnOk(t.db, t.conns, t.conns[i])
  {
    assert ConnOk(s.db, s.conns, s.conns[c]);
    var t := JoinsHub(s, c);
    forall i | 0 <= i < |t.conns|
      ensures ConnOk(t.db, t.conns, t.conns[i])
    {
      if i != c {
        ConnStays(s.db, s.db, s.conns, t.conns, s.conns[i], t.conns[i]);
      }
    }
  }

  lemma JoinsHubGood(s: Server, c: nat)
    requires Good(s) && c < |s.conns| && s.conns[c].task.Joining? && s.conns[c].user.None?
    ensures Good(JoinsHub(s, c))
  {
    assert ConnOk(s.db, s.conns, s.conns[c]);
    if s.conns[c].task.user.handle in s.clients {
      TaskChanges(s, c, DONE);
    } else {
      JoinsRegistered(s, c);
      ConnsAfterJoining(s, c);
      DeliveriesStay(s, JoinsHub(s, c).conns);
    }
  }

  lemma LeavesRegistered(s: Server, c: nat)
    requires Good(s) && c < |s.conns| && s.conns[c].task.Leaving? && s.conns[c].user.Some?
    ensures Registered(LeavesHub(s, c).conns, LeavesHub(s, c).clients)
  {
    assert ConnOk(s.db, s.conns, s.conns[c]);
  }

  lemma LeavesHubGood(s: Server, c: nat)
    requires Good(s) && c < |s.conns| && s.conns[c].task.Leaving? && s.conns[c].user.Some?
    ensures Good(LeavesHub(s, c))
  {
    var t := LeavesHub(s, c);
    LeavesRegistered(s, c);
    assert ConnOk(s.db, s.conns, s.conns[c]);
    assert UsersStay(s.conns, t.conns);
    forall i | 0 <= i < |t.conns|
      ensures ConnOk(t.db, t.conns, t.conns[i])
    {
      if i != c {
        ConnStays(s.db, s.db, s.conns, t.conns, s.conns[i], t.conns[i]);
      }
    }
    DeliveriesStay(s, t.conns);
  }

  /** The delivery a put makes is in order. */
  lemma PutIsProper(s: Server, c: nat)
    requires Good(s) && c < |s.conns| && s.conns[c].task.Putting? && s.conns[c].user.Some?
    ensures var k := s.conns[c].task;
      k.outbox < |s.conns| && Proper(Delivery(k.e, c, k.outbox, k.target, s.db), s.conns)
  {
    assert ConnOk(s.db, s.conns, s.conns[c]);
  }

  lemma PutsGood(s: Server, c: nat)
    requires Good(s) && c < |s.conns| && s.conns[c].task.Putting? && s.conns[c].user.Some?
    ensures s.conns[c].task.outbox < |s.conns| && Good(Puts(s, c))
  {
    PutIsProper(s, c);
    var Putting(e, target, outbox, rest) := s.conns[c].task;
    assert ConnOk(s.db, s.conns, s.conns[c]);
    if |s.conns[outbox].outbox| < OUTBOX_SIZE {
      DeliveredGood(s, Delivery(e, c, outbox, target, s.db));
      PutDelivers(s, c);
    } else {
      PutNext(s, c, false);
      TaskChanges(s, c, AfterSend(e, rest, false));
    }
  }

  lemma PutDelivers(s: Server, c: nat)
    requires c < |s.conns| && s.conns[c].task.Putting? && s.conns[c].user.Some? && s.conns[c].task.outbox < |s.conns|
    requires var k := s.conns[c].task;
      |s.conns[k.outbox].outbox| < OUTBOX_SIZE && Good(Delivered(s, Delivery(k.e, c, k.outbox, k.target, s.db)))
    ensures Good(Puts(s, c))
  {
    var Putting(e, target, outbox, rest) := s.conns[c].task;
    var u := Delivered(s, Delivery(e, c, outbox, target, s.db));
    assert ConnOk(u.db, u.conns, u.conns[c]);
    PutNext(u, c, true);
    TaskChanges(u, c, AfterSend(e, rest, true));
    assert Puts(s, c) == WithTask(u, c, AfterSend(e, rest, true));
  }

  function Delivered(s: Server, d: Delivery): Server
    requires d.receiver < |s.conns|
  {
    var there := s.conns[d.receiver];
    s.(deliveries := s.deliveries + [d], conns := s.conns[d.receiver := there.(outbox := there.outbox + [d.e])])
  }

  lemma DeliveredGood(s: Server, d: Delivery)
    requires Good(s) && Proper(d, s.conns) && |s.conns[d.receiver].outbox| < OUTBOX_SIZE
    ensures Good(Delivered(s, d))
  {
    DeliveryRecorded(s, d);
    var t := s.(deliveries := s.deliveries + [d]);
    assert Accounted(t.deliveries, d.receiver, t.conns[d.receiver].outbox);
    assert d in t.deliveries;
    OutboxChanges(t, d.receiver, t.conns[d.receiver].outbox + [d.e]);
  }

  lemma PutNext(s: Server, c: nat, sent: bool)
    requires c < |s.conns| && s.conns[c].task.Putting? && s.conns[c].user.Some? && ConnOk(s.db, s.conns, s.conns[c])
    ensures var k := s.conns[c]; ConnOk(s.db, s.conns, k.(task := AfterSend(k.task.e, k.task.rest, sent)))
  {}

  lemma DeliveryRecorded(s: Server, d: Delivery)
    requires Good(s) && Proper(d, s.conns)
    ensures Good(s.(deliveries := s.deliveries + [d]))
  {
    var t := s.(deliveries := s.deliveries + [d]);
    forall i | 0 <= i < |s.conns|
      ensures Accounted(t.deliveries, i, t.conns[i].outbox)
    {
      assert Accounted(s.deliveries, i, s.conns[i].outbox);
      assert forall x :: x in s.deliveries ==> x in t.deliveries;
    }
  }

  lemma ConnectsGood(s: Server)
    requires Good(s)
    ensures Good(Next(s, Connects))
  {
    var t := Next(s, Connects);
    assert UsersStay(s.conns, t.conns);
    forall i | 0 <= i < |t.conns|
      ensures ConnOk(t.db, t.conns, t.conns[i])
    {
      if i < |s.conns| {
        ConnStays(s.db, s.db, s.conns, t.conns, s.conns[i], t.conns[i]);
      }
    }
    DeliveriesStay(s, t.conns);
  }

  lemma StepGood(s: Server, c: nat, draw: Draw)
    requires Good(s) && CanStep(s, c, draw)
    ensures Good(Step(s, c, draw))
  {
    var task := s.conns[c].task;
    assert ConnOk(s.db, s.conns, s.conns[c]);
    if task.Answering? {
      AnswersGood(s, c);
    } else if task.Joining? {
      JoinsHubGood(s, c);
    } else if task.Leaving? {
      LeavesHubGood(s, c);
    } else if task.Putting? {
      PutsGood(s, c);
    } else {
      WorksGood(s, c, draw);
    }
  }

  /** What a handler may be set to do while it waits. */
  lemma SetTaskGood(s: Server, e: Event)
    requires Good(s) && Enabled(s, e) && (e.SignsIn? || e.Refused? || e.Requests? || e.HangsUp?)
    ensures Good(Next(s, e))
  {
    assert ConnOk(s.db, s.conns, s.conns[e.c]);
    match e
    case SignsIn(c, user) => TaskChanges(s, c, Joining(user));
    case Refused(c) => TaskChanges(s, c, DONE);
    case Requests(c, task) => TaskChanges(s, c, task);
    case HangsUp(c) => TaskChanges(s, c, if s.conns[c].user.Some? then Leaving else Finished);
  }

  lemma ElsewhereGood(s: Server, op: Op)
    requires Good(s) && Enabled(s, Elsewhere(op))
    ensures Good(Next(s, Elsewhere(op)))
  {
    ApplyConsistent(s.db, op);
    ApplyGrows(s.db, op);
    DatabaseGrows(s, Apply(s.db, op));
  }

  lemma NextGood(s: Server, e: Event)
    requires Good(s) && Enabled(s, e)
    ensures Good(Next(s, e))
  {
    match e
    case Connects => ConnectsGood(s);
    case SignsIn(_, _) | Refused(_) | Requests(_, _) | HangsUp(_) => SetTaskGood(s, e);
    case Steps(c, draw) => StepGood(s, c, draw);
    case Drains(c) => WritingGood(s, c, false);
    case WriterFails(c) => WritingGood(s, c, true);
    case Elsewhere(op) => ElsewhereGood(s, op);
  }

  // ---- Runs ----

  predicate CanRun(s: Server, run: seq<Event>)
    decreases |run|
  {
    run == [] || (Enabled(s, run[0]) && CanRun(Next(s, run[0]), run[1..]))
  }

  function Run(s: Server, run: seq<Event>): Server
    requires CanRun(s, run)
    decreases |run|
  {
    if run == [] then s else Run(Next(s, run[0]), run[1..])
  }

  lemma {:induction false} RunGood(s: Server, run: seq<Event>)
    requires Good(s) && CanRun(s, run)
    ensures Good(Run(s, run))
    decreases |run|
  {
    if run != [] {
      NextGood(s, run[0]);
      RunGood(Next(s, run[0]), run[1..]);
    }
  }

  lemma StartGood(catalog: map<nat, int>)
    ensures Good(Start(catalog))
  {
    NewDbConsistent(catalog);
  }

  /**
   In every interleaving, a handle is registered to an outbox exactly if that outbox's
   connection has joined under the handle and has not yet left. So a handle has at most one
   live connection.
   */
  lemma RegistryIsExact(catalog: map<nat, int>, run: seq<Event>, handle: string, c: nat)
    requires CanRun(Start(catalog), run)
    ensures var s := Run(Start(catalog), run);
      handle in s.clients && s.clients[handle] == c <==> JoinedAs(s.conns, c, handle) && !s.conns[c].left
  {
    StartGood(catalog);
    RunGood(Start(catalog), run);
  }

  /** An outbox is registered under one handle in its lifetime. */
  lemma {:induction false} OneHandlePerOutbox(s: Server, run: seq<Event>, c: nat, handle: string)
    requires Good(s) && CanRun(s, run) && JoinedAs(s.conns, c, handle)
    ensures JoinedAs(Run(s, run).conns, c, handle)
    decreases |run|
  {
    if run != [] {
      NextGood(s, run[0]);
      UserIsKept(s, run[0], c);
      OneHandlePerOutbox(Next(s, run[0]), run[1..], c, handle);
    }
  }

  lemma UserIsKept(s: Server, e: Event, c: nat)
    requires Good(s) && Enabled(s, e) && c < |s.conns| && s.conns[c].user.Some?
    ensures c < |Next(s, e).conns| && Next(s, e).conns[c].user == s.conns[c].user
  {
    if e.Steps? {
      assert ConnOk(s.db, s.conns, s.conns[e.c]);
      StepKeepsUsers(s, e.c, e.draw);
    }
  }

  lemma StepKeepsUsers(s: Server, c: nat, draw: Draw)
    requires CanStep(s, c, draw)
    ensures UsersStay(s.conns, Step(s, c, draw).conns)
  {}

  /** A connection's leaving takes its own registration away and nobody else's. */
  lemma LeavingTakesOnlyItsOwn(catalog: map<nat, int>, run: seq<Event>, c: nat, draw: Draw, handle: string)
    requires CanRun(Start(catalog), run)
    requires CanStep(Run(Start(catalog), run), c, draw) && Run(Start(catalog), run).conns[c].task.Leaving?
    ensures var s := Run(Start(catalog), run);
      var t := Step(s, c, draw);
      && (handle in t.clients <==> handle in s.clients && s.clients[handle] != c)
      && (handle in t.clients ==> t.clients[handle] == s.clients[handle])
  {
    StartGood(catalog);
    RunGood(Start(catalog), run);
    var s := Run(Start(catalog), run);
    assert ConnOk(s.db, s.conns, s.conns[c]);
  }

  /**
   In every interleaving, every envelope one connection has put on another's outbox carries the
   handle the sender signed in with, went to an outbox registered for its target, and was put
   there while the two shared an organization; and no message is on an outbox that was not put
   there so.
   */
  lemma RelayIsGated(catalog: map<nat, int>, run: seq<Event>)
    requires CanRun(Start(catalog), run)
    ensures var s := Run(Start(catalog), run);
      && (forall d :: d in s.deliveries ==> Proper(d, s.conns))
      && (forall c, e :: 0 <= c < |s.conns| && e in s.conns[c].outbox && e.Relay? ==>
            exists d :: d in s.deliveries && d.receiver == c && d.e == e)
  {
    StartGood(catalog);
    RunGood(Start(catalog), run);
    var s := Run(Start(catalog), run);
    forall c, e | 0 <= c < |s.conns| && e in s.conns[c].outbox && e.Relay?
      ensures exists d :: d in s.deliveries && d.receiver == c && d.e == e
    {
      assert Accounted(s.deliveries, c, s.conns[c].outbox);
    }
  }

  // ---- The server's transactions ----

  /** The transaction an event makes, if it makes one. */
  function OpOf(s: Server, e: Event): Option<Op>
    requires Enabled(s, e)
  {
    match e
    case Steps(c, draw) =>
      if s.conns[c].user.Some? then Transaction(s.db, s.conns[c].user.value, s.conns[c].task, draw) else None
    case Elsewhere(op) => Some(op)
    case _ => None
  }

  lemma NextTransacts(s: Server, e: Event)
    requires Good(s) && Enabled(s, e)
    ensures Next(s, e).db == DbAfter(s.db, OpOf(s, e))
    ensures OpOf(s, e).Some? ==> Allowed(s.db, OpOf(s, e).value)
  {
    if e.Steps? {
      StepTransacts(s, e.c, e.draw);
      StepAllowed(s, e.c, e.draw);
    }
  }

  predicate NoWork(task: Task) {
    task.Answering? || task.Joining? || task.Leaving? || task.Putting?
  }

  lemma StepTransacts(s: Server, c: nat, draw: Draw)
    requires Good(s) && CanStep(s, c, draw)
    ensures Step(s, c, draw).db == DbAfter(s.db, OpOf(s, Steps(c, draw)))
  {
    var task := s.conns[c].task;
    if NoWork(task) {
      NoWorkNoChange(s, c, draw);
      if s.conns[c].user.Some? { NoTransaction(s.db, s.conns[c].user.value, task, draw); }
    } else {
      assert Step(s, c, draw) == Works(s, c, draw);
    }
  }

  lemma StepAllowed(s: Server, c: nat, draw: Draw)
    requires Good(s) && CanStep(s, c, draw)
    ensures var op := OpOf(s, Steps(c, draw)); op.Some? ==> Allowed(s.db, op.value)
  {
    if s.conns[c].user.Some? {
      assert ConnOk(s.db, s.conns, s.conns[c]);
      TransactionAllowed(s.db, s.conns, s.conns[c].user.value, s.conns[c].task, draw);
    }
  }

  lemma NoWorkNoChange(s: Server, c: nat, draw: Draw)
    requires CanStep(s, c, draw) && NoWork(s.conns[c].task)
    ensures Step(s, c, draw).db == s.db
  {}

  lemma TransactionAllowed(db: Db, conns: seq<Conn>, user: User, task: Task, draw: Draw)
    requires Known(db, user) && Grounded(db, conns, user, task)
    ensures var op := Transaction(db, user, task, draw); op.Some? ==> Allowed(db, op.value)
  {}

  lemma NoTransaction(db: Db, user: User, task: Task, draw: Draw)
    requires NoWork(task)
    ensures Transaction(db, user, task, draw) == None
  {}

  /**
   Whatever the interleaving, the database has been through a history of allowed transactions,
   so the ledgers of members and points hold of it, and nothing recorded is ever taken back.
   */
  lemma {:induction false} ServerMakesHistory(s: Server, run: seq<Event>) returns (ops: seq<Op>)
    requires Good(s) && CanRun(s, run)
    ensures AllAllowed(s.db, ops) && Run(s, run).db == ApplyAll(s.db, ops)
    ensures Consistent(Run(s, run).db) && Grows(s.db, Run(s, run).db)
    decreases |run|
  {
    if run == [] {
      ops := [];
    } else {
      NextGood(s, run[0]);
      NextTransacts(s, run[0]);
      var rest := ServerMakesHistory(Next(s, run[0]), run[1..]);
      var op := OpOf(s, run[0]);
      ops := if op.Some? then [op.value] + rest else rest;
      assert op.Some? ==> ops[1..] == rest;
    }
    HistoryConsistent(s.db, ops);
  }
}
