/**
 The relay server's database as a value, with the transactions that read and change it. Each
 function below is one transaction. `journal` is a history of admissions, payments and
 purchases: the transactions write it and never read it.
 */
module RelayStore {
  import opened Wrappers

  datatype Role = Admin | Member
  datatype User = User(id: nat, handle: string, admin: bool)
  datatype Org = Org(id: nat, name: string, owner: nat)
  datatype Invite = Invite(org: nat, createdBy: nat, expiresAt: int, maxUses: int, used: int)
  datatype Profile = Profile(points: int, active: Option<nat>)
  datatype Todo = Todo(id: nat, org: nat, createdBy: nat, text: string, done: bool)

  datatype Entry =
    | Admitted(code: string, org: nat, user: nat)
    | Paid(user: nat, amount: int)
    | Bought(user: nat, item: nat, cost: int)

  datatype Db = Db(
    users: map<nat, User>, nextUser: nat,
    handles: map<string, nat>,                 // the unique index on users.handle
    orgs: map<nat, Org>, nextOrg: nat,
    members: map<(nat, nat), Role>,            // by organization and user
    invites: map<string, Invite>,
    catalog: map<nat, int>,                    // what each unlockable costs
    profiles: map<nat, Profile>,
    unlocks: set<(nat, nat)>,                  // by user and unlockable
    todos: map<nat, Todo>, nextTodo: nat,
    journal: seq<Entry>)

  /** `Rejected` is a statement the database refuses: a broken key or reference. */
  datatype Error =
    | NotFound | HandleTaken | InviteInvalid | AlreadyOrgMember | AlreadyUnlocked | InsufficientPoints
    | NotSystemAdmin | NotOrgAdmin | NotOrgMember | NameRequired | TextRequired | Rejected

  function NewDb(catalog: map<nat, int>): Db {
    Db(map[], 1, map[], map[], 1, map[], map[], catalog, map[], {}, map[], 1, [])
  }

  // ---- Accounts ----

  function CreateUser(db: Db, handle: string): (Db, Result<User, Error>) {
    if handle in db.handles then (db, Err(HandleTaken))
    else
      var u := User(db.nextUser, handle, false);
      (db.(users := db.users[u.id := u], handles := db.handles[handle := u.id], nextUser := db.nextUser + 1), Ok(u))
  }

  function UserByHandle(db: Db, handle: string): Result<User, Error> {
    if handle in db.handles && db.handles[handle] in db.users then Ok(db.users[db.handles[handle]]) else Err(NotFound)
  }

  function PromoteToAdmin(db: Db, handle: string): Db {
    match UserByHandle(db, handle)
    case Ok(u) => db.(users := db.users[u.id := u.(admin := true)])
    case Err(_) => db
  }

  function CreateUserProfile(db: Db, user: nat): (Db, Result<(), Error>) {
    if user in db.profiles || user !in db.users then (db, Err(Rejected))
    else (db.(profiles := db.profiles[user := Profile(0, None)]), Ok(()))
  }

  // ---- Organizations ----

  function CreateOrg(db: Db, name: string, owner: nat): (Db, Result<Org, Error>) {
    if owner !in db.users then (db, Err(Rejected))
    else
      var o := Org(db.nextOrg, name, owner);
      (db.(orgs := db.orgs[o.id := o], nextOrg := db.nextOrg + 1, members := db.members[(o.id, owner) := Admin]), Ok(o))
  }

  predicate IsOrgMember(db: Db, org: nat, user: nat) {
    (org, user) in db.members
  }

  predicate IsOrgAdmin(db: Db, org: nat, user: nat) {
    (org, user) in db.members && db.members[(org, user)] == Admin
  }

  predicate SharesOrg(db: Db, u: nat, v: nat) {
    exists m :: m in db.members && m.1 == u && (m.0, v) in db.members
  }

  /** The handles of everybody in some organization of the user's, the user aside. */
  function OrgMateHandles(db: Db, user: nat): set<string> {
    set m, n | m in db.members && n in db.members && n.0 == m.0 && m.1 == user && n.1 != m.1 && n.1 in db.users
      :: db.users[n.1].handle
  }

  function OrgMemberHandles(db: Db, org: nat): set<string> {
    set m | m in db.members && m.0 == org && m.1 in db.users :: db.users[m.1].handle
  }

  function CreateOrgInvite(db: Db, org: nat, creator: nat, code: string, expiresAt: int): (Db, Result<(), Error>) {
    if code in db.invites || org !in db.orgs || creator !in db.users then (db, Err(Rejected))
    else (db.(invites := db.invites[code := Invite(org, creator, expiresAt, 1, 0)]), Ok(()))
  }

  /** Seven days, in seconds. */
  const INVITE_TTL: int := 7 * 24 * 60 * 60

  predicate Redeemable(db: Db, code: string, now: int) {
    code in db.invites && db.invites[code].expiresAt > now && db.invites[code].used < db.invites[code].maxUses
  }

  function RedeemOrgInvite(db: Db, code: string, user: nat, now: int): (Db, Result<Org, Error>) {
    if !Redeemable(db, code, now) then (db, Err(InviteInvalid))
    else
      var i := db.invites[code];
      if (i.org, user) in db.members then (db, Err(AlreadyOrgMember))
      else if i.org !in db.orgs || user !in db.users then (db, Err(Rejected))
      else
        (db.(members := db.members[(i.org, user) := Member],
             invites := db.invites[code := i.(used := i.used + 1)],
             journal := db.journal + [Admitted(code, i.org, user)]),
         Ok(db.orgs[i.org]))
  }

  // ---- Points ----

  const MESSAGE_AWARD := 1
  const TODO_COMPLETE_AWARD := 5

  /** Without a profile there is nothing to update, and that is no error. */
  function AddPoints(db: Db, user: nat, delta: int): Db {
    if user !in db.profiles then db
    else
      var p := db.profiles[user];
      db.(profiles := db.profiles[user := p.(points := p.points + delta)], journal := db.journal + [Paid(user, delta)])
  }

  function RedeemUnlockable(db: Db, user: nat, item: nat): (Db, Result<(), Error>) {
    if item !in db.catalog then (db, Err(NotFound))
    else if (user, item) in db.unlocks then (db, Err(AlreadyUnlocked))
    else if user !in db.profiles then (db, Err(Rejected))
    else
      var cost := db.catalog[item];
      var p := db.profiles[user];
      if p.points < cost then (db, Err(InsufficientPoints))
      else
        (db.(profiles := db.profiles[user := p.(points := p.points - cost)],
             unlocks := db.unlocks + {(user, item)},
             journal := db.journal + [Bought(user, item, cost)]),
         Ok(()))
  }

  function SetActiveUnlockable(db: Db, user: nat, item: Option<nat>): (Db, Result<(), Error>) {
    if user !in db.profiles then (db, Ok(()))
    else if item.Some? && item.value !in db.catalog then (db, Err(Rejected))
    else (db.(profiles := db.profiles[user := db.profiles[user].(active := item)]), Ok(()))
  }

  // ---- Shared todos ----

  function CreateTodo(db: Db, org: nat, creator: nat, text: string): (Db, Result<Todo, Error>) {
    if org !in db.orgs || creator !in db.users then (db, Err(Rejected))
    else
      var t := Todo(db.nextTodo, org, creator, text, false);
      (db.(todos := db.todos[t.id := t], nextTodo := db.nextTodo + 1), Ok(t))
  }

  /** Completing a todo again succeeds again. */
  function CompleteTodo(db: Db, org: nat, todo: nat): (Db, Result<Todo, Error>) {
    if todo !in db.todos || db.todos[todo].org != org then (db, Err(NotFound))
    else
      var t := db.todos[todo].(done := true);
      (db.(todos := db.todos[todo := t]), Ok(t))
  }

  /** A member completes a shared todo, and is paid if it was there to complete. */
  function CompleteByMember(db: Db, org: nat, todo: nat, user: nat): (Db, Result<Todo, Error>) {
    if !IsOrgMember(db, org, user) then (db, Err(NotOrgMember))
    else
      var (completed, r) := CompleteTodo(db, org, todo);
      (if r.Ok? then AddPoints(completed, user, TODO_COMPLETE_AWARD) else completed, r)
  }

  // ---- What every database keeps ----

  predicate UsersOk(db: Db) {
    && (forall u :: u in db.users ==>
          u < db.nextUser && db.users[u].id == u
          && db.users[u].handle in db.handles && db.handles[db.users[u].handle] == u)
    && (forall h :: h in db.handles ==> db.handles[h] in db.users && db.users[db.handles[h]].handle == h)
  }

  predicate OrgsOk(db: Db) {
    && (forall o :: o in db.orgs ==> o < db.nextOrg && db.orgs[o].id == o && (o, db.orgs[o].owner) in db.members)
    && (forall m :: m in db.members ==> m.0 in db.orgs && m.1 in db.users)
    && (forall m :: m in db.members ==> (db.members[m] == Admin <==> m.1 == db.orgs[m.0].owner))
  }

  /** Who was admitted on a code. */
  function AdmittedOn(journal: seq<Entry>, code: string): seq<nat> {
    if journal == [] then []
    else
      var e := journal[|journal| - 1];
      AdmittedOn(journal[..|journal| - 1], code) + if e.Admitted? && e.code == code then [e.user] else []
  }

  ghost predicate InvitesOk(db: Db) {
    && (forall c :: c in db.invites ==>
          db.invites[c].org in db.orgs && db.invites[c].maxUses == 1 && 0 <= db.invites[c].used <= 1)
    && (forall c :: |AdmittedOn(db.journal, c)| == if c in db.invites then db.invites[c].used else 0)
  }

  function MembersOf(db: Db, org: nat): set<nat> {
    set m | m in db.members && m.0 == org :: m.1
  }

  function SpentInvites(db: Db, org: nat): set<string> {
    set c | c in db.invites && db.invites[c].org == org && db.invites[c].used == 1
  }

  /** One member is the owner; each of the others came in on a code. */
  predicate CountedAt(db: Db, org: nat) {
    |MembersOf(db, org)| == 1 + |SpentInvites(db, org)|
  }

  ghost predicate Counted(db: Db) {
    forall o :: o in db.orgs ==> CountedAt(db, o)
  }

  /** How often a user was paid an amount. */
  function TimesPaid(journal: seq<Entry>, user: nat, amount: int): nat {
    if journal == [] then 0
    else
      TimesPaid(journal[..|journal| - 1], user, amount)
      + if journal[|journal| - 1] == Paid(user, amount) then 1 else 0
  }

  /** What a user has spent. */
  function Spent(journal: seq<Entry>, user: nat): int {
    if journal == [] then 0
    else
      var e := journal[|journal| - 1];
      Spent(journal[..|journal| - 1], user) + if e.Bought? && e.user == user then e.cost else 0
  }

  /** How often a user bought an unlockable for what it costs. */
  function TimesBought(journal: seq<Entry>, user: nat, item: nat, cost: int): nat {
    if journal == [] then 0
    else
      TimesBought(journal[..|journal| - 1], user, item, cost)
      + if journal[|journal| - 1] == Bought(user, item, cost) then 1 else 0
  }

  /** What the journal says a user should have. */
  function Balance(journal: seq<Entry>, user: nat): int {
    MESSAGE_AWARD * TimesPaid(journal, user, MESSAGE_AWARD)
    + TODO_COMPLETE_AWARD * TimesPaid(journal, user, TODO_COMPLETE_AWARD)
    - Spent(journal, user)
  }

  ghost predicate LedgerOk(db: Db) {
    && (forall u :: u in db.profiles ==>
          db.profiles[u].points == Balance(db.journal, u) >= 0
          && (db.profiles[u].active.Some? ==> (u, db.profiles[u].active.value) in db.unlocks))
    && (forall u :: u !in db.profiles ==> Balance(db.journal, u) == 0)
    && (forall k :: k in db.unlocks ==> k.0 in db.profiles && k.1 in db.catalog)
    && (forall u: nat, i :: i in db.catalog ==>
          TimesBought(db.journal, u, i, db.catalog[i]) == if (u, i) in db.unlocks then 1 else 0)
    && (forall e :: e in db.journal && e.Bought? ==> e.item in db.catalog && e.cost == db.catalog[e.item])
    && (forall e :: e in db.journal && e.Paid? ==> e.amount == MESSAGE_AWARD || e.amount == TODO_COMPLETE_AWARD)
  }

  function UnlockedBy(db: Db, user: nat): set<nat> {
    set k | k in db.unlocks && k.0 == user :: k.1
  }

  function Price(catalog: map<nat, int>, item: nat): int {
    if item in catalog then catalog[item] else 0
  }

  /** What these unlockables cost together. */
  ghost function Worth(catalog: map<nat, int>, items: set<nat>): int {
    if items == {} then 0
    else
      var i :| i in items;
      Price(catalog, i) + Worth(catalog, items - {i})
  }

  /** What everybody has spent is what they have unlocked is worth. */
  ghost predicate SpentOk(db: Db) {
    forall u :: Spent(db.journal, u) == Worth(db.catalog, UnlockedBy(db, u))
  }

  /** Organizations are owned by system administrators, codes come from owners, and todos from members. */
  predicate AuthorityOk(db: Db) {
    && (forall o :: o in db.orgs ==> db.orgs[o].owner in db.users && db.users[db.orgs[o].owner].admin)
    && (forall c :: c in db.invites ==>
         db.invites[c].org in db.orgs && db.invites[c].createdBy == db.orgs[db.invites[c].org].owner)
    && (forall t :: t in db.todos ==> t < db.nextTodo && IsOrgMember(db, db.todos[t].org, db.todos[t].createdBy))
  }

  ghost predicate Consistent(db: Db) {
    UsersOk(db) && OrgsOk(db) && InvitesOk(db) && AuthorityOk(db) && Counted(db) && LedgerOk(db) && SpentOk(db)
  }

  // ---- What can happen to it ----

  /** One transaction, as the layers above the store issue them. */
  datatype Op =
    | Registers(handle: string)
    | MakesProfile(user: nat)
    | Promotes(handle: string)
    | CreatesOrg(name: string, owner: nat)
    | Invites(org: nat, creator: nat, code: string, expiresAt: int)
    | Joins(code: string, user: nat, now: int)
    | EarnsByMessage(user: nat)
    | EarnsByTodo(user: nat)
    | Redeems(user: nat, item: nat)
    | Equips(user: nat, item: nat)
    | AddsTodo(org: nat, creator: nat, text: string)
    | CompletesTodo(org: nat, todo: nat)

  function Apply(db: Db, op: Op): Db {
    match op
    case Registers(handle) => CreateUser(db, handle).0
    case MakesProfile(user) => CreateUserProfile(db, user).0
    case Promotes(handle) => PromoteToAdmin(db, handle)
    case CreatesOrg(name, owner) => CreateOrg(db, name, owner).0
    case Invites(org, creator, code, expiresAt) => CreateOrgInvite(db, org, creator, code, expiresAt).0
    case Joins(code, user, now) => RedeemOrgInvite(db, code, user, now).0
    case EarnsByMessage(user) => AddPoints(db, user, MESSAGE_AWARD)
    case EarnsByTodo(user) => AddPoints(db, user, TODO_COMPLETE_AWARD)
    case Redeems(user, item) => RedeemUnlockable(db, user, item).0
    case Equips(user, item) => SetActiveUnlockable(db, user, Some(item)).0
    case AddsTodo(org, creator, text) => CreateTodo(db, org, creator, text).0
    case CompletesTodo(org, todo) => CompleteTodo(db, org, todo).0
  }

  /** What the layers above check before they issue a transaction. */
  predicate Allowed(db: Db, op: Op) {
    match op
    case CreatesOrg(_, owner) => owner in db.users ==> db.users[owner].admin
    case Invites(org, creator, _, _) => IsOrgAdmin(db, org, creator)
    case AddsTodo(org, creator, _) => IsOrgMember(db, org, creator)
    case Equips(user, item) => (user, item) in db.unlocks
    case _ => true
  }

  // ---- Each transaction keeps it ----

  lemma JournalGrows(journal: seq<Entry>, e: Entry, user: nat)
    ensures Balance(journal + [e], user) ==
      Balance(journal, user)
      + (if e == Paid(user, MESSAGE_AWARD) then MESSAGE_AWARD else 0)
      + (if e == Paid(user, TODO_COMPLETE_AWARD) then TODO_COMPLETE_AWARD else 0)
      - (if e.Bought? && e.user == user then e.cost else 0)
  {
    assert (journal + [e])[..|journal|] == journal;
  }

  lemma PurchasesGrow(journal: seq<Entry>, e: Entry, user: nat, item: nat, cost: int)
    ensures TimesBought(journal + [e], user, item, cost) ==
      TimesBought(journal, user, item, cost) + if e == Bought(user, item, cost) then 1 else 0
  {
    assert (journal + [e])[..|journal|] == journal;
  }

  lemma AdmissionsGrow(journal: seq<Entry>, e: Entry, code: string)
    ensures AdmittedOn(journal + [e], code) ==
      AdmittedOn(journal, code) + if e.Admitted? && e.code == code then [e.user] else []
  {
    assert (journal + [e])[..|journal|] == journal;
  }

  lemma NewDbConsistent(catalog: map<nat, int>)
    ensures Consistent(NewDb(catalog))
  {
    assert forall u :: UnlockedBy(NewDb(catalog), u) == {};
  }

  // Which tables each transaction may change.

  lemma CatalogUntouched(db: Db, op: Op)
    ensures Apply(db, op).catalog == db.catalog
  {}

  lemma AccountsUntouched(db: Db, op: Op)
    ensures var db' := Apply(db, op);
      && (!op.Registers? ==> db'.handles == db.handles)
      && (!op.Registers? && !op.Promotes? ==> db'.users == db.users)
  {}

  lemma OrgsAlone(db: Db, op: Op)
    requires !op.CreatesOrg?
    ensures Apply(db, op).orgs == db.orgs && Apply(db, op).nextOrg == db.nextOrg
  {}

  lemma MembersAlone(db: Db, op: Op)
    requires !op.CreatesOrg? && !op.Joins?
    ensures Apply(db, op).members == db.members
  {}

  lemma InvitesAlone(db: Db, op: Op)
    requires !op.Invites? && !op.Joins?
    ensures Apply(db, op).invites == db.invites
  {}

  lemma OrgsUntouched(db: Db, op: Op)
    ensures var db' := Apply(db, op);
      && (!op.CreatesOrg? ==> db'.orgs == db.orgs && db'.nextOrg == db.nextOrg)
      && (!op.CreatesOrg? && !op.Joins? ==> db'.members == db.members)
      && (!op.Invites? && !op.Joins? ==> db'.invites == db.invites)
  {
    if !op.CreatesOrg? { OrgsAlone(db, op); }
    if !op.CreatesOrg? && !op.Joins? { MembersAlone(db, op); }
    if !op.Invites? && !op.Joins? { InvitesAlone(db, op); }
  }

  lemma PointsUntouched(db: Db, op: Op)
    ensures var db' := Apply(db, op);
      && (!op.Redeems? ==> db'.unlocks == db.unlocks)
      && (!op.MakesProfile? && !op.EarnsByMessage? && !op.EarnsByTodo? && !op.Redeems? && !op.Equips? ==>
            db'.profiles == db.profiles)
      && (!op.EarnsByMessage? && !op.EarnsByTodo? && !op.Redeems? && !op.Joins? ==> db'.journal == db.journal)
  {}

  lemma PointsGrow(db: Db, op: Op)
    ensures var db' := Apply(db, op);
      db.profiles.Keys <= db'.profiles.Keys && db.unlocks <= db'.unlocks && db.journal <= db'.journal
  {
    PointsUntouched(db, op);
    if op.Joins? {
      assert db.journal <= RedeemOrgInvite(db, op.code, op.user, op.now).0.journal;
    } else if op.Redeems? {
      assert db.journal <= RedeemUnlockable(db, op.user, op.item).0.journal;
      assert db.profiles.Keys <= RedeemUnlockable(db, op.user, op.item).0.profiles.Keys;
    } else if op.EarnsByMessage? || op.EarnsByTodo? {
      AddingGrows(db, op.user, MESSAGE_AWARD);
      AddingGrows(db, op.user, TODO_COMPLETE_AWARD);
    }
  }

  lemma AddingGrows(db: Db, user: nat, delta: int)
    ensures var db' := AddPoints(db, user, delta); db.profiles.Keys <= db'.profiles.Keys && db.journal <= db'.journal
  {}

  lemma UsersKept(db: Db, op: Op)
    requires UsersOk(db)
    ensures UsersOk(Apply(db, op))
  {}

  lemma OrgsKept(db: Db, op: Op)
    requires UsersOk(db) && OrgsOk(db) && InvitesOk(db)
    ensures OrgsOk(Apply(db, op))
  {
    if op.CreatesOrg? {
      FoundingKeepsOrgs(db, op.name, op.owner);
    } else if op.Joins? {
      JoiningKeepsOrgs(db, op.code, op.user, op.now);
    } else {
      OrgsUntouched(db, op);
      AccountsStay(db, op);
      OrgsWithMoreUsers(db, Apply(db, op));
    }
  }

  lemma AccountsStay(db: Db, op: Op)
    ensures db.users.Keys <= Apply(db, op).users.Keys
  {}

  lemma OrgsWithMoreUsers(db: Db, db': Db)
    requires OrgsOk(db) && db'.orgs == db.orgs && db'.members == db.members && db'.nextOrg == db.nextOrg
    requires db.users.Keys <= db'.users.Keys
    ensures OrgsOk(db')
  {}

  lemma AuthorityKept(db: Db, op: Op)
    requires UsersOk(db) && OrgsOk(db) && AuthorityOk(db) && Allowed(db, op)
    ensures AuthorityOk(Apply(db, op))
  {
    if op.Registers? || op.Promotes? {
      AccountsKeepAuthority(db, op);
    } else if op.CreatesOrg? {
      FoundingKeepsAuthority(db, op.name, op.owner);
    } else if op.Invites? {
      InvitingKeepsAuthority(db, op.org, op.creator, op.code, op.expiresAt);
    } else if op.Joins? {
      JoiningKeepsAuthority(db, op.code, op.user, op.now);
    } else if op.AddsTodo? {
      AddingKeepsAuthority(db, op.org, op.creator, op.text);
    } else if op.CompletesTodo? {
      CompletingKeepsAuthority(db, op.org, op.todo);
    } else {
      SameAuthority(db, op);
    }
  }

  lemma InvitingKeepsAuthority(db: Db, org: nat, creator: nat, code: string, expiresAt: int)
    requires OrgsOk(db) && AuthorityOk(db) && IsOrgAdmin(db, org, creator)
    ensures AuthorityOk(CreateOrgInvite(db, org, creator, code, expiresAt).0)
  {}

  lemma AddingKeepsAuthority(db: Db, org: nat, creator: nat, text: string)
    requires AuthorityOk(db) && IsOrgMember(db, org, creator)
    ensures AuthorityOk(CreateTodo(db, org, creator, text).0)
  {}

  lemma CompletingKeepsAuthority(db: Db, org: nat, todo: nat)
    requires AuthorityOk(db)
    ensures AuthorityOk(CompleteTodo(db, org, todo).0)
  {}

  lemma JoiningKeepsAuthority(db: Db, code: string, user: nat, now: int)
    requires AuthorityOk(db)
    ensures AuthorityOk(RedeemOrgInvite(db, code, user, now).0)
  {}

  lemma SameAuthority(db: Db, op: Op)
    requires AuthorityOk(db) && !op.Registers? && !op.Promotes? && !op.CreatesOrg? && !op.Invites? && !op.Joins?
    requires !op.AddsTodo? && !op.CompletesTodo?
    ensures AuthorityOk(Apply(db, op))
  {
    AccountsUntouched(db, op);
    OrgsUntouched(db, op);
    TodosUntouched(db, op);
  }

  lemma TodosUntouched(db: Db, op: Op)
    requires !op.AddsTodo? && !op.CompletesTodo?
    ensures Apply(db, op).todos == db.todos && Apply(db, op).nextTodo == db.nextTodo
  {}

  lemma AccountsKeepAuthority(db: Db, op: Op)
    requires UsersOk(db) && AuthorityOk(db) && (op.Registers? || op.Promotes?)
    ensures AuthorityOk(Apply(db, op))
  {
    OrgsUntouched(db, op);
    TodosUntouched(db, op);
    AdminsStay(db, op);
    MoreAdminsKeepAuthority(db, Apply(db, op));
  }

  lemma AdminsStay(db: Db, op: Op)
    requires UsersOk(db) && (op.Registers? || op.Promotes?)
    ensures forall u :: u in db.users ==>
      u in Apply(db, op).users && (db.users[u].admin ==> Apply(db, op).users[u].admin)
  {}

  lemma MoreAdminsKeepAuthority(db: Db, db': Db)
    requires AuthorityOk(db) && db'.orgs == db.orgs && db'.invites == db.invites && db'.members == db.members
    requires db'.todos == db.todos && db'.nextTodo == db.nextTodo
    requires forall u :: u in db.users ==> u in db'.users && (db.users[u].admin ==> db'.users[u].admin)
    ensures AuthorityOk(db')
  {}

  lemma FoundingKeepsAuthority(db: Db, name: string, owner: nat)
    requires OrgsOk(db) && AuthorityOk(db) && (owner in db.users ==> db.users[owner].admin)
    ensures AuthorityOk(CreateOrg(db, name, owner).0)
  {
    assert db.nextOrg !in db.orgs;
  }

  lemma FoundingKeepsOrgs(db: Db, name: string, owner: nat)
    requires OrgsOk(db)
    ensures OrgsOk(CreateOrg(db, name, owner).0)
  {}

  lemma JoiningKeepsOrgs(db: Db, code: string, user: nat, now: int)
    requires OrgsOk(db)
    ensures OrgsOk(RedeemOrgInvite(db, code, user, now).0)
  {}

  lemma JoiningKeepsInvites(db: Db, code: string, user: nat, now: int)
    requires InvitesOk(db)
    ensures InvitesOk(RedeemOrgInvite(db, code, user, now).0)
  {
    var db' := RedeemOrgInvite(db, code, user, now).0;
    if RedeemOrgInvite(db, code, user, now).1.Ok? {
      forall c
        ensures |AdmittedOn(db'.journal, c)| == if c in db'.invites then db'.invites[c].used else 0
      {
        AdmissionsGrow(db.journal, Admitted(code, db.invites[code].org, user), c);
      }
    }
  }

  lemma PayingAdmitsNobody(db: Db, user: nat, delta: int, code: string)
    ensures AdmittedOn(AddPoints(db, user, delta).journal, code) == AdmittedOn(db.journal, code)
  {
    AdmissionsGrow(db.journal, Paid(user, delta), code);
  }

  lemma BuyingAdmitsNobody(db: Db, user: nat, item: nat, code: string)
    ensures AdmittedOn(RedeemUnlockable(db, user, item).0.journal, code) == AdmittedOn(db.journal, code)
  {
    if item in db.catalog {
      AdmissionsGrow(db.journal, Bought(user, item, db.catalog[item]), code);
    }
  }

  lemma NobodyElseAdmitted(db: Db, op: Op, code: string)
    requires !op.Joins?
    ensures AdmittedOn(Apply(db, op).journal, code) == AdmittedOn(db.journal, code)
  {
    if op.EarnsByMessage? {
      PayingAdmitsNobody(db, op.user, MESSAGE_AWARD, code);
    } else if op.EarnsByTodo? {
      PayingAdmitsNobody(db, op.user, TODO_COMPLETE_AWARD, code);
    } else if op.Redeems? {
      BuyingAdmitsNobody(db, op.user, op.item, code);
    } else {
      PointsUntouched(db, op);
    }
  }

  lemma InvitesKept(db: Db, op: Op)
    requires InvitesOk(db)
    ensures InvitesOk(Apply(db, op))
  {
    if op.Joins? {
      JoiningKeepsInvites(db, op.code, op.user, op.now);
    } else {
      var db' := Apply(db, op);
      OrgsUntouched(db, op);
      assert op.CreatesOrg? ==> db.orgs.Keys <= db'.orgs.Keys;
      forall c
        ensures AdmittedOn(db'.journal, c) == AdmittedOn(db.journal, c)
      {
        NobodyElseAdmitted(db, op, c);
      }
    }
  }

  lemma SameCounts(db: Db, db': Db)
    requires Counted(db) && db'.orgs == db.orgs && db'.members == db.members && db'.invites == db.invites
    ensures Counted(db')
  {
    forall o | o in db'.orgs
      ensures CountedAt(db', o)
    {
      assert CountedAt(db, o);
      assert MembersOf(db', o) == MembersOf(db, o) && SpentInvites(db', o) == SpentInvites(db, o);
    }
  }

  lemma CountsAfterInviting(db: Db, org: nat, creator: nat, code: string, expiresAt: int)
    requires Counted(db)
    ensures Counted(CreateOrgInvite(db, org, creator, code, expiresAt).0)
  {
    var db' := CreateOrgInvite(db, org, creator, code, expiresAt).0;
    forall o | o in db'.orgs
      ensures CountedAt(db', o)
    {
      assert CountedAt(db, o);
      assert MembersOf(db', o) == MembersOf(db, o) && SpentInvites(db', o) == SpentInvites(db, o);
    }
  }

  lemma CountsKept(db: Db, op: Op)
    requires OrgsOk(db) && InvitesOk(db) && UsersOk(db) && Counted(db)
    ensures Counted(Apply(db, op))
  {
    if op.CreatesOrg? {
      CountsAfterFounding(db, op);
    } else if op.Joins? {
      CountsAfterJoining(db, op);
    } else if op.Invites? {
      CountsAfterInviting(db, op.org, op.creator, op.code, op.expiresAt);
    } else {
      OrgsUntouched(db, op);
      SameCounts(db, Apply(db, op));
    }
  }

  lemma CountsAfterFounding(db: Db, op: Op)
    requires OrgsOk(db) && InvitesOk(db) && Counted(db) && op.CreatesOrg?
    ensures Counted(Apply(db, op))
  {
    var db' := Apply(db, op);
    if op.owner in db.users {
      FoundedWithOwner(db, op);
      assert CountedAt(db', db.nextOrg);
      forall o | o in db.orgs
        ensures CountedAt(db', o)
      {
        assert CountedAt(db, o) && o != db.nextOrg;
        assert MembersOf(db', o) == MembersOf(db, o) && SpentInvites(db', o) == SpentInvites(db, o);
      }
    }
  }

  lemma CountsAfterJoining(db: Db, op: Op)
    requires InvitesOk(db) && Counted(db) && op.Joins?
    ensures Counted(Apply(db, op))
  {
    var db' := Apply(db, op);
    if RedeemOrgInvite(db, op.code, op.user, op.now).1.Ok? {
      forall o | o in db'.orgs
        ensures CountedAt(db', o)
      {
        CountedAfterJoining(db, op, o);
      }
    }
  }

  lemma CountedAfterJoining(db: Db, op: Op, o: nat)
    requires InvitesOk(db) && op.Joins? && RedeemOrgInvite(db, op.code, op.user, op.now).1.Ok?
    requires o in db.orgs ==> CountedAt(db, o)
    ensures o in Apply(db, op).orgs ==> CountedAt(Apply(db, op), o)
  {
    if o in db.orgs {
      if o == db.invites[op.code].org {
        CountAfterJoining(db, op.code, op.user, op.now);
      } else {
        ElsewhereNothingChanges(db, op, o);
      }
    }
  }

  lemma CountAfterJoining(db: Db, code: string, user: nat, now: int)
    requires InvitesOk(db) && RedeemOrgInvite(db, code, user, now).1.Ok? && CountedAt(db, db.invites[code].org)
    ensures CountedAt(RedeemOrgInvite(db, code, user, now).0, db.invites[code].org)
  {
    AdmissionCounts(db, code, user, now);
    OneMore(MembersOf(db, db.invites[code].org), user);
    OneMore(SpentInvites(db, db.invites[code].org), code);
  }

  lemma OneMore<T>(s: set<T>, x: T)
    requires x !in s
    ensures |s + {x}| == |s| + 1
  {}

  lemma ElsewhereNothingChanges(db: Db, op: Op, o: nat)
    requires op.Joins? && (op.code in db.invites ==> o != db.invites[op.code].org) && CountedAt(db, o)
    ensures CountedAt(Apply(db, op), o)
  {
    var db' := Apply(db, op);
    assert MembersOf(db', o) == MembersOf(db, o) && SpentInvites(db', o) == SpentInvites(db, o);
  }

  lemma FoundedWithOwner(db: Db, op: Op)
    requires OrgsOk(db) && InvitesOk(db) && op.CreatesOrg? && op.owner in db.users
    ensures var db' := Apply(db, op);
      MembersOf(db', db.nextOrg) == {op.owner} && SpentInvites(db', db.nextOrg) == {}
  {
    var db' := Apply(db, op);
    assert (db.nextOrg, op.owner) in db'.members;
  }

  /** A join adds one member and spends one code. */
  lemma AdmissionCounts(db: Db, code: string, user: nat, now: int)
    requires InvitesOk(db) && RedeemOrgInvite(db, code, user, now).1.Ok?
    ensures var o := db.invites[code].org;
      var db' := RedeemOrgInvite(db, code, user, now).0;
      && user !in MembersOf(db, o) && MembersOf(db', o) == MembersOf(db, o) + {user}
      && code !in SpentInvites(db, o) && SpentInvites(db', o) == SpentInvites(db, o) + {code}
  {
    var o := db.invites[code].org;
    var db' := RedeemOrgInvite(db, code, user, now).0;
    assert (o, user) in db'.members;
    forall u
      ensures u in MembersOf(db', o) <==> u in MembersOf(db, o) + {user}
    {
      if u in MembersOf(db', o) {
        assert (o, u) in db'.members;
      }
      if u in MembersOf(db, o) {
        assert (o, u) in db.members && (o, u) in db'.members;
      }
    }
  }

  lemma SameLedger(db: Db, db': Db)
    requires LedgerOk(db) && db'.journal == db.journal && db'.unlocks == db.unlocks && db'.catalog == db.catalog
    requires db'.profiles == db.profiles
    ensures LedgerOk(db')
  {}

  lemma LedgerKept(db: Db, op: Op)
    requires LedgerOk(db) && Allowed(db, op)
    ensures LedgerOk(Apply(db, op))
  {
    if op.EarnsByMessage? {
      PaymentKept(db, op.user, MESSAGE_AWARD);
    } else if op.EarnsByTodo? {
      PaymentKept(db, op.user, TODO_COMPLETE_AWARD);
    } else if op.Redeems? {
      PurchaseKept(db, op.user, op.item);
    } else if op.Joins? {
      AdmissionKept(db, op.code, op.user, op.now);
    } else if op.MakesProfile? {
      ProfileKept(db, op.user);
    } else if op.Equips? {
      EquipmentKept(db, op.user, op.item);
    } else {
      CatalogUntouched(db, op);
      PointsUntouched(db, op);
      SameLedger(db, Apply(db, op));
    }
  }

  lemma AdmissionKept(db: Db, code: string, user: nat, now: int)
    requires LedgerOk(db)
    ensures LedgerOk(RedeemOrgInvite(db, code, user, now).0)
  {
    var db' := RedeemOrgInvite(db, code, user, now).0;
    if db' != db {
      var e := Admitted(code, db.invites[code].org, user);
      assert db'.journal == db.journal + [e];
      forall u
        ensures Balance(db'.journal, u) == Balance(db.journal, u)
      {
        JournalGrows(db.journal, e, u);
      }
      forall u: nat, i | i in db.catalog
        ensures TimesBought(db'.journal, u, i, db.catalog[i]) == TimesBought(db.journal, u, i, db.catalog[i])
      {
        PurchasesGrow(db.journal, e, u, i, db.catalog[i]);
      }
    }
  }

  lemma ProfileKept(db: Db, user: nat)
    requires LedgerOk(db)
    ensures LedgerOk(CreateUserProfile(db, user).0)
  {}

  lemma EquipmentKept(db: Db, user: nat, item: nat)
    requires LedgerOk(db) && (user, item) in db.unlocks
    ensures LedgerOk(SetActiveUnlockable(db, user, Some(item)).0)
  {}

  lemma PaymentKept(db: Db, user: nat, amount: int)
    requires LedgerOk(db) && amount in {MESSAGE_AWARD, TODO_COMPLETE_AWARD}
    ensures LedgerOk(AddPoints(db, user, amount))
  {
    var db' := AddPoints(db, user, amount);
    var e := Paid(user, amount);
    if db' != db {
      assert db'.journal == db.journal + [e];
      forall u
        ensures Balance(db'.journal, u) == Balance(db.journal, u) + if u == user then amount else 0
      {
        JournalGrows(db.journal, e, u);
      }
      forall u: nat, i | i in db.catalog
        ensures TimesBought(db'.journal, u, i, db.catalog[i]) == TimesBought(db.journal, u, i, db.catalog[i])
      {
        PurchasesGrow(db.journal, e, u, i, db.catalog[i]);
      }
    }
  }

  lemma PurchaseKept(db: Db, user: nat, item: nat)
    requires LedgerOk(db)
    ensures LedgerOk(RedeemUnlockable(db, user, item).0)
  {
    var db' := RedeemUnlockable(db, user, item).0;
    if db' != db {
      var e := Bought(user, item, db.catalog[item]);
      assert db'.journal == db.journal + [e];
      forall u
        ensures Balance(db'.journal, u) == Balance(db.journal, u) - if u == user then db.catalog[item] else 0
      {
        JournalGrows(db.journal, e, u);
      }
      forall u: nat, i | i in db.catalog
        ensures TimesBought(db'.journal, u, i, db.catalog[i]) ==
          TimesBought(db.journal, u, i, db.catalog[i]) + if u == user && i == item then 1 else 0
      {
        PurchasesGrow(db.journal, e, u, i, db.catalog[i]);
      }
    }
  }

  lemma {:induction false} WorthOfOneMore(catalog: map<nat, int>, items: set<nat>, item: nat)
    requires item !in items
    ensures Worth(catalog, items + {item}) == Worth(catalog, items) + Price(catalog, item)
    decreases |items|
  {
    var more := items + {item};
    var i :| i in more && Worth(catalog, more) == Price(catalog, i) + Worth(catalog, more - {i});
    if i == item {
      assert more - {item} == items;
    } else {
      assert more - {i} == (items - {i}) + {item};
      WorthOfOneMore(catalog, items - {i}, item);
      WorthOfOneMore(catalog, items - {i}, i);
      assert (items - {i}) + {i} == items;
    }
  }

  lemma SpendingGrows(journal: seq<Entry>, e: Entry, user: nat)
    ensures Spent(journal + [e], user) == Spent(journal, user) + if e.Bought? && e.user == user then e.cost else 0
  {
    assert (journal + [e])[..|journal|] == journal;
  }

  lemma SpentAfterPurchase(db: Db, user: nat, item: nat)
    requires SpentOk(db)
    ensures SpentOk(RedeemUnlockable(db, user, item).0)
  {
    var db' := RedeemUnlockable(db, user, item).0;
    if db' != db {
      forall u ensures Spent(db'.journal, u) == Worth(db'.catalog, UnlockedBy(db', u)) {
        SpendingGrows(db.journal, Bought(user, item, db.catalog[item]), u);
        if u == user {
          WorthOfOneMore(db.catalog, UnlockedBy(db, u), item);
          UnlocksAdded(db, user, item);
        } else {
          assert UnlockedBy(db', u) == UnlockedBy(db, u);
        }
      }
    }
  }

  lemma UnlocksAdded(db: Db, user: nat, item: nat)
    ensures UnlockedBy(db.(unlocks := db.unlocks + {(user, item)}), user) == UnlockedBy(db, user) + {item}
  {
    var db' := db.(unlocks := db.unlocks + {(user, item)});
    assert (user, item) in db'.unlocks;
    forall i | i in UnlockedBy(db, user) ensures i in UnlockedBy(db', user) {
      assert (user, i) in db.unlocks && (user, i) in db'.unlocks;
    }
  }

  lemma SameSpending(db: Db, db': Db, user: nat)
    requires db'.unlocks == db.unlocks
    ensures UnlockedBy(db', user) == UnlockedBy(db, user)
  {}

  /** Only a purchase spends anything. */
  lemma NothingSpent(db: Db, op: Op, user: nat)
    requires !op.Redeems?
    ensures Spent(Apply(db, op).journal, user) == Spent(db.journal, user)
  {
    PointsUntouched(db, op);
    if op.EarnsByMessage? {
      SpendingGrows(db.journal, Paid(op.user, MESSAGE_AWARD), user);
    } else if op.EarnsByTodo? {
      SpendingGrows(db.journal, Paid(op.user, TODO_COMPLETE_AWARD), user);
    } else if op.Joins? && op.code in db.invites {
      SpendingGrows(db.journal, Admitted(op.code, db.invites[op.code].org, op.user), user);
    }
  }

  lemma SpentKept(db: Db, op: Op)
    requires SpentOk(db)
    ensures SpentOk(Apply(db, op))
  {
    if op.Redeems? {
      SpentAfterPurchase(db, op.user, op.item);
    } else {
      CatalogUntouched(db, op);
      PointsUntouched(db, op);
      forall u ensures Spent(Apply(db, op).journal, u) == Worth(Apply(db, op).catalog, UnlockedBy(Apply(db, op), u)) {
        NothingSpent(db, op, u);
        SameSpending(db, Apply(db, op), u);
      }
    }
  }

  lemma ApplyConsistent(db: Db, op: Op)
    requires Consistent(db) && Allowed(db, op)
    ensures Consistent(Apply(db, op))
  {
    UsersKept(db, op);
    OrgsKept(db, op);
    InvitesKept(db, op);
    AuthorityKept(db, op);
    CountsKept(db, op);
    LedgerKept(db, op);
    SpentKept(db, op);
  }

  // ---- Nothing is ever taken back ----

  predicate Grows(a: Db, b: Db) {
    && AccountsStand(a, b)
    && OrgsStand(a, b)
    && InvitesStand(a, b)
    && a.profiles.Keys <= b.profiles.Keys
    && a.unlocks <= b.unlocks
    && a.catalog == b.catalog
    && a.journal <= b.journal
  }

  predicate AccountsStand(a: Db, b: Db) {
    && (forall h :: h in a.handles ==> h in b.handles && b.handles[h] == a.handles[h])
    && (forall u :: u in a.users ==>
          u in b.users && b.users[u].handle == a.users[u].handle && b.users[u].id == a.users[u].id
          && (a.users[u].admin ==> b.users[u].admin))
  }

  predicate OrgsStand(a: Db, b: Db) {
    && (forall o :: o in a.orgs ==> o in b.orgs && b.orgs[o] == a.orgs[o])
    && (forall m :: m in a.members ==> m in b.members && b.members[m] == a.members[m])
  }

  /** Codes are never withdrawn or altered, only used. */
  predicate InvitesStand(a: Db, b: Db) {
    forall c :: c in a.invites ==>
      c in b.invites && b.invites[c] == a.invites[c].(used := b.invites[c].used)
        && a.invites[c].used <= b.invites[c].used
  }

  lemma SameTablesGrow(a: Db, b: Db)
    requires a.handles == b.handles && a.users == b.users && a.orgs == b.orgs && a.members == b.members
    requires InvitesStand(a, b)
    requires a.profiles.Keys <= b.profiles.Keys && a.unlocks <= b.unlocks && a.catalog == b.catalog
      && a.journal <= b.journal
    ensures Grows(a, b)
  {}

  lemma RegistrationGrows(db: Db, handle: string)
    requires UsersOk(db)
    ensures Grows(db, CreateUser(db, handle).0)
  {}

  lemma PromotionGrows(db: Db, handle: string)
    requires UsersOk(db)
    ensures Grows(db, PromoteToAdmin(db, handle))
  {
    var db' := PromoteToAdmin(db, handle);
    if db' != db {
      var u := db.users[db.handles[handle]];
      assert db'.users == db.users[u.id := u.(admin := true)];
    }
  }

  lemma FoundingGrows(db: Db, name: string, owner: nat)
    requires OrgsOk(db)
    ensures Grows(db, CreateOrg(db, name, owner).0)
  {
    var db' := CreateOrg(db, name, owner).0;
    assert (db.nextOrg, owner) !in db.members && db.nextOrg !in db.orgs;
    assert OrgsStand(db, db');
  }

  lemma JoiningAddsMember(db: Db, code: string, user: nat, now: int)
    ensures var db' := RedeemOrgInvite(db, code, user, now).0; OrgsStand(db, db') && InvitesStand(db, db')
  {}

  lemma JoiningGrows(db: Db, code: string, user: nat, now: int)
    ensures Grows(db, RedeemOrgInvite(db, code, user, now).0)
  {
    JoiningAddsMember(db, code, user, now);
  }

  lemma ApplyGrows(db: Db, op: Op)
    requires UsersOk(db) && OrgsOk(db)
    ensures Grows(db, Apply(db, op))
  {
    if op.Registers? {
      RegistrationGrows(db, op.handle);
    } else if op.Promotes? {
      PromotionGrows(db, op.handle);
    } else if op.CreatesOrg? {
      FoundingGrows(db, op.name, op.owner);
    } else if op.Joins? {
      JoiningGrows(db, op.code, op.user, op.now);
    } else {
      CatalogUntouched(db, op);
      AccountsUntouched(db, op);
      OrgsUntouched(db, op);
      PointsGrow(db, op);
      assert op.Invites? ==> InvitesStand(db, CreateOrgInvite(db, op.org, op.creator, op.code, op.expiresAt).0);
      SameTablesGrow(db, Apply(db, op));
    }
  }

  lemma GrowsTransitive(a: Db, b: Db, c: Db)
    requires Grows(a, b) && Grows(b, c)
    ensures Grows(a, c)
  {}

  // ---- Whole histories ----

  predicate AllAllowed(db: Db, ops: seq<Op>)
    decreases |ops|
  {
    ops == [] || (Allowed(db, ops[0]) && AllAllowed(Apply(db, ops[0]), ops[1..]))
  }

  function ApplyAll(db: Db, ops: seq<Op>): Db
    decreases |ops|
  {
    if ops == [] then db else ApplyAll(Apply(db, ops[0]), ops[1..])
  }

  lemma {:induction false} HistoryConsistent(db: Db, ops: seq<Op>)
    requires Consistent(db) && AllAllowed(db, ops)
    ensures Consistent(ApplyAll(db, ops)) && Grows(db, ApplyAll(db, ops))
    decreases |ops|
  {
    if ops != [] {
      ApplyConsistent(db, ops[0]);
      ApplyGrows(db, ops[0]);
      HistoryConsistent(Apply(db, ops[0]), ops[1..]);
      GrowsTransitive(db, Apply(db, ops[0]), ApplyAll(db, ops));
    }
  }

  /** A history of the database from its creation. */
  predicate History(catalog: map<nat, int>, ops: seq<Op>) {
    AllAllowed(NewDb(catalog), ops)
  }

  /**
   After any history: an organization has as many members as spent invitations and one more, its
   owner, who is its only administrator and a system administrator; and a code, which only the
   owner can have made, has admitted at most one user.
   */
  lemma MembershipLedger(catalog: map<nat, int>, ops: seq<Op>, org: nat, code: string, user: nat)
    requires History(catalog, ops)
    ensures var db := ApplyAll(NewDb(catalog), ops);
      && (org in db.orgs ==> |MembersOf(db, org)| == 1 + |SpentInvites(db, org)|)
      && (IsOrgAdmin(db, org, user) <==> org in db.orgs && user == db.orgs[org].owner)
      && (org in db.orgs ==> db.orgs[org].owner in db.users && db.users[db.orgs[org].owner].admin)
      && |AdmittedOn(db.journal, code)| <= 1
      && (code in db.invites ==>
           db.invites[code].org in db.orgs && db.invites[code].createdBy == db.orgs[db.invites[code].org].owner)
      && (code in db.invites ==> (|AdmittedOn(db.journal, code)| == 1 <==>
           code in SpentInvites(db, db.invites[code].org)))
  {
    NewDbConsistent(catalog);
    HistoryConsistent(NewDb(catalog), ops);
    var db := ApplyAll(NewDb(catalog), ops);
    assert org in db.orgs ==> CountedAt(db, org);
  }

  /**
   After any history: what a user has is one point for every message they were paid for, five
   for every todo, less what all they have unlocked costs in the catalogue; it is never
   negative; everything they have unlocked they bought exactly once, at its price; and what
   they have equipped is unlocked.
   */
  lemma PointsLedger(catalog: map<nat, int>, ops: seq<Op>, user: nat)
    requires History(catalog, ops)
    ensures var db := ApplyAll(NewDb(catalog), ops);
      user in db.profiles ==>
        && db.profiles[user].points ==
             1 * TimesPaid(db.journal, user, 1) + 5 * TimesPaid(db.journal, user, 5)
             - Worth(catalog, UnlockedBy(db, user))
        && db.profiles[user].points >= 0
        && (db.profiles[user].active.Some? ==> db.profiles[user].active.value in UnlockedBy(db, user))
    ensures var db := ApplyAll(NewDb(catalog), ops);
      Spent(db.journal, user) == Worth(catalog, UnlockedBy(db, user))
    ensures var db := ApplyAll(NewDb(catalog), ops);
      forall i :: i in catalog ==>
        TimesBought(db.journal, user, i, catalog[i]) == if i in UnlockedBy(db, user) then 1 else 0
    ensures var db := ApplyAll(NewDb(catalog), ops);
      forall e :: e in db.journal && e.Bought? ==> e.item in catalog && e.cost == catalog[e.item]
  {
    NewDbConsistent(catalog);
    HistoryConsistent(NewDb(catalog), ops);
    var db := ApplyAll(NewDb(catalog), ops);
    forall i: nat ensures i in UnlockedBy(db, user) <==> (user, i) in db.unlocks {}
  }

  /** Those whose presence a user sees are exactly the others with whom messages may be exchanged. */
  lemma MatesAreSharers(db: Db, user: nat, handle: string)
    requires UsersOk(db) && OrgsOk(db)
    ensures handle in OrgMateHandles(db, user) <==>
      handle in db.handles && db.handles[handle] != user && SharesOrg(db, user, db.handles[handle])
  {
    if handle in OrgMateHandles(db, user) {
      var m, n :| m in db.members && n in db.members && n.0 == m.0 && m.1 == user && n.1 != m.1 && n.1 in db.users
                  && db.users[n.1].handle == handle;
      assert (m.0, n.1) == n;
    }
    if handle in db.handles && db.handles[handle] != user && SharesOrg(db, user, db.handles[handle]) {
      var m :| m in db.members && m.1 == user && (m.0, db.handles[handle]) in db.members;
      var n := (m.0, db.handles[handle]);
      assert n in db.members && db.users[n.1].handle == handle;
    }
  }

  /** Sharing an organization is mutual, and lasts. */
  lemma SharingIsMutual(db: Db, u: nat, v: nat)
    requires SharesOrg(db, u, v)
    ensures SharesOrg(db, v, u)
  {
    var m :| m in db.members && m.1 == u && (m.0, v) in db.members;
    assert (m.0, u) == m && (m.0, v) in db.members;
  }

  lemma SharingLasts(a: Db, b: Db, u: nat, v: nat)
    requires Grows(a, b) && SharesOrg(a, u, v)
    ensures SharesOrg(b, u, v)
  {
    var m :| m in a.members && m.1 == u && (m.0, v) in a.members;
    assert m in b.members && (m.0, v) in b.members;
  }

  /**
   A code admits to its own organization, at most one user, and only until its time is up:
   whatever has happened since it was made for `ttl` seconds from `made`.
   */
  lemma CodeAdmitsInTime(a: Db, org: nat, creator: nat, code: string, made: int, b: Db, user: nat, now: int)
    requires CreateOrgInvite(a, org, creator, code, made + INVITE_TTL).1.Ok?
    requires Grows(CreateOrgInvite(a, org, creator, code, made + INVITE_TTL).0, b)
    requires OrgsOk(b) && RedeemOrgInvite(b, code, user, now).1.Ok?
    ensures now < made + 7 * 24 * 60 * 60
    ensures RedeemOrgInvite(b, code, user, now).1.value.id == org && !IsOrgMember(b, org, user)
    ensures var c := RedeemOrgInvite(b, code, user, now).0;
      IsOrgMember(c, org, user) && forall other, later :: RedeemOrgInvite(c, code, other, later).1 == Err(InviteInvalid)
  {
    var invited := CreateOrgInvite(a, org, creator, code, made + INVITE_TTL).0;
    assert code in invited.invites && b.invites[code].maxUses == 1 && b.invites[code].used == 0;
  }

  /** One completion makes the todo done and, apart from that, pays five points or does nothing. */
  lemma CompletionPays(db: Db, org: nat, todo: nat, user: nat)
    ensures var after := CompleteByMember(db, org, todo, user).0;
      if MayComplete(db, org, todo, user)
      then after.todos == db.todos[todo := db.todos[todo].(done := true)] && after.members == db.members
           && after.profiles.Keys == db.profiles.Keys
           && (user in db.profiles ==> after.profiles[user].points == db.profiles[user].points + 5)
      else after == db
  {}

  /** A member of the organization and a todo of that organization's. */
  predicate MayComplete(db: Db, org: nat, todo: nat, user: nat) {
    IsOrgMember(db, org, user) && todo in db.todos && db.todos[todo].org == org
  }

  function CompletedTimes(db: Db, org: nat, todo: nat, user: nat, n: nat): Db {
    if n == 0 then db else CompleteByMember(CompletedTimes(db, org, todo, user, n - 1), org, todo, user).0
  }

  lemma {:induction false} CompletionsAddUp(db: Db, org: nat, todo: nat, user: nat, n: nat)
    ensures var after := CompletedTimes(db, org, todo, user, n);
      && MayComplete(after, org, todo, user) == MayComplete(db, org, todo, user)
           && after.profiles.Keys == db.profiles.Keys
      && (MayComplete(db, org, todo, user) && n > 0 ==> todo in after.todos && after.todos[todo].done)
      && (user in db.profiles ==>
            after.profiles[user].points ==
              db.profiles[user].points + if MayComplete(db, org, todo, user) then 5 * n else 0)
  {
    if n > 0 {
      CompletionsAddUp(db, org, todo, user, n - 1);
      CompletionPays(CompletedTimes(db, org, todo, user, n - 1), org, todo, user);
    }
  }

  /** The user has a profile, and completing the todo raises what it has by five. */
  predicate PaysFive(db: Db, org: nat, todo: nat, user: nat) {
    var after := CompleteByMember(db, org, todo, user).0;
    user in db.profiles && user in after.profiles && after.profiles[user].points == db.profiles[user].points + 5
  }

  /**
   Completing a shared todo after it has been completed any number of times pays five points
   again exactly if the user is a member, the todo is that organization's and the user has a
   profile: that it is done makes no difference.
   */
  lemma TodoPaysEveryTime(db: Db, org: nat, todo: nat, user: nat, n: nat)
    ensures PaysFive(CompletedTimes(db, org, todo, user, n), org, todo, user) <==>
      MayComplete(db, org, todo, user) && user in db.profiles
    ensures var after := CompletedTimes(db, org, todo, user, n);
      MayComplete(db, org, todo, user) && n > 0 ==> todo in after.todos && after.todos[todo].done
  {
    CompletionsAddUp(db, org, todo, user, n);
    CompletionPays(CompletedTimes(db, org, todo, user, n), org, todo, user);
  }
}
