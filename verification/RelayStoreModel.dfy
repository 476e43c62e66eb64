/**
 The store with its tables as mutable fields, and the three layers of rules above it, each
 method proved to make the `RelayStore` transactions it stands for and no others.
 */
module RelayStoreModel {
  import opened Wrappers
  import opened Text
  import S = RelayStore
  import opened RelayStore

  class PGStore {
    var users: map<nat, User>
    var nextUser: nat
    var handles: map<string, nat>
    var orgs: map<nat, Org>
    var nextOrg: nat
    var members: map<(nat, nat), Role>
    var invites: map<string, Invite>
    const catalog: map<nat, int>
    var profiles: map<nat, Profile>
    var unlocks: set<(nat, nat)>
    var todos: map<nat, Todo>
    var nextTodo: nat
    ghost var journal: seq<Entry>

    constructor (catalog: map<nat, int>)
      ensures Tables() == NewDb(catalog)
    {
      users, nextUser, handles, orgs, nextOrg, members, invites := map[], 1, map[], map[], 1, map[], map[];
      this.catalog, profiles, unlocks, todos, nextTodo, journal := catalog, map[], {}, map[], 1, [];
    }

    ghost function Tables(): Db
      reads this
    {
      Db(users, nextUser, handles, orgs, nextOrg, members, invites, catalog, profiles, unlocks, todos, nextTodo,
        journal)
    }

    method CreateUser(handle: string) returns (r: Result<User, Error>)
      modifies this
      ensures (Tables(), r) == S.CreateUser(old(Tables()), handle)
    {
      if handle in handles { return Err(HandleTaken); }
      var u := User(nextUser, handle, false);
      users := users[u.id := u];
      handles := handles[handle := u.id];
      nextUser := nextUser + 1;
      return Ok(u);
    }

    method UserByHandle(handle: string) returns (r: Result<User, Error>)
      ensures r == S.UserByHandle(Tables(), handle)
    {
      if handle in handles && handles[handle] in users { return Ok(users[handles[handle]]); }
      return Err(NotFound);
    }

    method PromoteToAdmin(handle: string)
      modifies this
      ensures Tables() == S.PromoteToAdmin(old(Tables()), handle)
    {
      if handle in handles && handles[handle] in users {
        var u := users[handles[handle]];
        users := users[u.id := u.(admin := true)];
      }
    }

    method CreateUserProfile(user: nat) returns (r: Result<(), Error>)
      modifies this
      ensures (Tables(), r) == S.CreateUserProfile(old(Tables()), user)
    {
      if user in profiles || user !in users { return Err(Rejected); }
      profiles := profiles[user := Profile(0, None)];
      return Ok(());
    }

    method CreateOrg(name: string, owner: nat) returns (r: Result<Org, Error>)
      modifies this
      ensures (Tables(), r) == S.CreateOrg(old(Tables()), name, owner)
    {
      if owner !in users { return Err(Rejected); }
      var o := Org(nextOrg, name, owner);
      orgs := orgs[o.id := o];
      nextOrg := nextOrg + 1;
      members := members[(o.id, owner) := Admin];
      return Ok(o);
    }

    method IsOrgMember(org: nat, user: nat) returns (r: bool)
      ensures r == S.IsOrgMember(Tables(), org, user)
    {
      r := (org, user) in members;
    }

    method IsOrgAdmin(org: nat, user: nat) returns (r: bool)
      ensures r == S.IsOrgAdmin(Tables(), org, user)
    {
      if (org, user) !in members { return false; }
      r := members[(org, user)] == Admin;
    }

    method SharesOrg(user1: nat, user2: nat) returns (r: bool)
      ensures r == S.SharesOrg(Tables(), user1, user2)
    {
      r := exists m :: m in members && m.1 == user1 && (m.0, user2) in members;
    }

    method OrgMateHandles(user: nat) returns (r: set<string>)
      ensures r == S.OrgMateHandles(Tables(), user)
    {
      r := set m, n | m in members && n in members && n.0 == m.0 && m.1 == user && n.1 != m.1 && n.1 in users
        :: users[n.1].handle;
    }

    method CreateOrgInvite(org: nat, creator: nat, code: string, expiresAt: int) returns (r: Result<(), Error>)
      modifies this
      ensures (Tables(), r) == S.CreateOrgInvite(old(Tables()), org, creator, code, expiresAt)
    {
      if code in invites || org !in orgs || creator !in users { return Err(Rejected); }
      invites := invites[code := Invite(org, creator, expiresAt, 1, 0)];
      return Ok(());
    }

    method RedeemOrgInvite(code: string, user: nat, now: int) returns (r: Result<Org, Error>)
      modifies this
      ensures (Tables(), r) == S.RedeemOrgInvite(old(Tables()), code, user, now)
    {
      if code !in invites { return Err(InviteInvalid); }
      var i := invites[code];
      if !(i.expiresAt > now && i.used < i.maxUses) { return Err(InviteInvalid); }
      if (i.org, user) in members { return Err(AlreadyOrgMember); }
      if i.org !in orgs || user !in users { return Err(Rejected); }
      members := members[(i.org, user) := Member];
      invites := invites[code := i.(used := i.used + 1)];
      journal := journal + [Admitted(code, i.org, user)];
      return Ok(orgs[i.org]);
    }

    method AddPoints(user: nat, delta: int)
      modifies this
      ensures Tables() == S.AddPoints(old(Tables()), user, delta)
    {
      if user in profiles {
        profiles := profiles[user := profiles[user].(points := profiles[user].points + delta)];
        journal := journal + [Paid(user, delta)];
      }
    }

    method RedeemUnlockable(user: nat, item: nat) returns (r: Result<(), Error>)
      modifies this
      ensures (Tables(), r) == S.RedeemUnlockable(old(Tables()), user, item)
    {
      if item !in catalog { return Err(NotFound); }
      var cost := catalog[item];
      if (user, item) in unlocks { return Err(AlreadyUnlocked); }
      if user !in profiles { return Err(Rejected); }
      var points := profiles[user].points;
      if points < cost { return Err(InsufficientPoints); }
      profiles := profiles[user := profiles[user].(points := points - cost)];
      unlocks := unlocks + {(user, item)};
      journal := journal + [Bought(user, item, cost)];
      return Ok(());
    }

    method SetActiveUnlockable(user: nat, item: Option<nat>) returns (r: Result<(), Error>)
      modifies this
      ensures (Tables(), r) == S.SetActiveUnlockable(old(Tables()), user, item)
    {
      if user !in profiles { return Ok(()); }
      if item.Some? && item.value !in catalog { return Err(Rejected); }
      profiles := profiles[user := profiles[user].(active := item)];
      return Ok(());
    }

    method CreateTodo(org: nat, creator: nat, text: string) returns (r: Result<Todo, Error>)
      modifies this
      ensures (Tables(), r) == S.CreateTodo(old(Tables()), org, creator, text)
    {
      if org !in orgs || creator !in users { return Err(Rejected); }
      var t := Todo(nextTodo, org, creator, text, false);
      todos := todos[t.id := t];
      nextTodo := nextTodo + 1;
      return Ok(t);
    }

    method CompleteTodo(org: nat, todo: nat) returns (r: Result<Todo, Error>)
      modifies this
      ensures (Tables(), r) == S.CompleteTodo(old(Tables()), org, todo)
    {
      if todo !in todos || todos[todo].org != org { return Err(NotFound); }
      var t := todos[todo].(done := true);
      todos := todos[todo := t];
      return Ok(t);
    }
  }

  /** `user` is the account as it was when its connection signed in. */
  class Orgs {
    const store: PGStore

    constructor (store: PGStore)
      ensures this.store == store
    {
      this.store := store;
    }

    method Create(name: string, owner: User) returns (r: Result<Org, Error>)
      modifies store
      ensures !owner.admin ==> store.Tables() == old(store.Tables()) && r == Err(NotSystemAdmin)
      ensures owner.admin && TrimSpace(name) == "" ==> store.Tables() == old(store.Tables()) && r == Err(NameRequired)
      ensures owner.admin && TrimSpace(name) != "" ==>
        (store.Tables(), r) == CreateOrg(old(store.Tables()), TrimSpace(name), owner.id)
    {
      if !owner.admin { return Err(NotSystemAdmin); }
      var trimmed := TrimSpace(name);
      if trimmed == "" { return Err(NameRequired); }
      r := store.CreateOrg(trimmed, owner.id);
    }

    method Invite(org: nat, creator: User, code: string, now: int) returns (r: Result<(string, int), Error>)
      modifies store
      ensures var was := old(store.Tables());
        var (db, made) := CreateOrgInvite(was, org, creator.id, code, now + INVITE_TTL);
        if !IsOrgAdmin(was, org, creator.id) then store.Tables() == was && r == Err(NotOrgAdmin)
        else store.Tables() == db && r == (match made case Ok(_) => Ok((code, now + INVITE_TTL)) case Err(e) => Err(e))
    {
      var isAdmin := store.IsOrgAdmin(org, creator.id);
      if !isAdmin { return Err(NotOrgAdmin); }
      var made := store.CreateOrgInvite(org, creator.id, code, now + INVITE_TTL);
      match made
      case Err(e) => return Err(e);
      case Ok(_) => return Ok((code, now + INVITE_TTL));
    }

    method Join(code: string, user: User, now: int) returns (r: Result<Org, Error>)
      modifies store
      ensures (store.Tables(), r) == RedeemOrgInvite(old(store.Tables()), code, user.id, now)
    {
      r := store.RedeemOrgInvite(code, user.id, now);
    }
  }

  class Points {
    const store: PGStore

    constructor (store: PGStore)
      ensures this.store == store
    {
      this.store := store;
    }

    method AwardMessage(user: nat)
      modifies store
      ensures store.Tables() == Apply(old(store.Tables()), EarnsByMessage(user))
    {
      store.AddPoints(user, MESSAGE_AWARD);
    }

    method AwardTodoComplete(user: nat)
      modifies store
      ensures store.Tables() == Apply(old(store.Tables()), EarnsByTodo(user))
    {
      store.AddPoints(user, TODO_COMPLETE_AWARD);
    }

    method Redeem(user: User, item: nat) returns (r: Result<(), Error>)
      modifies store
      ensures (store.Tables(), r) == RedeemUnlockable(old(store.Tables()), user.id, item)
    {
      r := store.RedeemUnlockable(user.id, item);
    }

    /** Only what has been unlocked is equipped. */
    method SetActive(user: User, item: nat) returns (r: Result<(), Error>)
      modifies store
      ensures var was := old(store.Tables());
        if (user.id, item) !in was.unlocks then store.Tables() == was && r == Err(NotFound)
        else Allowed(was, Equips(user.id, item)) && (store.Tables(), r) == SetActiveUnlockable(was, user.id, Some(item))
    {
      if (user.id, item) !in store.unlocks { return Err(NotFound); }
      r := store.SetActiveUnlockable(user.id, Some(item));
    }
  }

  class Todos {
    const store: PGStore
    const points: Points

    constructor (store: PGStore, points: Points)
      requires points.store == store
      ensures this.store == store && this.points == points
    {
      this.store, this.points := store, points;
    }

    method Add(org: nat, user: User, text: string) returns (r: Result<Todo, Error>)
      modifies store
      ensures TrimSpace(text) == "" ==> store.Tables() == old(store.Tables()) && r == Err(TextRequired)
      ensures TrimSpace(text) != "" && !IsOrgMember(old(store.Tables()), org, user.id) ==>
        store.Tables() == old(store.Tables()) && r == Err(NotOrgMember)
      ensures TrimSpace(text) != "" && IsOrgMember(old(store.Tables()), org, user.id) ==>
        (store.Tables(), r) == CreateTodo(old(store.Tables()), org, user.id, TrimSpace(text))
    {
      var trimmed := TrimSpace(text);
      if trimmed == "" { return Err(TextRequired); }
      var member := store.IsOrgMember(org, user.id);
      if !member { return Err(NotOrgMember); }
      r := store.CreateTodo(org, user.id, trimmed);
    }

    /** Completes the todo and pays whoever did. */
    method Complete(org: nat, todo: nat, user: User) returns (r: Result<Todo, Error>)
      requires points.store == store
      modifies store
      ensures (store.Tables(), r) == CompleteByMember(old(store.Tables()), org, todo, user.id)
    {
      var member := store.IsOrgMember(org, user.id);
      if !member { return Err(NotOrgMember); }
      r := store.CompleteTodo(org, todo);
      if r.Ok? {
        points.AwardTodoComplete(user.id);
      }
    }
  }
}
