/**
 What each transaction of the relay's database leaves to be read by the next, and when it is
 refused: every other row, and every other table, is as it was.
 */
module RelayStoreLaws {
  import opened Wrappers
  import opened RelayStore

  // ---- Accounts ----

  /** A free handle gets a new account, found under that handle from then on; a handle in use is refused. */
  lemma RegistersExactly(db: Db, handle: string)
    requires UsersOk(db)
    ensures var (t, r) := CreateUser(db, handle);
      if UserByHandle(db, handle).Ok? then t == db && r == Err(HandleTaken)
      else
        && r.Ok? && r.value.handle == handle && !r.value.admin && r.value.id !in db.users
        && t == db.(users := t.users, handles := t.handles, nextUser := t.nextUser)
        && (forall h :: UserByHandle(t, h) == if h == handle then r else UserByHandle(db, h))
        && t.users.Keys == db.users.Keys + {r.value.id} && UsersOk(t)
  {}

  /** The account becomes an administrator's; the others do not. */
  lemma PromotesExactly(db: Db, handle: string, h: string)
    requires UsersOk(db)
    ensures var t := PromoteToAdmin(db, handle);
      && t == db.(users := t.users) && t.users.Keys == db.users.Keys
      && UserByHandle(t, h) ==
           match UserByHandle(db, h)
           case Ok(u) => Ok(if h == handle then User(u.id, u.handle, true) else u)
           case Err(e) => Err(e)
  {
    if h in db.handles && handle in db.handles && db.handles[h] == db.handles[handle] {
      assert db.users[db.handles[h]].handle == h;
    }
  }

  /** What a user has, and wears. */
  function PointsOf(db: Db, user: nat): Option<int> {
    if user in db.profiles then Some(db.profiles[user].points) else None
  }

  function Worn(db: Db, user: nat): Option<nat> {
    if user in db.profiles then db.profiles[user].active else None
  }

  /** An account without a profile gets one, with no points and nothing equipped. */
  lemma MakesProfileExactly(db: Db, user: nat, u: nat)
    ensures var (t, r) := CreateUserProfile(db, user);
      var made := user in db.users && PointsOf(db, user).None?;
      && t == db.(profiles := t.profiles) && r == (if made then Ok(()) else Err(Rejected))
      && PointsOf(t, u) == (if made && u == user then Some(0) else PointsOf(db, u))
      && Worn(t, u) == (if made && u == user then None else Worn(db, u))
  {}

  // ---- Organizations ----

  /** A new organization has one member, its owner, who is its administrator; the others keep theirs. */
  lemma FoundsExactly(db: Db, name: string, owner: nat, o: nat, u: nat)
    requires OrgsOk(db)
    ensures var (t, r) := CreateOrg(db, name, owner);
      if owner !in db.users then t == db && r == Err(Rejected)
      else
        && r.Ok? && r.value.name == name && r.value.owner == owner && r.value.id !in db.orgs
        && t == db.(orgs := db.orgs[r.value.id := r.value], nextOrg := t.nextOrg, members := t.members) && OrgsOk(t)
        && (IsOrgMember(t, o, u) <==> if o == r.value.id then u == owner else IsOrgMember(db, o, u))
        && (IsOrgAdmin(t, o, u) <==> if o == r.value.id then u == owner else IsOrgAdmin(db, o, u))
  {}

  /** A code not in use, for an organization and by an account that exist, admits once until it expires. */
  lemma InvitesExactly(db: Db, org: nat, creator: nat, code: string, expiresAt: int, c: string, now: int)
    ensures var (t, r) := CreateOrgInvite(db, org, creator, code, expiresAt);
      var made := code !in db.invites && org in db.orgs && creator in db.users;
      && r == (if made then Ok(()) else Err(Rejected)) && t == db.(invites := t.invites)
      && (Redeemable(t, c, now) <==> if made && c == code then now < expiresAt else Redeemable(db, c, now))
      && (made ==> t.invites[code].org == org && t.invites[code].createdBy == creator)
      && (c in db.invites ==> c in t.invites && t.invites[c] == db.invites[c])
  {}

  /** The code is known, has not expired, and has admitted nobody. */
  lemma RedeemableExactly(db: Db, code: string, now: int)
    requires InvitesOk(db)
    ensures Redeemable(db, code, now) <==>
      code in db.invites && now < db.invites[code].expiresAt && AdmittedOn(db.journal, code) == []
  {
    assert |AdmittedOn(db.journal, code)| == if code in db.invites then db.invites[code].used else 0;
  }

  /** A code admits a user as a plain member, once; whoever is a member already does not use it up. */
  lemma AdmitsExactly(db: Db, code: string, user: nat, now: int, o: nat, u: nat)
    requires OrgsOk(db) && InvitesOk(db)
    ensures var (t, r) := RedeemOrgInvite(db, code, user, now);
      if !Redeemable(db, code, now) then t == db && r == Err(InviteInvalid)
      else
        var org := db.invites[code].org;
        if IsOrgMember(db, org, user) then t == db && r == Err(AlreadyOrgMember)
        else if user !in db.users then t == db && r == Err(Rejected)
        else
          && r == Ok(db.orgs[org]) && t == db.(members := t.members, invites := t.invites, journal := t.journal)
          && (IsOrgMember(t, o, u) <==> IsOrgMember(db, o, u) || (o == org && u == user))
          && (IsOrgAdmin(t, o, u) <==> IsOrgAdmin(db, o, u))
  {}

  /** A code that has admitted somebody admits nobody else, at any time; the other codes do as before. */
  lemma AdmitsOnce(db: Db, code: string, user: nat, now: int, c: string, later: int)
    requires InvitesOk(db) && RedeemOrgInvite(db, code, user, now).1.Ok?
    ensures Redeemable(RedeemOrgInvite(db, code, user, now).0, c, later) <==> c != code && Redeemable(db, c, later)
  {}

  /** The handles of an organization's members. */
  lemma MembersListed(db: Db, org: nat, h: string)
    requires UsersOk(db) && OrgsOk(db)
    ensures h in OrgMemberHandles(db, org) <==>
      UserByHandle(db, h).Ok? && IsOrgMember(db, org, UserByHandle(db, h).value.id)
  {
    if m :| m in db.members && m.0 == org && m.1 in db.users && db.users[m.1].handle == h {
      assert m == (org, db.handles[h]);
    }
    if UserByHandle(db, h).Ok? && IsOrgMember(db, org, UserByHandle(db, h).value.id) {
      var m := (org, db.handles[h]);
      assert m in db.members && m.1 in db.users && db.users[m.1].handle == h;
    }
  }

  // ---- Points ----

  /** A user with a profile has that much more; nobody else has. */
  lemma PaysExactly(db: Db, user: nat, delta: int, u: nat)
    ensures var t := AddPoints(db, user, delta);
      && t == db.(profiles := t.profiles, journal := t.journal) && Worn(t, u) == Worn(db, u)
      && PointsOf(t, u) == if u == user && PointsOf(db, u).Some? then Some(PointsOf(db, u).value + delta)
                           else PointsOf(db, u)
  {}

  /** Why a purchase is refused, if it is. */
  function Refusal(db: Db, user: nat, item: nat): Option<Error> {
    if item !in db.catalog then Some(NotFound)
    else if (user, item) in db.unlocks then Some(AlreadyUnlocked)
    else
      match PointsOf(db, user)
      case None => Some(Rejected)
      case Some(points) => if points < db.catalog[item] then Some(InsufficientPoints) else None
  }

  /** An unlockable is the user's from then on, for its price; nobody else pays or gets anything. */
  lemma SellsExactly(db: Db, user: nat, item: nat, u: nat, i: nat)
    ensures var (t, r) := RedeemUnlockable(db, user, item);
      match Refusal(db, user, item)
      case Some(e) => t == db && r == Err(e)
      case None =>
        && r == Ok(()) && t == db.(profiles := t.profiles, unlocks := t.unlocks, journal := t.journal)
        && PointsOf(t, u) == (if u == user then Some(PointsOf(db, u).value - db.catalog[item]) else PointsOf(db, u))
        && Worn(t, u) == Worn(db, u)
        && ((u, i) in t.unlocks <==> (u, i) in db.unlocks || (u == user && i == item))
  {}

  /** The user wears the item, or nothing; without a profile there is nobody to dress. */
  lemma DressesExactly(db: Db, user: nat, item: Option<nat>, u: nat)
    ensures var (t, r) := SetActiveUnlockable(db, user, item);
      var refused := user in db.profiles && item.Some? && item.value !in db.catalog;
      && r == (if refused then Err(Rejected) else Ok(())) && t == db.(profiles := t.profiles)
      && PointsOf(t, u) == PointsOf(db, u)
      && Worn(t, u) == if u == user && u in db.profiles && !refused then item else Worn(db, u)
  {}

  // ---- Todos ----

  /** A todo is added open, under a number of its own; the others stay as they are. */
  lemma AddsTodoExactly(db: Db, org: nat, creator: nat, text: string)
    requires AuthorityOk(db)
    ensures var (t, r) := CreateTodo(db, org, creator, text);
      if org in db.orgs && creator in db.users then
        && r.Ok? && r.value.id !in db.todos && r.value == Todo(r.value.id, org, creator, text, false)
        && t == db.(todos := db.todos[r.value.id := r.value], nextTodo := t.nextTodo)
        && forall i :: i in t.todos ==> i < t.nextTodo
      else t == db && r == Err(Rejected)
  {}

  /** Only the organization's own todo is completed, and only it. */
  lemma CompletesExactly(db: Db, org: nat, todo: nat, i: nat)
    ensures var (t, r) := CompleteTodo(db, org, todo);
      var found := todo in db.todos && db.todos[todo].org == org;
      && t == db.(todos := t.todos) && t.todos.Keys == db.todos.Keys
      && r == (if found then Ok(t.todos[todo]) else Err(NotFound))
      && (i in db.todos ==>
            && t.todos[i] == db.todos[i].(done := t.todos[i].done)
            && (t.todos[i].done <==> db.todos[i].done || (found && i == todo)))
  {}

  /** Who completes a todo of an organization they belong to has five points more; who does not, changes nothing. */
  lemma CompletionPaysFive(db: Db, org: nat, todo: nat, user: nat, u: nat)
    ensures var (t, r) := CompleteByMember(db, org, todo, user);
      var may := (org, user) in db.members && todo in db.todos && db.todos[todo].org == org;
      && (!may ==> t == db && r == Err(if (org, user) in db.members then NotFound else NotOrgMember))
      && (may ==> t.todos == db.todos[todo := db.todos[todo].(done := true)] && r == Ok(t.todos[todo]))
      && t == db.(todos := t.todos, profiles := t.profiles, journal := t.journal)
      && PointsOf(t, u) == if may && u == user && u in db.profiles then Some(PointsOf(db, u).value + 5)
                           else PointsOf(db, u)
  {}
}
