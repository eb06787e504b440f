/** The role tables, the SQL statements that change them, what a user's permissions resolve to, and when cached
    resolutions agree with the tables. */
module Directory {
  import opened Text
  import opened Groups
  import opened Scopes
  import opened TimedCache

  datatype Group = Group(name: string, parent: Option<Id>)

  datatype Db = Db(
    users: set<Id>,
    groups: map<Id, Group>,
    userGroups: set<(Id, Id)>,
    roles: map<Id, string>,
    permissions: map<Id, Permission>,
    rolePermissions: set<(Id, Id)>,
    groupRoles: set<(Id, Id)>,
    userRoles: set<(Id, Id)>)

  predicate ForeignKeysHold(db: Db) {
    && "" !in db.groups
    && (forall g :: g in db.groups && db.groups[g].parent.Some? ==> db.groups[g].parent.value in db.groups)
    && (forall x :: x in db.userGroups ==> x.0 in db.users && x.1 in db.groups)
    && (forall x :: x in db.rolePermissions ==> x.0 in db.roles && x.1 in db.permissions)
    && (forall x :: x in db.groupRoles ==> x.0 in db.groups && x.1 in db.roles)
    && (forall x :: x in db.userRoles ==> x.0 in db.users && x.1 in db.roles)
  }

  datatype Statement =
    | InsertUser(id: Id)
    | DeleteUser(id: Id)
    | InsertGroup(id: Id, name: string, parent: Option<Id>)
    | InsertRole(id: Id, name: string)
    | DeleteRole(id: Id)
    | InsertPermission(id: Id, permission: Permission)
    | InsertRolePermission(role: Id, permissionID: Id)
    | DeleteRolePermission(role: Id, permissionID: Id)
    | InsertUserRole(user: Id, role: Id)
    | DeleteUserRole(user: Id, role: Id)
    | InsertGroupRole(group: Id, role: Id)
    | DeleteGroupRole(group: Id, role: Id)
    | InsertUserGroup(user: Id, group: Id)
    | DeleteUserGroup(user: Id, group: Id)

  // The database refuses a statement that breaks a primary, unique or foreign key; deleting cascades. Deleting a
  // user who is not there is reported as an error by the user repository.
  predicate Accepts(db: Db, s: Statement) {
    match s
    case InsertUser(id) => id !in db.users
    case DeleteUser(id) => id in db.users
    case InsertGroup(id, name, parent) =>
      && id != "" && id !in db.groups && (forall g :: g in db.groups ==> db.groups[g].name != name)
      && (parent.Some? ==> parent.value in db.groups || parent.value == id)
    case InsertRole(id, name) => id !in db.roles && name !in db.roles.Values
    case DeleteRole(id) => true
    case InsertPermission(id, p) => id !in db.permissions && p !in db.permissions.Values
    case InsertRolePermission(role, id) =>
      role in db.roles && id in db.permissions && (role, id) !in db.rolePermissions
    case DeleteRolePermission(role, id) => true
    case InsertUserRole(user, role) => user in db.users && role in db.roles && (user, role) !in db.userRoles
    case DeleteUserRole(user, role) => true
    case InsertGroupRole(group, role) => group in db.groups && role in db.roles && (group, role) !in db.groupRoles
    case DeleteGroupRole(group, role) => true
    case InsertUserGroup(user, group) => user in db.users && group in db.groups && (user, group) !in db.userGroups
    case DeleteUserGroup(user, group) => true
  }

  function Execute(db: Db, s: Statement): Db {
    if !Accepts(db, s) then db else
    match s
    case InsertUser(id) => db.(users := db.users + {id})
    case DeleteUser(id) => db.(users := db.users - {id},
                               userGroups := (set x | x in db.userGroups && x.0 != id),
                               userRoles := (set x | x in db.userRoles && x.0 != id))
    case InsertGroup(id, name, parent) => db.(groups := db.groups[id := Group(name, parent)])
    case InsertRole(id, name) => db.(roles := db.roles[id := name])
    case DeleteRole(id) => db.(roles := db.roles - {id},
                               rolePermissions := (set x | x in db.rolePermissions && x.0 != id),
                               groupRoles := (set x | x in db.groupRoles && x.1 != id),
                               userRoles := (set x | x in db.userRoles && x.1 != id))
    case InsertPermission(id, p) => db.(permissions := db.permissions[id := p])
    case InsertRolePermission(role, id) => db.(rolePermissions := db.rolePermissions + {(role, id)})
    case DeleteRolePermission(role, id) => db.(rolePermissions := db.rolePermissions - {(role, id)})
    case InsertUserRole(user, role) => db.(userRoles := db.userRoles + {(user, role)})
    case DeleteUserRole(user, role) => db.(userRoles := db.userRoles - {(user, role)})
    case InsertGroupRole(group, role) => db.(groupRoles := db.groupRoles + {(group, role)})
    case DeleteGroupRole(group, role) => db.(groupRoles := db.groupRoles - {(group, role)})
    case InsertUserGroup(user, group) => db.(userGroups := db.userGroups + {(user, group)})
    case DeleteUserGroup(user, group) => db.(userGroups := db.userGroups - {(user, group)})
  }

  lemma ExecuteKeepsForeignKeys(db: Db, s: Statement)
    requires ForeignKeysHold(db)
    ensures ForeignKeysHold(Execute(db, s))
  {
  }

  /* ---- Resolution ---- */

  datatype Resolved = Resolved(userID: Id, roleNames: seq<string>, permissions: seq<Permission>)

  function ParentsOf(db: Db): Parents {
    map g | g in db.groups && db.groups[g].parent.Some? :: db.groups[g].parent.value
  }

  function GroupsOf(db: Db, user: Id): set<Id> {
    set x | x in db.userGroups && x.0 == user :: x.1
  }

  function RolesFor(db: Db, user: Id, groups: seq<Id>): set<Id> {
    (set x | x in db.userRoles && x.0 == user :: x.1) + (set x | x in db.groupRoles && x.0 in groups :: x.1)
  }

  function NamesOf(db: Db, roles: set<Id>): set<string> {
    set r | r in roles && r in db.roles :: db.roles[r]
  }

  function PermissionsOf(db: Db, roles: set<Id>): set<Permission> {
    set x | x in db.rolePermissions && x.0 in roles && x.1 in db.permissions :: db.permissions[x.1]
  }

  // The roles of a user whose groups the database lists in this order
  function EffectiveRoles(db: Db, user: Id, order: seq<Id>): set<Id> {
    RolesFor(db, user, Expanded(ParentsOf(db), order, |order|))
  }

  ghost predicate Lists<T(!new)>(rows: seq<T>, s: set<T>) {
    forall x :: x in rows <==> x in s
  }

  ghost predicate ResolvesWith(db: Db, user: Id, order: seq<Id>, r: Resolved) {
    && Lists(order, GroupsOf(db, user))
    && r.userID == user
    && Lists(r.roleNames, NamesOf(db, EffectiveRoles(db, user, order)))
    && Lists(r.permissions, PermissionsOf(db, EffectiveRoles(db, user, order)))
  }

  // `r` is what reading these tables may give for `user`.
  ghost predicate ResolvesTo(db: Db, user: Id, r: Resolved) {
    exists order :: ResolvesWith(db, user, order, r)
  }

  ghost predicate ShortChains(db: Db, user: Id) {
    forall g :: g in GroupsOf(db, user) ==> Short(ParentsOf(db), g, GUARD)
  }

  /* ---- A permission means a grant path ---- */

  ghost predicate RoleReaches(db: Db, user: Id, role: Id) {
    || (user, role) in db.userRoles
    || exists g, h :: (user, g) in db.userGroups && Reaches(ParentsOf(db), g, h) && (h, role) in db.groupRoles
  }

  ghost predicate GrantPath(db: Db, user: Id, resource: string, action: string) {
    exists role, id ::
      && RoleReaches(db, user, role) && (role, id) in db.rolePermissions && id in db.permissions
      && db.permissions[id].action == action && db.permissions[id].Matches(resource)
  }

  lemma EffectiveRolesAreReached(db: Db, user: Id, order: seq<Id>, role: Id)
    requires Lists(order, GroupsOf(db, user)) && ShortChains(db, user)
    ensures role in EffectiveRoles(db, user, order) <==> RoleReaches(db, user, role)
  {
    var parents := ParentsOf(db);
    var all := Expanded(parents, order, |order|);
    forall k | 0 <= k < |order| ensures Short(parents, order[k], GUARD) {
      assert order[k] in GroupsOf(db, user);
    }
    ExpansionIsClosure(parents, order);
    forall h ensures h in all <==> exists g :: (user, g) in db.userGroups && Reaches(parents, g, h) {
      if h in all {
        assert ReachedFrom(parents, order, |order|, h);
        var k :| 0 <= k < |order| && Reaches(parents, order[k], h);
        assert order[k] in GroupsOf(db, user);
      }
      if g :| (user, g) in db.userGroups && Reaches(parents, g, h) {
        assert g in GroupsOf(db, user) && g in order;
        assert ReachedFrom(parents, order, |order|, h);
      }
    }
  }

  // Within the depth guard there is one resolution, up to order and repetition, however the database orders its rows.
  lemma ResolutionIsUnique(db: Db, user: Id, a: Resolved, b: Resolved)
    requires ResolvesTo(db, user, a) && ResolvesTo(db, user, b) && ShortChains(db, user)
    ensures a.userID == b.userID
    ensures forall p :: p in a.permissions <==> p in b.permissions
    ensures forall n :: n in a.roleNames <==> n in b.roleNames
  {
    var order :| ResolvesWith(db, user, order, a);
    var other :| ResolvesWith(db, user, other, b);
    forall role ensures role in EffectiveRoles(db, user, order) <==> role in EffectiveRoles(db, user, other) {
      EffectiveRolesAreReached(db, user, order, role);
      EffectiveRolesAreReached(db, user, other, role);
    }
    assert EffectiveRoles(db, user, order) == EffectiveRoles(db, user, other);
  }

  lemma HasMeansGrantPath(db: Db, user: Id, r: Resolved, resource: string, action: string)
    requires ResolvesTo(db, user, r) && ShortChains(db, user)
    ensures Has(r.permissions, resource, action) <==> GrantPath(db, user, resource, action)
  {
    var order :| ResolvesWith(db, user, order, r);
    var roles := EffectiveRoles(db, user, order);
    if Has(r.permissions, resource, action) {
      var i :| 0 <= i < |r.permissions| && r.permissions[i].action == action && r.permissions[i].Matches(resource);
      assert r.permissions[i] in PermissionsOf(db, roles);
      var x :| x in db.rolePermissions && x.0 in roles && x.1 in db.permissions
               && db.permissions[x.1] == r.permissions[i];
      EffectiveRolesAreReached(db, user, order, x.0);
      assert (x.0, x.1) in db.rolePermissions;
    }
    if GrantPath(db, user, resource, action) {
      var role, id :|
        && RoleReaches(db, user, role) && (role, id) in db.rolePermissions && id in db.permissions
        && db.permissions[id].action == action && db.permissions[id].Matches(resource);
      EffectiveRolesAreReached(db, user, order, role);
      assert (role, id).0 in roles;
      assert db.permissions[id] in r.permissions;
    }
  }

  // The role names of a resolution, which tokens carry, are those of the roles the user is granted.
  lemma RoleNamesAreReached(db: Db, user: Id, r: Resolved, name: string)
    requires ResolvesTo(db, user, r) && ShortChains(db, user)
    ensures name in r.roleNames <==>
            exists role :: RoleReaches(db, user, role) && role in db.roles && db.roles[role] == name
  {
    var order :| ResolvesWith(db, user, order, r);
    var roles := EffectiveRoles(db, user, order);
    assert name in r.roleNames <==> name in NamesOf(db, roles);
    if name in NamesOf(db, roles) {
      var role :| role in roles && role in db.roles && db.roles[role] == name;
      EffectiveRolesAreReached(db, user, order, role);
    }
    if role :| RoleReaches(db, user, role) && role in db.roles && db.roles[role] == name {
      EffectiveRolesAreReached(db, user, order, role);
    }
  }

  /* ---- Which resolutions a statement can change ---- */

  datatype Audience = Nobody | One(user: Id) | Everybody {
    predicate Includes(u: Id) {
      Everybody? || (One? && user == u)
    }
  }

  // Whose cached resolution the service drops after each statement
  function Invalidates(s: Statement): Audience {
    match s
    case InsertUser(id) => One(id)
    case DeleteUser(id) => One(id)
    case InsertUserRole(user, _) => One(user)
    case DeleteUserRole(user, _) => One(user)
    case InsertUserGroup(user, _) => One(user)
    case DeleteUserGroup(user, _) => One(user)
    case InsertGroup(_, _, _) => Nobody
    case InsertRole(_, _) => Nobody
    case InsertPermission(_, _) => Nobody
    case _ => Everybody
  }

  lemma {:induction false} WalkIgnoresNewGroup(
      db: Db, p: Parents, q: Parents, cur: Id, result: seq<Id>, fuel: nat, added: Id)
    requires ForeignKeysHold(db) && p == ParentsOf(db) && added !in db.groups && added != ""
    requires forall g :: g != added ==> ParentOf(q, g) == ParentOf(p, g)
    requires cur == "" || cur in db.groups
    ensures Walk(q, cur, result, fuel) == Walk(p, cur, result, fuel)
    decreases fuel
  {
    if fuel > 0 && cur != "" && cur !in result {
      WalkIgnoresNewGroup(db, p, q, ParentOf(p, cur), result + [cur], fuel - 1, added);
    }
  }

  lemma {:induction false} ExpansionIgnoresNewGroup(
      db: Db, p: Parents, q: Parents, order: seq<Id>, n: nat, added: Id)
    requires ForeignKeysHold(db) && p == ParentsOf(db) && added !in db.groups && added != ""
    requires forall g :: g != added ==> ParentOf(q, g) == ParentOf(p, g)
    requires n <= |order| && forall k :: 0 <= k < |order| ==> order[k] in db.groups
    ensures Expanded(q, order, n) == Expanded(p, order, n)
  {
    if n > 0 {
      ExpansionIgnoresNewGroup(db, p, q, order, n - 1, added);
      WalkIgnoresNewGroup(db, p, q, order[n - 1], Expanded(p, order, n - 1), GUARD, added);
    }
  }

  lemma RolesUnchanged(db: Db, s: Statement, user: Id, order: seq<Id>)
    requires ForeignKeysHold(db) && !Invalidates(s).Includes(user)
    requires Lists(order, GroupsOf(db, user))
    ensures EffectiveRoles(Execute(db, s), user, order) == EffectiveRoles(db, user, order)
  {
    var db' := Execute(db, s);
    if s.InsertGroup? && Accepts(db, s) {
      forall k | 0 <= k < |order| ensures order[k] in db.groups {
        assert order[k] in GroupsOf(db, user);
      }
      ExpansionIgnoresNewGroup(db, ParentsOf(db), ParentsOf(db'), order, |order|, s.id);
    } else {
      assert ParentsOf(db') == ParentsOf(db);
    }
    forall x ensures x in db'.userRoles && x.0 == user <==> x in db.userRoles && x.0 == user {}
  }

  lemma GroupsUnchanged(db: Db, s: Statement, user: Id)
    requires !Invalidates(s).Includes(user)
    ensures GroupsOf(Execute(db, s), user) == GroupsOf(db, user)
  {
  }

  lemma RowsUnchanged(db: Db, s: Statement, user: Id, roles: set<Id>)
    requires ForeignKeysHold(db) && !Invalidates(s).Includes(user) && roles <= db.roles.Keys
    ensures NamesOf(Execute(db, s), roles) == NamesOf(db, roles)
    ensures PermissionsOf(Execute(db, s), roles) == PermissionsOf(db, roles)
  {
  }

  lemma ReadingUnchanged(db: Db, s: Statement, user: Id, order: seq<Id>, r: Resolved)
    requires ForeignKeysHold(db) && !Invalidates(s).Includes(user)
    ensures ResolvesWith(Execute(db, s), user, order, r) <==> ResolvesWith(db, user, order, r)
  {
    GroupsUnchanged(db, s, user);
    if Lists(order, GroupsOf(db, user)) {
      RolesUnchanged(db, s, user, order);
      RowsUnchanged(db, s, user, EffectiveRoles(db, user, order));
    }
  }

  // A statement leaves the resolution of everybody it does not invalidate as it was. For new groups, roles and
  // permissions, which invalidate nobody, this holds because no row refers to the new id yet.
  lemma OthersUnaffected(db: Db, s: Statement, user: Id, r: Resolved)
    requires ForeignKeysHold(db) && !Invalidates(s).Includes(user)
    ensures ResolvesTo(Execute(db, s), user, r) <==> ResolvesTo(db, user, r)
  {
    forall order ensures ResolvesWith(Execute(db, s), user, order, r) <==> ResolvesWith(db, user, order, r) {
      ReadingUnchanged(db, s, user, order, r);
    }
  }

  /* ---- Cache coherence ---- */

  function Key(user: Id): string {
    RBAC_PREFIX + user
  }

  lemma KeyInjective(u: Id, v: Id)
    ensures Key(u) == Key(v) ==> u == v
  {
    assert u == Key(u)[|RBAC_PREFIX|..] && v == Key(v)[|RBAC_PREFIX|..];
  }

  function Dropped(store: Store<Resolved>, audience: Audience): Store<Resolved> {
    match audience
    case Nobody => store
    case One(user) => Without(store, [Key(user)])
    case Everybody => WithoutPrefix(store, RBAC_PREFIX)
  }

  // Every live cached resolution is what the tables give now.
  ghost predicate Coherent(db: Db, store: Store<Resolved>, now: int) {
    forall user :: LiveAt(store, Key(user), now) ==> ResolvesTo(db, user, store[Key(user)].value)
  }

  datatype Event =
    | Wrote(statement: Statement)                              // a service call that writes, then invalidates
    | Asked(user: Id, answer: Resolved)                        // Resolve; on a miss the tables gave `answer`
    | Elapsed(time: nat)
    | Reaping
    | Elsewhere(key: string, entry: Option<Entry<Resolved>>)   // other components' entries come and go

  datatype System = System(db: Db, store: Store<Resolved>, now: int)

  ghost function Next(s: System, e: Event, ttl: int): System {
    match e
    case Wrote(st) =>
      if Accepts(s.db, st) then s.(db := Execute(s.db, st), store := Dropped(s.store, Invalidates(st))) else s
    case Asked(user, answer) =>
      if !LiveAt(s.store, Key(user), s.now) && ResolvesTo(s.db, user, answer)
      then s.(store := Put(s.store, Key(user), answer, ttl, s.now)) else s
    case Elapsed(time) => s.(now := s.now + time)
    case Reaping => s.(store := Reaped(s.store, s.now))
    case Elsewhere(key, entry) =>
      if HasPrefix(key, RBAC_PREFIX) then s
      else s.(store := if entry.Some? then s.store[key := entry.value] else s.store - {key})
  }

  ghost function After(s: System, events: seq<Event>, ttl: int): System
    decreases |events|
  {
    if events == [] then s else After(Next(s, events[0], ttl), events[1..], ttl)
  }

  ghost predicate Sound(s: System) {
    ForeignKeysHold(s.db) && Coherent(s.db, s.store, s.now)
  }

  lemma WriteKeepsCoherence(db: Db, store: Store<Resolved>, st: Statement, now: int)
    requires ForeignKeysHold(db) && Coherent(db, store, now)
    ensures Coherent(Execute(db, st), Dropped(store, Invalidates(st)), now)
  {
    var store' := Dropped(store, Invalidates(st));
    forall user | LiveAt(store', Key(user), now)
      ensures ResolvesTo(Execute(db, st), user, store'[Key(user)].value)
    {
      assert HasPrefix(Key(user), RBAC_PREFIX);
      assert Key(user) in [Key(user)];
      assert !Invalidates(st).Includes(user);
      OthersUnaffected(db, st, user, store[Key(user)].value);
    }
  }

  lemma NextKeepsSound(s: System, e: Event, ttl: int)
    requires Sound(s)
    ensures Sound(Next(s, e, ttl))
  {
    match e
    case Wrote(st) =>
      ExecuteKeepsForeignKeys(s.db, st);
      WriteKeepsCoherence(s.db, s.store, st, s.now);
    case Asked(user, answer) =>
      forall v ensures Key(v) == Key(user) ==> v == user { KeyInjective(v, user); }
    case Elsewhere(key, entry) =>
      forall v ensures HasPrefix(Key(v), RBAC_PREFIX) {}
    case _ =>
  }

  // Over any run every live cached resolution is what reading the tables gives now.
  lemma {:induction false} CoherentThroughout(s: System, events: seq<Event>, ttl: int)
    requires Sound(s)
    ensures Sound(After(s, events, ttl))
    decreases |events|
  {
    if events != [] {
      NextKeepsSound(s, events[0], ttl);
      CoherentThroughout(Next(s, events[0], ttl), events[1..], ttl);
    }
  }
}
