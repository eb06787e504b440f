/** The role service: `Resolver` reads the tables through a cache, `Admin` writes them and drops the cached
    resolutions a write can affect. */
module RbacService {
  import opened Text
  import opened Groups
  import opened Scopes
  import opened TimedCache
  import opened Directory
  import opened TableRows

  const TTL := 300  // five minutes, in seconds

  // The rows of a query, in whatever order the database returns them
  method QueryRows<T(==)>(s: set<T>) returns (rows: seq<T>)
    ensures forall x :: x in rows <==> x in s
  {
    rows := [];
    var left := s;
    while left != {}
      invariant left <= s
      invariant forall x :: x in rows <==> x in s && x !in left
      decreases |left|
    {
      var x :| x in left;
      rows := rows + [x];
      left := left - {x};
    }
  }

  class Database {
    var tables: Db

    constructor (db: Db)
      ensures tables == db
    {
      tables := db;
    }

    method Exec(s: Statement) returns (ok: bool)
      modifies this
      ensures ok == Accepts(old(tables), s) && tables == Execute(old(tables), s)
    {
      ok := Accepts(tables, s);
      tables := Execute(tables, s);
    }
  }

  class Resolver {
    const db: Database
    const cache: MemoryCache<Resolved>
    const ttl: int

    constructor (database: Database, c: MemoryCache<Resolved>)
      ensures db == database && cache == c && ttl == 300
    {
      db, cache, ttl := database, c, TTL;
    }

    ghost predicate Consistent(now: int)
      reads db, cache
    {
      ForeignKeysHold(db.tables) && Coherent(db.tables, cache.data, now)
    }

    method RoleIDsFor(userID: Id, groupIDs: seq<Id>) returns (roleIDs: seq<Id>, names: seq<string>)
      ensures Lists(roleIDs, RolesFor(db.tables, userID, groupIDs))
      ensures Lists(names, NamesOf(db.tables, RolesFor(db.tables, userID, groupIDs)))
    {
      var roleIDSet: set<Id> := {};
      var direct := QueryRows(set x | x in db.tables.userRoles && x.0 == userID :: x.1);
      for i := 0 to |direct|
        invariant roleIDSet == set x | x in direct[..i]
      {
        roleIDSet := roleIDSet + {direct[i]};
      }
      ghost var directSet := roleIDSet;
      assert direct[..|direct|] == direct;
      if |groupIDs| > 0 {
        var viaGroups := QueryRows(set x | x in db.tables.groupRoles && x.0 in groupIDs :: x.1);
        for i := 0 to |viaGroups|
          invariant roleIDSet == directSet + set x | x in viaGroups[..i]
        {
          roleIDSet := roleIDSet + {viaGroups[i]};
        }
        assert viaGroups[..|viaGroups|] == viaGroups;
      }
      assert roleIDSet == RolesFor(db.tables, userID, groupIDs);
      roleIDs := QueryRows(roleIDSet);
      if roleIDs == [] {
        assert roleIDSet == {} by { forall r ensures r !in roleIDSet {} }
        return [], [];
      }
      names := QueryRows(NamesOf(db.tables, roleIDSet));
    }

    method PermissionsFor(roleIDs: seq<Id>) returns (permissions: seq<Permission>)
      ensures Lists(permissions, PermissionsOf(db.tables, set r | r in roleIDs))
    {
      if roleIDs == [] { return []; }
      permissions := QueryRows(PermissionsOf(db.tables, set r | r in roleIDs));
    }

    method ResolveFromDB(userID: Id) returns (resolved: Resolved)
      ensures ResolvesTo(db.tables, userID, resolved)
    {
      var groupIDs := QueryRows(GroupsOf(db.tables, userID));
      var allGroupIDs := ExpandAncestorGroups(ParentsOf(db.tables), groupIDs);
      var roleIDs, roleNames := RoleIDsFor(userID, allGroupIDs);
      var permissions := PermissionsFor(roleIDs);
      resolved := Resolved(userID, roleNames, permissions);
      assert ResolvesWith(db.tables, userID, groupIDs, resolved) by {
        assert RolesFor(db.tables, userID, allGroupIDs) == EffectiveRoles(db.tables, userID, groupIDs);
        assert forall r :: r in roleIDs <==> r in RolesFor(db.tables, userID, allGroupIDs);
      }
    }

    // Serves the live cached resolution, or reads the tables and caches what they give.
    method Resolve(userID: Id, now: int) returns (resolved: Resolved)
      modifies cache
      ensures LiveAt(old(cache.data), Key(userID), now) ==>
                resolved == old(cache.data)[Key(userID)].value && cache.data == old(cache.data)
      ensures !LiveAt(old(cache.data), Key(userID), now) ==>
                ResolvesTo(db.tables, userID, resolved)
                && cache.data == Put(old(cache.data), Key(userID), resolved, ttl, now)
                && SameElsewhere(old(cache.data), cache.data, ["rbac:user:" + userID])
    {
      var key := RBAC_PREFIX + userID;
      var cached := cache.Get(key, now);
      if cached.Some? { return cached.value; }
      resolved := ResolveFromDB(userID);
      cache.Set(key, resolved, ttl, now);
    }

    // With a coherent cache the answer is the grant path in the tables as they are now, cached or not.
    method HasPermission(userID: Id, resource: string, action: string, now: int) returns (allowed: bool)
      modifies cache
      ensures old(Consistent(now)) ==> Consistent(now)
      ensures old(Consistent(now)) && ShortChains(db.tables, userID) ==>
                (allowed <==> GrantPath(db.tables, userID, resource, action))
    {
      ghost var before := System(db.tables, cache.data, now);
      var resolved := Resolve(userID, now);
      allowed := Has(resolved.permissions, resource, action);
      if Sound(before) {
        NextKeepsSound(before, Asked(userID, resolved), ttl);
        if ShortChains(db.tables, userID) {
          HasMeansGrantPath(db.tables, userID, resolved, resource, action);
        }
      }
    }

    method Invalidate(userID: Id)
      modifies cache
      ensures cache.data == Dropped(old(cache.data), One(userID))
      ensures KeysGone(old(cache.data), cache.data, ["rbac:user:" + userID])
    {
      cache.Delete([RBAC_PREFIX + userID]);
    }

    method InvalidateAll()
      modifies cache
      ensures cache.data == Dropped(old(cache.data), Everybody)
      ensures PrefixGone(old(cache.data), cache.data, "rbac:user:")
    {
      cache.DeletePrefix(RBAC_PREFIX);
    }
  }

  class Admin {
    const db: Database
    const r: Resolver

    constructor (database: Database, resolver: Resolver)
      requires resolver.db == database
      ensures db == database && r == resolver
    {
      db, r := database, resolver;
    }

    // What every write does: the statement, and then the cached resolutions of its audience are gone.
    twostate predicate Did(s: Statement, ok: bool)
      reads db, r.cache
    {
      && ok == Accepts(old(db.tables), s)
      && db.tables == Execute(old(db.tables), s)
      && r.cache.data == if ok then Dropped(old(r.cache.data), Invalidates(s)) else old(r.cache.data)
    }

    // Each write keeps the cache coherent, at every time.
    twostate lemma DidKeepsCoherence(s: Statement, ok: bool, now: int)
      requires Did(s, ok)
      requires ForeignKeysHold(old(db.tables)) && Coherent(old(db.tables), old(r.cache.data), now)
      ensures ForeignKeysHold(db.tables) && Coherent(db.tables, r.cache.data, now)
    {
      ExecuteKeepsForeignKeys(old(db.tables), s);
      if ok { WriteKeepsCoherence(old(db.tables), old(r.cache.data), s, now); }
    }

    twostate predicate NothingChanged()
      reads db, r.cache
    {
      db.tables == old(db.tables) && r.cache.data == old(r.cache.data)
    }

    method CreateRole(id: Id, name: string) returns (ok: bool)
      modifies db, r.cache
      ensures Did(InsertRole(id, name), ok)
      ensures !ok ==> NothingChanged()
      ensures ok ==> RowAdded(old(db.tables), db.tables, RoleRow(id, name))
      ensures old(ForeignKeysHold(db.tables)) ==> GrantsSame(old(db.tables), db.tables)
      ensures r.cache.data == old(r.cache.data)
    {
      ghost var before := db.tables;
      ok := db.Exec(InsertRole(id, name));
      if ok { InsertionAddsRow(before, RoleRow(id, name)); }
      if ok && ForeignKeysHold(before) { NewEntityGrantsNothing(before, RoleRow(id, name)); }
    }

    method DeleteRole(id: Id) returns (ok: bool)
      modifies db, r.cache
      ensures Did(Statement.DeleteRole(id), ok)
      ensures !ok ==> NothingChanged()
      ensures ok && RoleGone(old(db.tables), db.tables, id) && GrantsLoseRole(old(db.tables), db.tables, id)
      ensures ok ==> PrefixGone(old(r.cache.data), r.cache.data, "rbac:user:")
    {
      ghost var before := db.tables;
      ok := db.Exec(Statement.DeleteRole(id));
      DeletionCascades(before, id);
      RoleLoses(before, id);
      if !ok { return; }
      r.InvalidateAll();
    }

    method CreatePermission(id: Id, permission: Permission) returns (ok: bool)
      modifies db, r.cache
      ensures Did(InsertPermission(id, permission), ok)
      ensures !ok ==> NothingChanged()
      ensures ok ==> RowAdded(old(db.tables), db.tables, PermissionRow(id, permission))
      ensures old(ForeignKeysHold(db.tables)) ==> GrantsSame(old(db.tables), db.tables)
      ensures r.cache.data == old(r.cache.data)
    {
      ghost var before := db.tables;
      ok := db.Exec(InsertPermission(id, permission));
      if ok { InsertionAddsRow(before, PermissionRow(id, permission)); }
      if ok && ForeignKeysHold(before) { NewEntityGrantsNothing(before, PermissionRow(id, permission)); }
    }

    method GrantPermissionToRole(roleID: Id, permissionID: Id) returns (ok: bool)
      modifies db, r.cache
      ensures Did(InsertRolePermission(roleID, permissionID), ok)
      ensures !ok ==> NothingChanged()
      ensures ok ==> RowAdded(old(db.tables), db.tables, RolePermissionRow(roleID, permissionID))
      ensures ok ==> GrantsGain(old(db.tables), db.tables, RolePermissionRow(roleID, permissionID))
      ensures ok ==> PrefixGone(old(r.cache.data), r.cache.data, "rbac:user:")
    {
      ghost var before, row := db.tables, RolePermissionRow(roleID, permissionID);
      ok := db.Exec(InsertRolePermission(roleID, permissionID));
      if ok { InsertionAddsRow(before, row); LinkGains(before, row); }
      if !ok { return; }
      r.InvalidateAll();
    }

    method RevokePermissionFromRole(roleID: Id, permissionID: Id) returns (ok: bool)
      modifies db, r.cache
      ensures Did(DeleteRolePermission(roleID, permissionID), ok)
      ensures !ok ==> NothingChanged()
      ensures ok && RowGone(old(db.tables), db.tables, RolePermissionRow(roleID, permissionID))
      ensures GrantsLose(old(db.tables), db.tables, RolePermissionRow(roleID, permissionID))
      ensures ok ==> PrefixGone(old(r.cache.data), r.cache.data, "rbac:user:")
    {
      ghost var before, row := db.tables, RolePermissionRow(roleID, permissionID);
      ok := db.Exec(DeleteRolePermission(roleID, permissionID));
      DeletionRemovesRow(before, row);
      LinkLoses(before, row);
      if !ok { return; }
      r.InvalidateAll();
    }

    method AssignRoleToUser(userID: Id, roleID: Id) returns (ok: bool)
      modifies db, r.cache
      ensures Did(InsertUserRole(userID, roleID), ok)
      ensures !ok ==> NothingChanged()
      ensures ok ==> RowAdded(old(db.tables), db.tables, UserRoleRow(userID, roleID))
      ensures ok ==> GrantsGain(old(db.tables), db.tables, UserRoleRow(userID, roleID))
      ensures ok ==> KeysGone(old(r.cache.data), r.cache.data, ["rbac:user:" + userID])
    {
      ghost var before, row := db.tables, UserRoleRow(userID, roleID);
      ok := db.Exec(InsertUserRole(userID, roleID));
      if ok { InsertionAddsRow(before, row); LinkGains(before, row); }
      if !ok { return; }
      r.Invalidate(userID);
    }

    method RemoveRoleFromUser(userID: Id, roleID: Id) returns (ok: bool)
      modifies db, r.cache
      ensures Did(DeleteUserRole(userID, roleID), ok)
      ensures !ok ==> NothingChanged()
      ensures ok && RowGone(old(db.tables), db.tables, UserRoleRow(userID, roleID))
      ensures GrantsLose(old(db.tables), db.tables, UserRoleRow(userID, roleID))
      ensures ok ==> KeysGone(old(r.cache.data), r.cache.data, ["rbac:user:" + userID])
    {
      ghost var before, row := db.tables, UserRoleRow(userID, roleID);
      ok := db.Exec(DeleteUserRole(userID, roleID));
      DeletionRemovesRow(before, row);
      LinkLoses(before, row);
      if !ok { return; }
      r.Invalidate(userID);
    }

    method AssignRoleToGroup(groupID: Id, roleID: Id) returns (ok: bool)
      modifies db, r.cache
      ensures Did(InsertGroupRole(groupID, roleID), ok)
      ensures !ok ==> NothingChanged()
      ensures ok ==> RowAdded(old(db.tables), db.tables, GroupRoleRow(groupID, roleID))
      ensures ok ==> GrantsGain(old(db.tables), db.tables, GroupRoleRow(groupID, roleID))
      ensures ok ==> PrefixGone(old(r.cache.data), r.cache.data, "rbac:user:")
    {
      ghost var before, row := db.tables, GroupRoleRow(groupID, roleID);
      ok := db.Exec(InsertGroupRole(groupID, roleID));
      if ok { InsertionAddsRow(before, row); LinkGains(before, row); }
      if !ok { return; }
      r.InvalidateAll();
    }

    method RemoveRoleFromGroup(groupID: Id, roleID: Id) returns (ok: bool)
      modifies db, r.cache
      ensures Did(DeleteGroupRole(groupID, roleID), ok)
      ensures !ok ==> NothingChanged()
      ensures ok && RowGone(old(db.tables), db.tables, GroupRoleRow(groupID, roleID))
      ensures GrantsLose(old(db.tables), db.tables, GroupRoleRow(groupID, roleID))
      ensures ok ==> PrefixGone(old(r.cache.data), r.cache.data, "rbac:user:")
    {
      ghost var before, row := db.tables, GroupRoleRow(groupID, roleID);
      ok := db.Exec(DeleteGroupRole(groupID, roleID));
      DeletionRemovesRow(before, row);
      LinkLoses(before, row);
      if !ok { return; }
      r.InvalidateAll();
    }

    method CreateGroup(id: Id, name: string, parentGroupID: Option<Id>) returns (ok: bool)
      modifies db, r.cache
      ensures Did(InsertGroup(id, name, parentGroupID), ok)
      ensures !ok ==> NothingChanged()
      ensures ok ==> RowAdded(old(db.tables), db.tables, GroupRow(id, name, parentGroupID))
      ensures old(ForeignKeysHold(db.tables)) ==> GrantsSame(old(db.tables), db.tables)
      ensures r.cache.data == old(r.cache.data)
    {
      ghost var before := db.tables;
      ok := db.Exec(InsertGroup(id, name, parentGroupID));
      if ok { InsertionAddsRow(before, GroupRow(id, name, parentGroupID)); }
      if ok && ForeignKeysHold(before) { NewEntityGrantsNothing(before, GroupRow(id, name, parentGroupID)); }
    }

    method AddUserToGroup(userID: Id, groupID: Id) returns (ok: bool)
      modifies db, r.cache
      ensures Did(InsertUserGroup(userID, groupID), ok)
      ensures !ok ==> NothingChanged()
      ensures ok ==> RowAdded(old(db.tables), db.tables, UserGroupRow(userID, groupID))
      ensures ok ==> GrantsGain(old(db.tables), db.tables, UserGroupRow(userID, groupID))
      ensures ok ==> KeysGone(old(r.cache.data), r.cache.data, ["rbac:user:" + userID])
    {
      ghost var before, row := db.tables, UserGroupRow(userID, groupID);
      ok := db.Exec(InsertUserGroup(userID, groupID));
      if ok { InsertionAddsRow(before, row); LinkGains(before, row); }
      if !ok { return; }
      r.Invalidate(userID);
    }

    method RemoveUserFromGroup(userID: Id, groupID: Id) returns (ok: bool)
      modifies db, r.cache
      ensures Did(DeleteUserGroup(userID, groupID), ok)
      ensures !ok ==> NothingChanged()
      ensures ok && RowGone(old(db.tables), db.tables, UserGroupRow(userID, groupID))
      ensures GrantsLose(old(db.tables), db.tables, UserGroupRow(userID, groupID))
      ensures ok ==> KeysGone(old(r.cache.data), r.cache.data, ["rbac:user:" + userID])
    {
      ghost var before, row := db.tables, UserGroupRow(userID, groupID);
      ok := db.Exec(DeleteUserGroup(userID, groupID));
      DeletionRemovesRow(before, row);
      LinkLoses(before, row);
      if !ok { return; }
      r.Invalidate(userID);
    }

    // The user handlers of the HTTP server write through the user repository and invalidate the user themselves.
    method HandleCreateUser(id: Id) returns (ok: bool)
      modifies db, r.cache
      ensures Did(InsertUser(id), ok)
      ensures !ok ==> NothingChanged()
      ensures ok ==> RowAdded(old(db.tables), db.tables, UserRow(id))
      ensures old(ForeignKeysHold(db.tables)) ==> GrantsSame(old(db.tables), db.tables)
      ensures ok ==> KeysGone(old(r.cache.data), r.cache.data, ["rbac:user:" + id])
    {
      ghost var before := db.tables;
      ok := db.Exec(InsertUser(id));
      if ok { InsertionAddsRow(before, UserRow(id)); }
      if ok && ForeignKeysHold(before) { NewEntityGrantsNothing(before, UserRow(id)); }
      if !ok { return; }
      r.Invalidate(id);
    }

    method HandleDeleteUser(id: Id) returns (ok: bool)
      modifies db, r.cache
      ensures Did(DeleteUser(id), ok)
      ensures !ok ==> NothingChanged()
      ensures ok <==> id in old(db.tables).users
      ensures ok ==> UserGone(old(db.tables), db.tables, id) && GrantsLoseUser(old(db.tables), db.tables, id)
      ensures ok ==> KeysGone(old(r.cache.data), r.cache.data, ["rbac:user:" + id])
    {
      ghost var before := db.tables;
      ok := db.Exec(DeleteUser(id));
      if ok { DeletionCascades(before, id); UserLoses(before, id); }
      if !ok { return; }
      r.Invalidate(id);
    }
  }
}
