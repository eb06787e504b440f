/** The role tables row by row: what each statement does to the rows, when the database accepts it, and what that
    means for the paths over which users are granted permissions. */
module TableRows {
  import opened Text
  import opened Groups
  import opened Scopes
  import opened Directory

  datatype Row =
    | UserRow(id: Id)
    | GroupRow(id: Id, name: string, parent: Option<Id>)
    | RoleRow(id: Id, name: string)
    | PermissionRow(id: Id, permission: Permission)
    | UserGroupRow(user: Id, group: Id)
    | RolePermissionRow(role: Id, permissionID: Id)
    | GroupRoleRow(group: Id, role: Id)
    | UserRoleRow(user: Id, role: Id)

  predicate In(db: Db, row: Row) {
    match row
    case UserRow(id) => id in db.users
    case GroupRow(id, name, parent) => id in db.groups && db.groups[id] == Group(name, parent)
    case RoleRow(id, name) => id in db.roles && db.roles[id] == name
    case PermissionRow(id, permission) => id in db.permissions && db.permissions[id] == permission
    case UserGroupRow(user, group) => (user, group) in db.userGroups
    case RolePermissionRow(role, permissionID) => (role, permissionID) in db.rolePermissions
    case GroupRoleRow(group, role) => (group, role) in db.groupRoles
    case UserRoleRow(user, role) => (user, role) in db.userRoles
  }

  predicate IsLink(row: Row) {
    row.UserGroupRow? || row.RolePermissionRow? || row.GroupRoleRow? || row.UserRoleRow?
  }

  /* ---- What a statement does to the rows ---- */

  ghost predicate RowAdded(before: Db, after: Db, row: Row) {
    forall r :: In(after, r) <==> In(before, r) || r == row
  }

  ghost predicate RowGone(before: Db, after: Db, row: Row) {
    forall r :: In(after, r) <==> In(before, r) && r != row
  }

  // The user is gone, with his memberships and his own roles, and nothing else.
  ghost predicate UserGone(before: Db, after: Db, id: Id) {
    forall r :: In(after, r) <==>
                In(before, r) && r != UserRow(id) && !((r.UserGroupRow? || r.UserRoleRow?) && r.user == id)
  }

  // The role is gone, with its permissions and its assignments to groups and users, and nothing else.
  ghost predicate RoleGone(before: Db, after: Db, id: Id) {
    forall r :: In(after, r) <==>
                In(before, r) && !(r.RoleRow? && r.id == id)
                && !((r.RolePermissionRow? || r.GroupRoleRow? || r.UserRoleRow?) && r.role == id)
  }

  function Insertion(row: Row): Statement {
    match row
    case UserRow(id) => InsertUser(id)
    case GroupRow(id, name, parent) => InsertGroup(id, name, parent)
    case RoleRow(id, name) => InsertRole(id, name)
    case PermissionRow(id, p) => InsertPermission(id, p)
    case UserGroupRow(user, group) => InsertUserGroup(user, group)
    case RolePermissionRow(role, id) => InsertRolePermission(role, id)
    case GroupRoleRow(group, role) => InsertGroupRole(group, role)
    case UserRoleRow(user, role) => InsertUserRole(user, role)
  }

  function Deletion(row: Row): Statement
    requires IsLink(row)
  {
    match row
    case UserGroupRow(user, group) => DeleteUserGroup(user, group)
    case RolePermissionRow(role, id) => DeleteRolePermission(role, id)
    case GroupRoleRow(group, role) => DeleteGroupRole(group, role)
    case UserRoleRow(user, role) => DeleteUserRole(user, role)
  }

  lemma EntityRowAdded(db: Db, row: Row)
    requires !IsLink(row) && Accepts(db, Insertion(row))
    ensures RowAdded(db, Execute(db, Insertion(row)), row)
  {
  }

  lemma LinkRowAdded(db: Db, row: Row)
    requires IsLink(row) && Accepts(db, Insertion(row))
    ensures RowAdded(db, Execute(db, Insertion(row)), row)
  {
  }

  // An accepted insertion adds its row and leaves all the others.
  lemma InsertionAddsRow(db: Db, row: Row)
    requires Accepts(db, Insertion(row))
    ensures RowAdded(db, Execute(db, Insertion(row)), row)
  {
    if IsLink(row) { LinkRowAdded(db, row); } else { EntityRowAdded(db, row); }
  }

  // The deletion of a link removes its row and leaves all the others.
  lemma DeletionRemovesRow(db: Db, row: Row)
    requires IsLink(row)
    ensures Accepts(db, Deletion(row)) && RowGone(db, Execute(db, Deletion(row)), row)
  {
  }

  // The deletions of users and roles remove the row with its cascade and leave all the others.
  lemma DeletionCascades(db: Db, id: Id)
    ensures Accepts(db, DeleteUser(id)) ==> UserGone(db, Execute(db, DeleteUser(id)), id)
    ensures Accepts(db, DeleteRole(id)) && RoleGone(db, Execute(db, DeleteRole(id)), id)
  {
  }

  lemma RefusedChangesNothing(db: Db, s: Statement)
    requires !Accepts(db, s)
    ensures Execute(db, s) == db
  {
  }

  /* ---- When the database accepts a row ---- */

  ghost predicate GroupNamesUnique(db: Db) {
    forall g, h :: g in db.groups && h in db.groups && db.groups[g].name == db.groups[h].name ==> g == h
  }

  ghost predicate RoleNamesUnique(db: Db) {
    forall r, q :: r in db.roles && q in db.roles && db.roles[r] == db.roles[q] ==> r == q
  }

  ghost predicate PermissionsUnique(db: Db) {
    forall p, q :: p in db.permissions && q in db.permissions && db.permissions[p] == db.permissions[q] ==> p == q
  }

  ghost predicate KeysHold(db: Db) {
    ForeignKeysHold(db) && GroupNamesUnique(db) && RoleNamesUnique(db) && PermissionsUnique(db)
  }

  // A row with the same primary key is there.
  predicate Taken(db: Db, row: Row) {
    match row
    case UserRow(id) => id in db.users
    case GroupRow(id, _, _) => id in db.groups
    case RoleRow(id, _) => id in db.roles
    case PermissionRow(id, _) => id in db.permissions
    case _ => In(db, row)
  }

  function WithRow(db: Db, row: Row): Db {
    match row
    case UserRow(id) => db.(users := db.users + {id})
    case GroupRow(id, name, parent) => db.(groups := db.groups[id := Group(name, parent)])
    case RoleRow(id, name) => db.(roles := db.roles[id := name])
    case PermissionRow(id, p) => db.(permissions := db.permissions[id := p])
    case UserGroupRow(user, group) => db.(userGroups := db.userGroups + {(user, group)})
    case RolePermissionRow(role, id) => db.(rolePermissions := db.rolePermissions + {(role, id)})
    case GroupRoleRow(group, role) => db.(groupRoles := db.groupRoles + {(group, role)})
    case UserRoleRow(user, role) => db.(userRoles := db.userRoles + {(user, role)})
  }

  lemma GroupAcceptedIff(db: Db, id: Id, name: string, parent: Option<Id>)
    requires KeysHold(db)
    ensures var row := GroupRow(id, name, parent);
            Accepts(db, Insertion(row)) <==> !Taken(db, row) && KeysHold(WithRow(db, row))
  {
    var after := WithRow(db, GroupRow(id, name, parent));
    assert id in after.groups && after.groups[id] == Group(name, parent);
    if id !in db.groups {
      assert GroupNamesUnique(after) <==> forall g :: g in db.groups ==> db.groups[g].name != name by {
        assert forall g :: g in db.groups ==> g in after.groups && after.groups[g] == db.groups[g];
      }
      assert ForeignKeysHold(after) <==>
             id != "" && (parent.Some? ==> parent.value in db.groups || parent.value == id);
    }
  }

  lemma RoleAcceptedIff(db: Db, id: Id, name: string)
    requires KeysHold(db)
    ensures var row := RoleRow(id, name);
            Accepts(db, Insertion(row)) <==> !Taken(db, row) && KeysHold(WithRow(db, row))
  {
    var after := WithRow(db, RoleRow(id, name));
    if id !in db.roles {
      assert forall r :: r in db.roles ==> r in after.roles && after.roles[r] == db.roles[r];
      assert id in after.roles && RoleNamesUnique(after) <==> name !in db.roles.Values;
    }
  }

  lemma PermissionAcceptedIff(db: Db, id: Id, p: Permission)
    requires KeysHold(db)
    ensures var row := PermissionRow(id, p);
            Accepts(db, Insertion(row)) <==> !Taken(db, row) && KeysHold(WithRow(db, row))
  {
    var after := WithRow(db, PermissionRow(id, p));
    if id !in db.permissions {
      assert forall q :: q in db.permissions ==> q in after.permissions && after.permissions[q] == db.permissions[q];
      assert id in after.permissions && PermissionsUnique(after) <==> p !in db.permissions.Values;
    }
  }

  // The rows that a link refers to are there.
  predicate RefersToRows(db: Db, row: Row)
    requires IsLink(row)
  {
    match row
    case UserGroupRow(user, group) => user in db.users && group in db.groups
    case RolePermissionRow(role, id) => role in db.roles && id in db.permissions
    case GroupRoleRow(group, role) => group in db.groups && role in db.roles
    case UserRoleRow(user, role) => user in db.users && role in db.roles
  }

  lemma LinkKeys(db: Db, row: Row)
    requires ForeignKeysHold(db) && IsLink(row)
    ensures ForeignKeysHold(WithRow(db, row)) <==> RefersToRows(db, row)
  {
    var after := WithRow(db, row);
    match row
    case UserGroupRow(user, group) => assert (user, group) in after.userGroups;
    case RolePermissionRow(role, id) => assert (role, id) in after.rolePermissions;
    case GroupRoleRow(group, role) => assert (group, role) in after.groupRoles;
    case UserRoleRow(user, role) => assert (user, role) in after.userRoles;
  }

  lemma LinkAcceptedIff(db: Db, row: Row)
    requires KeysHold(db) && IsLink(row)
    ensures Accepts(db, Insertion(row)) <==> !Taken(db, row) && KeysHold(WithRow(db, row))
  {
    LinkKeys(db, row);
    assert Accepts(db, Insertion(row)) <==> !Taken(db, row) && RefersToRows(db, row);
    var after := WithRow(db, row);
    assert after.groups == db.groups && after.roles == db.roles && after.permissions == db.permissions;
  }

  // An insertion is accepted exactly when its primary key is free and the tables with the row satisfy all unique and
  // foreign keys.
  lemma InsertionAcceptedIff(db: Db, row: Row)
    requires KeysHold(db)
    ensures Accepts(db, Insertion(row)) <==> !Taken(db, row) && KeysHold(WithRow(db, row))
  {
    match row
    case UserRow(id) =>
      assert KeysHold(WithRow(db, row));
    case GroupRow(id, name, parent) => GroupAcceptedIff(db, id, name, parent);
    case RoleRow(id, name) => RoleAcceptedIff(db, id, name);
    case PermissionRow(id, p) => PermissionAcceptedIff(db, id, p);
    case _ => LinkAcceptedIff(db, row);
  }

  lemma InsertionIsWithRow(db: Db, row: Row)
    requires Accepts(db, Insertion(row))
    ensures Execute(db, Insertion(row)) == WithRow(db, row)
  {
  }

  predicate IsDeletion(s: Statement) {
    s.DeleteUser? || s.DeleteRole? || s.DeleteRolePermission? || s.DeleteUserRole? || s.DeleteGroupRole?
    || s.DeleteUserGroup?
  }

  // Deletions are always accepted, apart from that of a user who is not there.
  lemma DeletionAcceptedIff(db: Db, s: Statement)
    ensures s.DeleteUser? ==> (Accepts(db, s) <==> In(db, UserRow(s.id)))
    ensures IsDeletion(s) && !s.DeleteUser? ==> Accepts(db, s)
  {
  }

  lemma NamesStayUnique(db: Db, s: Statement)
    requires KeysHold(db) && IsDeletion(s)
    ensures KeysHold(Execute(db, s))
  {
    ExecuteKeepsForeignKeys(db, s);
    var after := Execute(db, s);
    assert after.groups == db.groups && after.permissions == db.permissions;
    assert RoleNamesUnique(after);
  }

  function InsertedBy(s: Statement): (row: Option<Row>)
    ensures row.Some? ==> s == Insertion(row.value)
    ensures row.None? <==> IsDeletion(s)
  {
    match s
    case InsertUser(id) => Some(UserRow(id))
    case InsertGroup(id, name, parent) => Some(GroupRow(id, name, parent))
    case InsertRole(id, name) => Some(RoleRow(id, name))
    case InsertPermission(id, p) => Some(PermissionRow(id, p))
    case InsertRolePermission(role, id) => Some(RolePermissionRow(role, id))
    case InsertUserRole(user, role) => Some(UserRoleRow(user, role))
    case InsertGroupRole(group, role) => Some(GroupRoleRow(group, role))
    case InsertUserGroup(user, group) => Some(UserGroupRow(user, group))
    case _ => None
  }

  // Every statement keeps all keys.
  lemma StatementsKeepKeys(db: Db, s: Statement)
    requires KeysHold(db)
    ensures KeysHold(Execute(db, s))
  {
    if Accepts(db, s) {
      if InsertedBy(s).Some? {
        InsertionAcceptedIff(db, InsertedBy(s).value);
        InsertionIsWithRow(db, InsertedBy(s).value);
      } else {
        NamesStayUnique(db, s);
      }
    }
  }

  /* ---- The parent links are those of the group rows ---- */

  lemma LinksAreRows(db: Db, g: Id, p: Id)
    requires ForeignKeysHold(db) && p != ""
    ensures ParentOf(ParentsOf(db), g) == p <==> exists name :: In(db, GroupRow(g, name, Some(p)))
  {
    if ParentOf(ParentsOf(db), g) == p {
      assert In(db, GroupRow(g, db.groups[g].name, Some(p)));
    }
  }

  /* ---- Paths of grants ---- */

  // A permission of a role that a user has himself, or that an ancestor of one of his groups has
  datatype Grant =
    | Direct(user: Id, role: Id, permissionID: Id)
    | Inherited(user: Id, group: Id, ancestor: Id, role: Id, permissionID: Id)

  // The link rows a grant rests on
  function RowsOf(g: Grant): set<Row> {
    match g
    case Direct(user, role, id) => {UserRoleRow(user, role), RolePermissionRow(role, id)}
    case Inherited(user, group, ancestor, role, id) =>
      {UserGroupRow(user, group), GroupRoleRow(ancestor, role), RolePermissionRow(role, id)}
  }

  // The grant leads from the user to a permission for the resource and action, over rows that are there, except
  // perhaps those in `missing`.
  ghost predicate HoldsBut(db: Db, g: Grant, resource: string, action: string, missing: set<Row>) {
    && g.permissionID in db.permissions
    && db.permissions[g.permissionID].action == action && db.permissions[g.permissionID].Matches(resource)
    && (g.Inherited? ==> Reaches(ParentsOf(db), g.group, g.ancestor))
    && forall row :: row in RowsOf(g) ==> In(db, row) || row in missing
  }

  ghost predicate Holds(db: Db, g: Grant, resource: string, action: string) {
    HoldsBut(db, g, resource, action, {})
  }

  lemma GrantPathIsGrant(db: Db, user: Id, resource: string, action: string)
    ensures GrantPath(db, user, resource, action)
            <==> exists g: Grant :: g.user == user && Holds(db, g, resource, action)
  {
    if GrantPath(db, user, resource, action) {
      var role, id :|
        && RoleReaches(db, user, role) && (role, id) in db.rolePermissions && id in db.permissions
        && db.permissions[id].action == action && db.permissions[id].Matches(resource);
      if (user, role) in db.userRoles {
        assert Holds(db, Direct(user, role, id), resource, action);
      } else {
        var g, h :| (user, g) in db.userGroups && Reaches(ParentsOf(db), g, h) && (h, role) in db.groupRoles;
        assert Holds(db, Inherited(user, g, h, role, id), resource, action);
      }
    }
    if g: Grant :| g.user == user && Holds(db, g, resource, action) {
      assert RolePermissionRow(g.role, g.permissionID) in RowsOf(g);
      assert if g.Direct? then UserRoleRow(g.user, g.role) in RowsOf(g)
             else UserGroupRow(g.user, g.group) in RowsOf(g) && GroupRoleRow(g.ancestor, g.role) in RowsOf(g);
      assert RoleReaches(db, user, g.role);
    }
  }

  // The grants are the old ones and those through the new row.
  ghost predicate GrantsGain(before: Db, after: Db, row: Row) {
    forall g, resource, action :: Holds(after, g, resource, action) <==> HoldsBut(before, g, resource, action, {row})
  }

  // The grants are the old ones that do not rest on the row.
  ghost predicate GrantsLose(before: Db, after: Db, row: Row) {
    forall g, resource, action ::
      Holds(after, g, resource, action) <==> Holds(before, g, resource, action) && row !in RowsOf(g)
  }

  ghost predicate GrantsLoseUser(before: Db, after: Db, id: Id) {
    forall g, resource, action ::
      Holds(after, g, resource, action) <==> Holds(before, g, resource, action) && g.user != id
  }

  ghost predicate GrantsLoseRole(before: Db, after: Db, id: Id) {
    forall g, resource, action ::
      Holds(after, g, resource, action) <==> Holds(before, g, resource, action) && g.role != id
  }

  ghost predicate GrantsSame(before: Db, after: Db) {
    forall g, resource, action :: Holds(after, g, resource, action) <==> Holds(before, g, resource, action)
  }

  lemma LinkGains(db: Db, row: Row)
    requires IsLink(row) && Accepts(db, Insertion(row))
    ensures GrantsGain(db, Execute(db, Insertion(row)), row)
  {
    var after := Execute(db, Insertion(row));
    InsertionAddsRow(db, row);
    assert RowAdded(db, after, row);
    assert ParentsOf(after) == ParentsOf(db) && after.permissions == db.permissions;
  }

  lemma LinkLoses(db: Db, row: Row)
    requires IsLink(row)
    ensures GrantsLose(db, Execute(db, Deletion(row)), row)
  {
    var after := Execute(db, Deletion(row));
    DeletionRemovesRow(db, row);
    assert RowGone(db, after, row);
    assert ParentsOf(after) == ParentsOf(db) && after.permissions == db.permissions;
  }

  lemma UserLoses(db: Db, id: Id)
    requires Accepts(db, DeleteUser(id))
    ensures GrantsLoseUser(db, Execute(db, DeleteUser(id)), id)
  {
    var after := Execute(db, DeleteUser(id));
    DeletionCascades(db, id);
    assert ParentsOf(after) == ParentsOf(db) && after.permissions == db.permissions;
    forall g, resource, action
      ensures Holds(after, g, resource, action) <==> Holds(db, g, resource, action) && g.user != id
    {
      assert if g.Direct? then UserRoleRow(g.user, g.role) in RowsOf(g) else UserGroupRow(g.user, g.group) in RowsOf(g);
    }
  }

  lemma RoleLoses(db: Db, id: Id)
    ensures GrantsLoseRole(db, Execute(db, DeleteRole(id)), id)
  {
    var after := Execute(db, DeleteRole(id));
    DeletionCascades(db, id);
    assert ParentsOf(after) == ParentsOf(db) && after.permissions == db.permissions;
    forall g, resource, action
      ensures Holds(after, g, resource, action) <==> Holds(db, g, resource, action) && g.role != id
    {
      assert RolePermissionRow(g.role, g.permissionID) in RowsOf(g);
    }
  }

  lemma {:induction false} ClimbIgnoresNewGroup(db: Db, q: Parents, g: Id, added: Id, n: nat)
    requires ForeignKeysHold(db) && added !in db.groups && added != "" && g in db.groups
    requires forall h :: h != added ==> ParentOf(q, h) == ParentOf(ParentsOf(db), h)
    ensures var c := Climb(ParentsOf(db), g, n); Climb(q, g, n) == c && (c == "" || c in db.groups)
  {
    if n > 0 { ClimbIgnoresNewGroup(db, q, g, added, n - 1); }
  }

  lemma ReachIgnoresNewGroup(db: Db, q: Parents, g: Id, h: Id, added: Id)
    requires ForeignKeysHold(db) && added !in db.groups && added != "" && g in db.groups
    requires forall x :: x != added ==> ParentOf(q, x) == ParentOf(ParentsOf(db), x)
    ensures Reaches(q, g, h) <==> Reaches(ParentsOf(db), g, h)
  {
    forall n: nat ensures Climb(q, g, n) == Climb(ParentsOf(db), g, n) {
      ClimbIgnoresNewGroup(db, q, g, added, n);
    }
  }

  lemma NothingRestsOnIt(db: Db, row: Row, g: Grant)
    requires ForeignKeysHold(db) && !IsLink(row) && Accepts(db, Insertion(row))
    ensures var after := Execute(db, Insertion(row));
            forall r :: r in RowsOf(g) ==> (In(after, r) <==> In(db, r))
  {
    InsertionAddsRow(db, row);
    assert RowAdded(db, Execute(db, Insertion(row)), row);
  }

  lemma ReachUnchanged(db: Db, row: Row, g: Id, h: Id)
    requires ForeignKeysHold(db) && !IsLink(row) && Accepts(db, Insertion(row)) && g in db.groups
    ensures Reaches(ParentsOf(Execute(db, Insertion(row))), g, h) <==> Reaches(ParentsOf(db), g, h)
  {
    var after := Execute(db, Insertion(row));
    if row.GroupRow? {
      ReachIgnoresNewGroup(db, ParentsOf(after), g, h, row.id);
    } else {
      assert ParentsOf(after) == ParentsOf(db);
    }
  }

  // A new user, group, role or permission grants nothing to anybody yet.
  lemma NewEntityGrantsNothing(db: Db, row: Row)
    requires ForeignKeysHold(db) && !IsLink(row) && Accepts(db, Insertion(row))
    ensures GrantsSame(db, Execute(db, Insertion(row)))
  {
    var after := Execute(db, Insertion(row));
    forall g, resource, action ensures Holds(after, g, resource, action) <==> Holds(db, g, resource, action) {
      NothingRestsOnIt(db, row, g);
      assert RolePermissionRow(g.role, g.permissionID) in RowsOf(g);
      if g.Inherited? {
        assert UserGroupRow(g.user, g.group) in RowsOf(g);
        if g.group in db.groups { ReachUnchanged(db, row, g.group, g.ancestor); }
      }
    }
  }
}
