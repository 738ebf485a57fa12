/**
 * Users and roles: whatever sequence of administration calls runs, one active full_admin is left. Each call is
 * one step. Deleting a user only marks the row, and every query skips marked rows.
 */
module LastAdmin {
  import opened Results

  type UserId = nat
  type RoleId = nat

  datatype RoleName = FullAdmin | Named(name: nat)

  datatype Kind = Staff | Shopper // the role column: ADMIN or CUSTOMER

  /** An address as entered, the stand-in of an account without one, or what a deleted customer is left with. */
  datatype Email = Address(text: nat) | Placeholder(uuid: nat) | Anonymized(user: UserId)

  type Username = nat

  datatype User = User(
    kind: Kind, roleId: Option<RoleId>, isActive: bool, deleted: bool, email: Email, username: Option<Username>)

  /** `placeholder` is drawn for every call and used when no email is given. */
  datatype NewAccount = NewAccount(
    email: Option<Email>, username: Option<Username>, placeholder: Email, roleId: Option<RoleId>)

  type Permission = nat

  /** `grants` holds the permissions of a role, none where it says nothing. */
  datatype Directory = Directory(
    users: map<UserId, User>, roles: map<RoleId, RoleName>, permissions: set<Permission>,
    grants: map<RoleId, set<Permission>>)

  /** The optional fields of an update; `role` None leaves the role, Some(None) clears it. */
  datatype UserChange = UserChange(role: Option<Option<RoleId>>, isActive: Option<bool>)

  datatype Step =
    | CreateUser(user: UserId, account: NewAccount)
    | UpdateUser(user: UserId, performer: UserId, change: UserChange)
    | DisableUser(user: UserId)
    | DeleteUser(user: UserId)
    | CreateAdminUser(user: UserId, email: Email, kind: Kind)
    | CreateRole(role: RoleId, name: RoleName, keys: set<Permission>)
    | RenameRole(role: RoleId, name: RoleName)
    | DeleteRole(role: RoleId)
    | SetRolePermissions(role: RoleId, keys: set<Permission>)
    | CreatePermission(permission: Permission)
    | BlockCustomer(user: UserId)
    | UnblockCustomer(user: UserId)
    | DeleteCustomer(user: UserId)

  // ---------------------------------------------------------------- queries

  predicate Visible(d: Directory, u: UserId) {
    u in d.users && !d.users[u].deleted
  }

  predicate IsStaff(d: Directory, u: UserId) {
    Visible(d, u) && (d.users[u].kind == Staff || d.users[u].roleId.Some?)
  }

  predicate NameTaken(roles: map<RoleId, RoleName>, name: RoleName) {
    exists r :: r in roles && roles[r] == name
  }

  /** An active user whose role is full_admin. */
  predicate ActiveFullAdmin(d: Directory, u: UserId) {
    Visible(d, u) && d.users[u].isActive
    && d.users[u].roleId.Some? && d.users[u].roleId.value in d.roles && d.roles[d.users[u].roleId.value] == FullAdmin
  }

  /** ensureNotLastFullAdmin: some other active full_admin remains. */
  function OtherFullAdmins(d: Directory, excluded: UserId): set<UserId> {
    set u | u in d.users && u != excluded && ActiveFullAdmin(d, u)
  }

  function PermissionsOf(d: Directory, r: RoleId): set<Permission> {
    if r in d.grants then d.grants[r] else {}
  }

  predicate IsFullAdminRole(d: Directory, r: Option<RoleId>) {
    r.Some? && r.value in d.roles && d.roles[r.value] == FullAdmin
  }

  /** PermissionsGuard, for an active user: the full_admin role passes by its name, any other by its permissions. */
  predicate MayDo(d: Directory, u: UserId, required: set<Permission>) {
    Visible(d, u) && d.users[u].isActive
    && (IsFullAdminRole(d, d.users[u].roleId)
        || required <= if d.users[u].roleId.Some? then PermissionsOf(d, d.users[u].roleId.value) else {})
  }

  // ---------------------------------------------------------------- steps

  predicate KnownRole(d: Directory, r: Option<RoleId>) {
    r.Some? ==> r.value in d.roles
  }

  function EmailOf(a: NewAccount): Email {
    if a.email.Some? then a.email.value else a.placeholder
  }

  predicate EmailTaken(users: map<UserId, User>, email: Email) {
    exists u :: u in users && users[u].email == email
  }

  predicate UsernameTaken(users: map<UserId, User>, name: Option<Username>) {
    name.Some? && exists u :: u in users && users[u].username == name
  }

  function VisibleUsers(d: Directory): map<UserId, User> {
    map u | u in d.users && !d.users[u].deleted :: d.users[u]
  }

  /** Why an account cannot be created. The queries skip rows marked deleted; the unique indexes do not. */
  function CreateError(d: Directory, a: NewAccount): Option<Error> {
    if a.email.None? && a.username.None? then Some(BadRequest)
    else if EmailTaken(VisibleUsers(d), EmailOf(a)) then Some(Conflict)
    else if UsernameTaken(VisibleUsers(d), a.username) then Some(Conflict)
    else if !KnownRole(d, a.roleId) then Some(NotFound)
    else if EmailTaken(d.users, EmailOf(a)) || UsernameTaken(d.users, a.username) then Some(Internal)
    else None
  }

  function NewUser(a: NewAccount): User {
    User(if a.roleId.Some? then Staff else Shopper, a.roleId, true, false, EmailOf(a), a.username)
  }

  /** The address is looked up among the visible rows, then inserted under the unique index. */
  function CreateAdminError(d: Directory, email: Email): Option<Error> {
    if EmailTaken(VisibleUsers(d), email) then Some(Conflict)
    else if EmailTaken(d.users, email) then Some(Internal)
    else None
  }

  function WithGrants(grants: map<RoleId, set<Permission>>, roles: set<RoleId>, p: Permission)
    : map<RoleId, set<Permission>>
  {
    map r | r in grants.Keys + roles :: (if r in grants then grants[r] else {}) + if r in roles then {p} else {}
  }

  predicate ChangesRole(d: Directory, u: UserId, c: UserChange)
    requires u in d.users
  {
    c.role.Some? && c.role.value != d.users[u].roleId
  }

  predicate UpdateAllowed(d: Directory, u: UserId, performer: UserId, c: UserChange) {
    IsStaff(d, u)
    && !(u == performer && ChangesRole(d, u, c))
    && ((c.isActive == Some(false) || ChangesRole(d, u, c)) && ActiveFullAdmin(d, u) ==> OtherFullAdmins(d, u) != {})
    && (c.role.Some? ==> KnownRole(d, c.role.value))
  }

  /** Why an update is refused: who it is, their own role, the last full_admin, or the role it names. */
  function UpdateError(d: Directory, u: UserId, performer: UserId, c: UserChange): (e: Option<Error>)
    ensures e == None <==> UpdateAllowed(d, u, performer, c)
  {
    if !IsStaff(d, u) then Some(NotFound)
    else if u == performer && ChangesRole(d, u, c) then Some(Forbidden)
    else if (c.isActive == Some(false) || ChangesRole(d, u, c)) && ActiveFullAdmin(d, u) && OtherFullAdmins(d, u) == {}
    then Some(BadRequest)
    else if c.role.Some? && !KnownRole(d, c.role.value) then Some(NotFound)
    else None
  }

  function RemovalError(d: Directory, u: UserId): (e: Option<Error>)
    ensures e == None <==> DisableAllowed(d, u)
  {
    if !IsStaff(d, u) then Some(NotFound)
    else if ActiveFullAdmin(d, u) && OtherFullAdmins(d, u) == {} then Some(BadRequest) else None
  }

  function Updated(x: User, c: UserChange): User {
    x.(roleId := if c.role.Some? then c.role.value else x.roleId,
       isActive := if c.isActive.Some? then c.isActive.value else x.isActive)
  }

  predicate DisableAllowed(d: Directory, u: UserId) {
    IsStaff(d, u) && (ActiveFullAdmin(d, u) ==> OtherFullAdmins(d, u) != {})
  }

  predicate RoleInUse(d: Directory, r: RoleId) {
    exists u :: u in d.users && Visible(d, u) && d.users[u].roleId == Some(r)
  }

  /** The foreign key clears the role of the rows that still point at it, which are marked deleted. */
  function WithoutRole(users: map<UserId, User>, r: RoleId): map<UserId, User> {
    map u | u in users :: if users[u].roleId == Some(r) then users[u].(roleId := None) else users[u]
  }

  /** The directory after a call; a call that throws leaves it as it was. */
  function Next(d: Directory, s: Step): Directory {
    match s
    case CreateUser(u, account) =>
      if u in d.users || CreateError(d, account).Some? then d else d.(users := d.users[u := NewUser(account)])
    case UpdateUser(u, performer, change) =>
      if UpdateAllowed(d, u, performer, change) then d.(users := d.users[u := Updated(d.users[u], change)]) else d
    case DisableUser(u) =>
      if DisableAllowed(d, u) then d.(users := d.users[u := d.users[u].(isActive := false)]) else d
    case DeleteUser(u) =>
      if DisableAllowed(d, u) then d.(users := d.users[u := d.users[u].(deleted := true)]) else d
    case CreateAdminUser(u, email, kind) =>
      if u in d.users || CreateAdminError(d, email).Some? then d
      else d.(users := d.users[u := User(kind, None, true, false, email, None)])
    case CreateRole(r, name, keys) =>
      if r in d.roles || NameTaken(d.roles, name) then d
      else d.(roles := d.roles[r := name], grants := d.grants[r := keys * d.permissions])
    case RenameRole(r, name) =>
      if r !in d.roles || (d.roles[r] == FullAdmin && name != FullAdmin)
         || (name != d.roles[r] && NameTaken(d.roles, name)) then d
      else d.(roles := d.roles[r := name])
    case DeleteRole(r) =>
      if r !in d.roles || d.roles[r] == FullAdmin || RoleInUse(d, r) then d
      else d.(users := WithoutRole(d.users, r), roles := d.roles - {r}, grants := d.grants - {r})
    case SetRolePermissions(r, keys) =>
      if r !in d.roles || !(keys <= d.permissions) then d else d.(grants := d.grants[r := keys])
    case CreatePermission(p) =>
      if p in d.permissions then d
      else
        var fullAdmins := set r | r in d.roles && d.roles[r] == FullAdmin;
        d.(permissions := d.permissions + {p}, grants := WithGrants(d.grants, fullAdmins, p))
    case BlockCustomer(u) =>
      if Visible(d, u) && d.users[u].kind == Shopper
      then d.(users := d.users[u := d.users[u].(isActive := false)]) else d
    case UnblockCustomer(u) =>
      if Visible(d, u) && d.users[u].kind == Shopper
      then d.(users := d.users[u := d.users[u].(isActive := true)]) else d
    case DeleteCustomer(u) =>
      if Visible(d, u) && d.users[u].kind == Shopper && !EmailTaken(d.users - {u}, Anonymized(u))
      then d.(users := d.users[u := d.users[u].(isActive := false, deleted := true, email := Anonymized(u))]) else d
  }

  function Run(d: Directory, steps: seq<Step>): Directory {
    if steps == [] then d else Next(Run(d, steps[..|steps| - 1]), steps[|steps| - 1])
  }

  // ---------------------------------------------------------------- the last admin

  ghost predicate NamesUnique(roles: map<RoleId, RoleName>) {
    forall a, b :: a in roles && b in roles && a != b ==> roles[a] != roles[b]
  }

  /** Whoever holds a role is staff, so the customer screens cannot touch them. */
  ghost predicate HoldersAreStaff(d: Directory) {
    forall u :: u in d.users && d.users[u].roleId.Some? ==> d.users[u].kind == Staff
  }

  ghost predicate HasFullAdmin(d: Directory) {
    exists u :: u in d.users && ActiveFullAdmin(d, u)
  }

  ghost predicate Inv(d: Directory) {
    NamesUnique(d.roles) && HoldersAreStaff(d) && HasFullAdmin(d)
  }

  /** What every step leaves of an active full_admin it does not address. */
  lemma OthersKeepTheirRights(d: Directory, s: Step, u: UserId)
    requires Inv(d) && u in d.users && ActiveFullAdmin(d, u)
    requires s.UpdateUser? || s.DisableUser? || s.DeleteUser? ==> s.user != u
    ensures u in Next(d, s).users && ActiveFullAdmin(Next(d, s), u)
  {
    if s.DeleteRole? && Next(d, s) != d { assert d.users[u].roleId != Some(s.role); }
  }

  lemma StepKeepsSomeAdmin(d: Directory, s: Step)
    requires Inv(d)
    ensures HasFullAdmin(Next(d, s))
  {
    var n := Next(d, s);
    if n != d {
      var u :| u in d.users && ActiveFullAdmin(d, u);
      if s.UpdateUser? || s.DisableUser? || s.DeleteUser? {
        if s.user == u && !ActiveFullAdmin(n, u) {
          var other :| other in OtherFullAdmins(d, u);
          OthersKeepTheirRights(d, s, other);
        } else if s.user != u {
          OthersKeepTheirRights(d, s, u);
        }
      } else {
        OthersKeepTheirRights(d, s, u);
      }
    }
  }

  lemma StepKeepsInv(d: Directory, s: Step)
    requires Inv(d)
    ensures Inv(Next(d, s))
  {
    StepKeepsSomeAdmin(d, s);
  }

  /** From a directory with an active full_admin, every sequence of calls leaves one. */
  lemma {:induction false} SomeFullAdminRemains(d: Directory, steps: seq<Step>)
    requires Inv(d)
    ensures Inv(Run(d, steps)) && HasFullAdmin(Run(d, steps))
  {
    if steps != [] {
      SomeFullAdminRemains(d, steps[..|steps| - 1]);
      StepKeepsInv(Run(d, steps[..|steps| - 1]), steps[|steps| - 1]);
    }
  }

  // ---------------------------------------------------------------- what a full_admin may do

  /** The call addresses the user. */
  predicate Addresses(s: Step, u: UserId) {
    (s.UpdateUser? || s.DisableUser? || s.DeleteUser? || s.BlockCustomer? || s.UnblockCustomer? || s.DeleteCustomer?)
    && s.user == u
  }

  /** The call replaces the permissions of the user's role by some that do not suffice. */
  predicate Strips(d: Directory, s: Step, u: UserId, required: set<Permission>) {
    s.SetRolePermissions? && u in d.users && d.users[u].roleId == Some(s.role) && !IsFullAdminRole(d, Some(s.role))
    && s.keys <= d.permissions && s.role in d.roles && !(required <= s.keys)
  }

  /**
   * Who can lose access to what: a call that does not address a user takes something from them exactly when it
   * replaces the permissions of their role, which is not full_admin, by too few.
   */
  lemma AccessIsLostOnlyByStripping(d: Directory, s: Step, u: UserId, required: set<Permission>)
    requires NamesUnique(d.roles) && MayDo(d, u, required) && !Addresses(s, u)
    requires d.users[u].roleId.Some? ==> d.users[u].roleId.value in d.roles
    ensures !MayDo(Next(d, s), u, required) <==> Strips(d, s, u, required)
  {
    if s.DeleteRole? && Next(d, s) != d { assert d.users[u].roleId != Some(s.role); }
  }

  /**
   * No call whatsoever takes anything from the last full_admin: not one that addresses them, and not one that
   * empties the permissions of the full_admin role, since the guard goes by the name of the role.
   */
  lemma LastFullAdminKeepsEverything(d: Directory, s: Step, u: UserId, required: set<Permission>)
    requires Inv(d) && u in d.users && ActiveFullAdmin(d, u) && OtherFullAdmins(d, u) == {}
    ensures u in Next(d, s).users && ActiveFullAdmin(Next(d, s), u) && MayDo(Next(d, s), u, required)
  {
    if !((s.UpdateUser? || s.DisableUser? || s.DeleteUser?) && s.user == u) { OthersKeepTheirRights(d, s, u); }
  }

  /** What decides whether a user can be changed to a row without their rights: is somebody else left? */
  lemma SomebodyElseIsLeft(d: Directory, u: UserId, x: User)
    requires Inv(d) && ActiveFullAdmin(d, u) && !ActiveFullAdmin(d.(users := d.users[u := x]), u)
    ensures HasFullAdmin(d.(users := d.users[u := x])) <==> OtherFullAdmins(d, u) != {}
  {
    var n := d.(users := d.users[u := x]);
    if OtherFullAdmins(d, u) != {} {
      var other :| other in OtherFullAdmins(d, u);
      assert ActiveFullAdmin(n, other);
    } else {
      forall y | y in d.users ensures !ActiveFullAdmin(n, y) { assert y !in OtherFullAdmins(d, u); }
    }
  }

  /** The guard refuses nothing it need not: disabling or deleting a full_admin goes through iff another remains. */
  lemma GuardIsExact(d: Directory, u: UserId)
    requires Inv(d) && ActiveFullAdmin(d, u)
    ensures var without := d.users[u := d.users[u].(isActive := false)];
            Next(d, DisableUser(u)) == (if HasFullAdmin(d.(users := without)) then d.(users := without) else d)
    ensures var marked := d.users[u := d.users[u].(deleted := true)];
            Next(d, DeleteUser(u)) == (if HasFullAdmin(d.(users := marked)) then d.(users := marked) else d)
  {
    SomebodyElseIsLeft(d, u, d.users[u].(isActive := false));
    SomebodyElseIsLeft(d, u, d.users[u].(deleted := true));
  }

  /**
   * Likewise for an update of a full_admin, by somebody else and to a role that exists: whatever it changes, it
   * goes through iff it leaves a full_admin.
   */
  lemma UpdateGuardIsExact(d: Directory, u: UserId, performer: UserId, change: UserChange)
    requires Inv(d) && ActiveFullAdmin(d, u)
    requires u == performer ==> !ChangesRole(d, u, change)
    requires change.role.Some? ==> KnownRole(d, change.role.value)
    ensures var updated := d.(users := d.users[u := Updated(d.users[u], change)]);
            Next(d, UpdateUser(u, performer, change)) == if HasFullAdmin(updated) then updated else d
  {
    var updated := d.(users := d.users[u := Updated(d.users[u], change)]);
    if change.isActive == Some(false) || ChangesRole(d, u, change) {
      SomebodyElseIsLeft(d, u, Updated(d.users[u], change));
    } else {
      assert ActiveFullAdmin(updated, u);
    }
  }

  // ---------------------------------------------------------------- what a call does

  /** Nobody else's row changes, but for the role that a deleted row still points at when the role goes. */
  lemma OthersStay(d: Directory, s: Step, u: UserId)
    requires u in d.users && !Addresses(s, u) && !((s.CreateUser? || s.CreateAdminUser?) && s.user == u)
    ensures u in Next(d, s).users
    ensures Next(d, s).users[u]
            == if s.DeleteRole? && Next(d, s) != d && d.users[u].roleId == Some(s.role)
               then d.users[u].(roleId := None) else d.users[u]
    ensures s.DeleteRole? && Next(d, s) != d && d.users[u].roleId == Some(s.role) ==> d.users[u].deleted
  {
  }

  /** Staff who are not full_admin can always be disabled or deleted, and can then do nothing. */
  lemma OrdinaryStaffCanBeRemoved(d: Directory, u: UserId)
    requires u in d.users && !d.users[u].deleted && !ActiveFullAdmin(d, u)
    requires d.users[u].kind == Staff || d.users[u].roleId.Some?
    ensures Next(d, DisableUser(u)).users == d.users[u := d.users[u].(isActive := false)]
    ensures Next(d, DeleteUser(u)).users == d.users[u := d.users[u].(deleted := true)]
    ensures forall required :: !MayDo(Next(d, DisableUser(u)), u, required)
    ensures forall required :: !MayDo(Next(d, DeleteUser(u)), u, required)
  {
  }

  /** The staff calls see no customers and no deleted rows. */
  lemma OnlyVisibleStaffIsAddressed(d: Directory, u: UserId, performer: UserId, change: UserChange)
    requires u !in d.users || d.users[u].deleted || (d.users[u].kind == Shopper && d.users[u].roleId == None)
    ensures Next(d, DisableUser(u)) == Next(d, DeleteUser(u)) == Next(d, UpdateUser(u, performer, change)) == d
  {
  }

  /** An update gives ordinary staff the role and the activity it names, unless the role is unknown or their own. */
  lemma OrdinaryStaffIsUpdated(d: Directory, u: UserId, performer: UserId, change: UserChange)
    requires u in d.users && !d.users[u].deleted && !ActiveFullAdmin(d, u)
    requires d.users[u].kind == Staff || d.users[u].roleId.Some?
    ensures var known := change.role.None? || change.role.value.None? || change.role.value.value in d.roles;
            var own := u == performer && change.role.Some? && change.role.value != d.users[u].roleId;
            var n := Next(d, UpdateUser(u, performer, change));
            if known && !own then
              n == d.(users := n.users) && n.users.Keys == d.users.Keys
              && n.users[u] == d.users[u].(roleId := n.users[u].roleId, isActive := n.users[u].isActive)
              && n.users[u].roleId == (if change.role.Some? then change.role.value else d.users[u].roleId)
              && n.users[u].isActive == (if change.isActive.Some? then change.isActive.value else d.users[u].isActive)
            else n == d
  {
  }

  /** A new account is active; with a role it is staff and may do what the role may do. */
  lemma CreatedUserMayDo(d: Directory, u: UserId, a: NewAccount, required: set<Permission>)
    requires u !in d.users && CreateError(d, a) == None
    ensures var n := Next(d, CreateUser(u, a));
            && n == d.(users := n.users) && n.users.Keys == d.users.Keys + {u}
            && n.users[u].email == (if a.email.Some? then a.email.value else a.placeholder)
            && n.users[u].username == a.username && n.users[u].roleId == a.roleId
            && n.users[u].isActive && !n.users[u].deleted
            && (n.users[u].kind == Staff <==> a.roleId.Some?)
            && (MayDo(n, u, required)
                <==> required == {} || (a.roleId.Some? && RoleAllows(d, a.roleId.value, required)))
  {
  }

  predicate RoleAllows(d: Directory, r: RoleId, required: set<Permission>) {
    (r in d.roles && d.roles[r] == FullAdmin) || required <= PermissionsOf(d, r)
  }

  /** When an account can be created: it names somebody new, to every row, and a role that exists. */
  lemma CreatedIff(d: Directory, a: NewAccount)
    ensures CreateError(d, a) == None
            <==> (a.email.Some? || a.username.Some?) && (a.roleId.Some? ==> a.roleId.value in d.roles)
                 && (forall u :: u in d.users ==>
                       d.users[u].email != (if a.email.Some? then a.email.value else a.placeholder)
                       && (a.username.Some? ==> d.users[u].username != a.username))
    ensures CreateError(d, a) == Some(BadRequest) <==> a.email.None? && a.username.None?
    ensures CreateError(d, a) == Some(NotFound) ==> a.roleId.Some? && a.roleId.value !in d.roles
  {
    forall u | u in VisibleUsers(d) ensures VisibleUsers(d)[u] == d.users[u] {}
  }

  lemma CreatedAdminDoes(d: Directory, u: UserId, email: Email, kind: Kind)
    requires u !in d.users
    ensures var n := Next(d, CreateAdminUser(u, email, kind));
            if exists x :: x in d.users && d.users[x].email == email then n == d
            else n == d.(users := d.users[u := User(kind, None, true, false, email, None)])
  {
  }

  /** Customers are blocked and unblocked, and when deleted lose their address; staff is left alone. */
  lemma CustomerCallsDo(d: Directory, u: UserId)
    requires u in d.users
    ensures var here := !d.users[u].deleted && d.users[u].kind == Shopper;
            && Next(d, BlockCustomer(u))
               == (if here then d.(users := d.users[u := d.users[u].(isActive := false)]) else d)
            && Next(d, UnblockCustomer(u))
               == (if here then d.(users := d.users[u := d.users[u].(isActive := true)]) else d)
    ensures !d.users[u].deleted && d.users[u].kind == Shopper
            && (forall x :: x in d.users && x != u ==> d.users[x].email != Anonymized(u)) ==>
              Next(d, DeleteCustomer(u)).users
              == d.users[u := d.users[u].(isActive := false, deleted := true, email := Anonymized(u))]
  {
  }

  /** A role is renamed when it exists, is not full_admin, and no other role has the name; full_admin never is. */
  lemma RenameDoes(d: Directory, r: RoleId, name: RoleName)
    ensures var n := Next(d, RenameRole(r, name));
            if r in d.roles && (d.roles[r] == FullAdmin ==> name == FullAdmin)
               && (forall x :: x in d.roles && d.roles[x] == name ==> d.roles[r] == name)
            then n == d.(roles := d.roles[r := name]) else n == d
  {
  }

  /** A role is deleted when it exists, is not full_admin, and no visible user has it. */
  lemma DeleteRoleDoes(d: Directory, r: RoleId)
    ensures var n := Next(d, DeleteRole(r));
            if r in d.roles && d.roles[r] != FullAdmin
               && (forall u :: u in d.users && !d.users[u].deleted ==> d.users[u].roleId != Some(r))
            then n.roles == d.roles - {r} && n.grants == d.grants - {r} && n.permissions == d.permissions
                 && forall u :: u in n.users ==> n.users[u].roleId != Some(r)
            else n == d
  {
    if RoleInUse(d, r) {
      var u :| u in d.users && Visible(d, u) && d.users[u].roleId == Some(r);
      assert !d.users[u].deleted;
    } else {
      forall u | u in d.users && !d.users[u].deleted ensures d.users[u].roleId != Some(r) { assert Visible(d, u); }
    }
  }

  /** A new role has the known ones of the permissions asked for, and a name of its own. */
  lemma CreateRoleDoes(d: Directory, r: RoleId, name: RoleName, keys: set<Permission>)
    requires r !in d.roles
    ensures var n := Next(d, CreateRole(r, name, keys));
            if exists x :: x in d.roles && d.roles[x] == name then n == d
            else n.roles == d.roles[r := name] && n.users == d.users && n.permissions == d.permissions
                 && forall p :: p in PermissionsOf(n, r) <==> p in keys && p in d.permissions
  {
  }

  /** The permissions of a role become exactly those given, if the role and all of them exist. */
  lemma SetPermissionsDoes(d: Directory, r: RoleId, keys: set<Permission>)
    ensures var n := Next(d, SetRolePermissions(r, keys));
            if r in d.roles && (forall p :: p in keys ==> p in d.permissions) then
              n == d.(grants := n.grants) && PermissionsOf(n, r) == keys
              && forall x :: x != r ==> PermissionsOf(n, x) == PermissionsOf(d, x)
            else n == d
  {
  }

  /** A new permission goes to full_admin, and to no other role. */
  lemma CreatePermissionDoes(d: Directory, p: Permission, r: RoleId)
    requires p !in d.permissions
    ensures var n := Next(d, CreatePermission(p));
            n.permissions == d.permissions + {p} && n.users == d.users && n.roles == d.roles
            && PermissionsOf(n, r) == PermissionsOf(d, r) + if r in d.roles && d.roles[r] == FullAdmin then {p} else {}
  {
  }

  // ---------------------------------------------------------------- identities

  /** The unique indexes on email and username; rows marked deleted keep theirs. */
  ghost predicate IdentitiesUnique(users: map<UserId, User>) {
    forall a, b {:trigger IdentitiesDiffer(users, a, b)} ::
      a in users && b in users && a != b ==> IdentitiesDiffer(users, a, b)
  }

  predicate IdentitiesDiffer(users: map<UserId, User>, a: UserId, b: UserId) {
    a in users && b in users && users[a].email != users[b].email
    && (users[a].username.Some? ==> users[a].username != users[b].username)
  }

  /** The checks before an account is created, and the indexes behind them, keep every identity unique. */
  lemma {:induction false} IdentitiesStayUnique(d: Directory, steps: seq<Step>)
    requires IdentitiesUnique(d.users)
    ensures IdentitiesUnique(Run(d, steps).users)
  {
    if steps != [] {
      IdentitiesStayUnique(d, steps[..|steps| - 1]);
      StepKeepsIdentities(Run(d, steps[..|steps| - 1]), steps[|steps| - 1]);
    }
  }

  lemma StepKeepsIdentities(d: Directory, s: Step)
    requires IdentitiesUnique(d.users)
    ensures IdentitiesUnique(Next(d, s).users)
  {
    var n := Next(d, s);
    if n != d && s.CreateUser? {
      PutKeepsIdentities(d.users, s.user, NewUser(s.account));
    } else if n != d && s.CreateAdminUser? {
      PutKeepsIdentities(d.users, s.user, n.users[s.user]);
    } else if n != d && s.DeleteCustomer? {
      var others := d.users - {s.user};
      forall y | y in d.users && y != s.user
        ensures d.users[y].email != Anonymized(s.user) && IdentitiesDiffer(d.users, s.user, y)
      {
        assert y in others && others[y].email == d.users[y].email;
      }
      PutKeepsIdentities(d.users, s.user, n.users[s.user]);
    } else {
      SameIdentities(d.users, n.users);
    }
  }

  lemma PutKeepsIdentities(users: map<UserId, User>, u: UserId, x: User)
    requires IdentitiesUnique(users)
    requires forall y :: y in users && y != u ==>
               users[y].email != x.email && (x.username.Some? ==> users[y].username != x.username)
    ensures IdentitiesUnique(users[u := x])
  {
    var n := users[u := x];
    forall a, b | a in n && b in n && a != b ensures IdentitiesDiffer(n, a, b) {
      if a != u && b != u { assert IdentitiesDiffer(users, a, b); }
    }
  }

  lemma SameIdentities(m: map<UserId, User>, n: map<UserId, User>)
    requires IdentitiesUnique(m) && n.Keys == m.Keys
    requires forall u :: u in m ==> n[u].email == m[u].email && n[u].username == m[u].username
    ensures IdentitiesUnique(n)
  {
    forall a, b | a in n && b in n && a != b ensures IdentitiesDiffer(n, a, b) { assert IdentitiesDiffer(m, a, b); }
  }

  /** The row is marked deleted and identifies whom `x` does. */
  predicate StillDeleted(d: Directory, u: UserId, x: User) {
    u in d.users && d.users[u].deleted && d.users[u].email == x.email && d.users[u].username == x.username
  }

  lemma DeletedRowStays(d: Directory, s: Step, u: UserId, x: User)
    requires StillDeleted(d, u, x)
    ensures StillDeleted(Next(d, s), u, x)
  {
  }

  lemma {:induction false} DeletedRowsKeepTheirIdentity(d: Directory, steps: seq<Step>, u: UserId, x: User)
    requires StillDeleted(d, u, x)
    ensures StillDeleted(Run(d, steps), u, x)
  {
    if steps != [] {
      DeletedRowsKeepTheirIdentity(d, steps[..|steps| - 1], u, x);
      DeletedRowStays(Run(d, steps[..|steps| - 1]), steps[|steps| - 1], u, x);
    }
  }

  /**
   * The address of a deleted user is lost: whatever calls run, no account can be created with it, and when nothing
   * else is wrong with the request the lookups find nothing and the insert fails on the index.
   */
  lemma DeletedEmailIsLost(d: Directory, steps: seq<Step>, u: UserId, a: NewAccount)
    requires IdentitiesUnique(d.users) && u in d.users && d.users[u].deleted
    requires EmailOf(a) == d.users[u].email
    ensures var n := Run(d, steps);
            CreateError(n, a)
            == Some(if a.email.None? && a.username.None? then BadRequest
                    else if UsernameTaken(VisibleUsers(n), a.username) then Conflict
                    else if !KnownRole(n, a.roleId) then NotFound
                    else Internal)
  {
    var n := Run(d, steps);
    IdentitiesStayUnique(d, steps);
    DeletedRowsKeepTheirIdentity(d, steps, u, d.users[u]);
    var visible := VisibleUsers(n);
    forall x | x in visible ensures visible[x].email != EmailOf(a) { assert IdentitiesDiffer(n.users, x, u); }
  }

  // ---------------------------------------------------------------- the services

  class StaffDirectory {
    var users: map<UserId, User>
    var roles: map<RoleId, RoleName>
    var permissions: set<Permission>
    var grants: map<RoleId, set<Permission>>

    ghost function View(): Directory
      reads this
    {
      Directory(users, roles, permissions, grants)
    }

    constructor (d: Directory)
      ensures View() == d
    {
      users, roles, permissions, grants := d.users, d.roles, d.permissions, d.grants;
    }

    method EnsureNotLastFullAdmin(excluded: UserId) returns (ok: bool)
      requires NamesUnique(roles)
      ensures ok <==> (NameTaken(roles, FullAdmin) ==> OtherFullAdmins(View(), excluded) != {})
    {
      if !NameTaken(roles, FullAdmin) { return true; }
      var role :| role in roles && roles[role] == FullAdmin;
      var remaining := set u | u in users && u != excluded && !users[u].deleted && users[u].isActive
                               && users[u].roleId == Some(role);
      assert remaining == OtherFullAdmins(View(), excluded);
      return |remaining| != 0;
    }

    method HoldsFullAdmin(u: UserId) returns (yes: bool)
      requires u in users && !users[u].deleted
      ensures yes && users[u].isActive <==> ActiveFullAdmin(View(), u)
      ensures yes ==> NameTaken(roles, FullAdmin)
    {
      var r := users[u].roleId;
      return r.Some? && r.value in roles && roles[r.value] == FullAdmin;
    }

    /** Email, username and role are looked up in this order; the insert can still clash with a row marked deleted. */
    method CreateUser(u: UserId, account: NewAccount) returns (out: Option<Error>)
      requires u !in users
      modifies this
      ensures View() == Next(old(View()), Step.CreateUser(u, account))
      ensures out == CreateError(old(View()), account)
    {
      if account.email.None? && account.username.None? { return Some(BadRequest); }
      var email := if account.email.Some? then account.email.value else account.placeholder;
      var emailInUse := FindVisible(Some(email), None);
      if emailInUse { return Some(Conflict); }
      if account.username.Some? {
        var usernameInUse := FindVisible(None, account.username);
        if usernameInUse { return Some(Conflict); }
      }
      if account.roleId.Some? && account.roleId.value !in roles { return Some(NotFound); }
      if EmailTaken(users, email) || UsernameTaken(users, account.username) { return Some(Internal); }
      users := users[u := User(if account.roleId.Some? then Staff else Shopper, account.roleId, true, false, email,
                               account.username)];
      return None;
    }

    /** A lookup by email or by username. */
    method FindVisible(email: Option<Email>, username: Option<Username>) returns (found: bool)
      requires email.Some? != username.Some?
      ensures found <==> (email.Some? && EmailTaken(VisibleUsers(View()), email.value))
                         || UsernameTaken(VisibleUsers(View()), username)
    {
      ghost var visible := VisibleUsers(View());
      var matches := set u | u in users && !users[u].deleted
                             && (if email.Some? then users[u].email == email.value else users[u].username == username);
      assert forall u :: u in matches <==>
                         (u in visible && if email.Some? then visible[u].email == email.value
                                          else visible[u].username == username);
      return matches != {};
    }

    method UpdateUser(u: UserId, performer: UserId, change: UserChange) returns (out: Option<Error>)
      requires NamesUnique(roles)
      modifies this
      ensures View() == Next(old(View()), Step.UpdateUser(u, performer, change))
      ensures out == UpdateError(old(View()), u, performer, change)
    {
      if u !in users || users[u].deleted || !(users[u].kind == Staff || users[u].roleId.Some?) {
        return Some(NotFound);
      }
      var target := users[u];
      var roleChanges := change.role.Some? && change.role.value != target.roleId;
      if u == performer && roleChanges { return Some(Forbidden); }
      var full := HoldsFullAdmin(u);
      if (change.isActive == Some(false) || roleChanges) && full && target.isActive {
        var ok := EnsureNotLastFullAdmin(u);
        if !ok { return Some(BadRequest); }
      }
      if change.role.Some? && change.role.value.Some? && change.role.value.value !in roles { return Some(NotFound); }
      var roleId := if change.role.Some? then change.role.value else target.roleId;
      var isActive := if change.isActive.Some? then change.isActive.value else target.isActive;
      users := users[u := target.(roleId := roleId, isActive := isActive)];
      return None;
    }

    method DisableUser(u: UserId) returns (out: Option<Error>)
      requires NamesUnique(roles)
      modifies this
      ensures View() == Next(old(View()), Step.DisableUser(u)) && out == RemovalError(old(View()), u)
    {
      out := CheckRemovable(u);
      if out.None? { users := users[u := users[u].(isActive := false)]; }
    }

    method DeleteUser(u: UserId) returns (out: Option<Error>)
      requires NamesUnique(roles)
      modifies this
      ensures View() == Next(old(View()), Step.DeleteUser(u)) && out == RemovalError(old(View()), u)
    {
      out := CheckRemovable(u);
      if out.None? { users := users[u := users[u].(deleted := true)]; }
    }

    method CheckRemovable(u: UserId) returns (out: Option<Error>)
      requires NamesUnique(roles)
      ensures out == RemovalError(View(), u)
    {
      if u !in users || users[u].deleted || !(users[u].kind == Staff || users[u].roleId.Some?) {
        return Some(NotFound);
      }
      var full := HoldsFullAdmin(u);
      if full && users[u].isActive {
        var ok := EnsureNotLastFullAdmin(u);
        if !ok { return Some(BadRequest); }
      }
      return None;
    }

    method UpdateRole(r: RoleId, name: RoleName) returns (out: Option<Error>)
      modifies this
      ensures View() == Next(old(View()), RenameRole(r, name))
      ensures out == if r !in old(roles) then Some(NotFound)
                     else if old(roles)[r] == FullAdmin && name != FullAdmin then Some(BadRequest)
                     else if name != old(roles)[r] && NameTaken(old(roles), name) then Some(Conflict) else None
    {
      if r !in roles { return Some(NotFound); }
      if roles[r] == FullAdmin && name != FullAdmin { return Some(BadRequest); }
      if name != roles[r] && NameTaken(roles, name) { return Some(Conflict); }
      roles := roles[r := name];
      return None;
    }

    method DeleteRole(r: RoleId) returns (out: Option<Error>)
      modifies this
      ensures View() == Next(old(View()), Step.DeleteRole(r))
      ensures out == if r !in old(roles) then Some(NotFound)
                     else if old(roles)[r] == FullAdmin || RoleInUse(old(View()), r) then Some(BadRequest) else None
    {
      if r !in roles { return Some(NotFound); }
      if roles[r] == FullAdmin { return Some(BadRequest); }
      var holders := set u | u in users && !users[u].deleted && users[u].roleId == Some(r);
      if |holders| > 0 {
        assert RoleInUse(View(), r) by { var u :| u in holders; assert Visible(View(), u); }
        return Some(BadRequest);
      }
      assert forall u :: u in users && Visible(View(), u) && users[u].roleId == Some(r) ==> u in holders;
      users := WithoutRole(users, r);
      roles, grants := roles - {r}, grants - {r};
      return None;
    }

    method CreateRole(r: RoleId, name: RoleName, keys: set<Permission>) returns (out: Option<Error>)
      requires r !in roles
      modifies this
      ensures View() == Next(old(View()), Step.CreateRole(r, name, keys))
      ensures out == if NameTaken(old(roles), name) then Some(Conflict) else None
    {
      if NameTaken(roles, name) { return Some(Conflict); }
      roles, grants := roles[r := name], grants[r := keys * permissions];
      return None;
    }

    /** Replaces the permissions of any role, full_admin included; an unknown one refuses the whole call. */
    method SetRolePermissions(r: RoleId, keys: set<Permission>) returns (out: Option<Error>)
      modifies this
      ensures View() == Next(old(View()), Step.SetRolePermissions(r, keys))
      ensures out == if r !in old(roles) then Some(NotFound)
                     else if !(keys <= old(permissions)) then Some(BadRequest) else None
    {
      if r !in roles { return Some(NotFound); }
      if !(keys <= permissions) { return Some(BadRequest); }
      grants := grants[r := keys];
      return None;
    }

    /** The other way to a staff account: no role, and the kind that was asked for. */
    method CreateAdminUser(u: UserId, email: Email, kind: Kind) returns (out: Option<Error>)
      requires u !in users
      modifies this
      ensures View() == Next(old(View()), Step.CreateAdminUser(u, email, kind))
      ensures out == CreateAdminError(old(View()), email)
    {
      var inUse := FindVisible(Some(email), None);
      if inUse { return Some(Conflict); }
      if EmailTaken(users, email) { return Some(Internal); }
      users := users[u := User(kind, None, true, false, email, None)];
      return None;
    }
  }
}
