/**
 * The role helpers of the web front end (frontend/src/lib/roleManagement.ts): the user's
 * primary role, the vendor approval status, the dashboard route and dashboard access.
 * The queries against `user_roles` and `vendors` are inputs: the role rows of the user
 * (None when the query failed) and the vendor rows.
 */
module RoleManagement {
  import opened Records
  import opened Tables
  import opened Aggregates

  /** The routes the front end sends a signed-in user to. */
  datatype Route = AuthPage | AdminPage | VendorDashboardPage | VendorRegisterPage | HomePage

  /** The priority of getUserRole: admin over vendor over customer. */
  function Rank(r: Role): nat
  {
    match r
    case AdminRole => 2
    case VendorRole => 1
    case CustomerRole => 0
  }

  /** `getUserRole` (roleManagement.ts:119-137). */
  function UserRoleOf(rows: Option<seq<Role>>): (r: Option<Role>)
    ensures rows.None? <==> r.None?
    ensures rows.Some? && |rows.value| == 0 ==> r == Some(CustomerRole)
    ensures rows.Some? ==> (r == Some(AdminRole) <==> AdminRole in rows.value)
    ensures rows.Some? ==> (r == Some(VendorRole) <==> AdminRole !in rows.value && VendorRole in rows.value)
  {
    match rows
    case None => None
    case Some(roles) =>
      if |roles| == 0 then Some(CustomerRole)
      else if AdminRole in roles then Some(AdminRole)
      else if VendorRole in roles then Some(VendorRole)
      else Some(CustomerRole)
  }

  /** The role chosen is the highest-ranked of the user's roles, and one of them when there
      are any. */
  lemma UserRoleIsHighest(roles: seq<Role>)
    ensures var r := UserRoleOf(Some(roles)).value;
      && (forall i :: 0 <= i < |roles| ==> Rank(roles[i]) <= Rank(r))
      && (|roles| > 0 ==> r in roles)
  {
    var r := UserRoleOf(Some(roles)).value;
    if |roles| > 0 && r == CustomerRole {
      assert roles[0] == CustomerRole;
    }
  }

  /** Adding a role row never lowers the user's role. */
  lemma MoreRolesNeverLower(roles: seq<Role>, extra: Role)
    ensures Rank(UserRoleOf(Some(roles)).value) <= Rank(UserRoleOf(Some(roles + [extra])).value)
  {
    assert forall x :: x in roles ==> x in roles + [extra];
    assert extra in roles + [extra];
  }

  predicate OfUser(v: Row<Vendor>, userId: Id) { v.val.userId == userId }

  /** The vendor rows of the user; `.single()` gives a row only when there is exactly one. */
  function SingleVendorRow(vendors: seq<Row<Vendor>>, userId: Id): (r: Option<Row<Vendor>>)
    ensures r.Some? ==> r.value in vendors && r.value.val.userId == userId
  {
    var mine := Filter(vendors, (v: Row<Vendor>) => OfUser(v, userId));
    if |mine| == 1 then Some(mine[0]) else None
  }

  /** `getVendorStatus` (roleManagement.ts:143-155): never "rejected". */
  function VendorStatusOf(vendors: seq<Row<Vendor>>, userId: Id): (r: Option<VendorStatus>)
    ensures r != Some(VendorRejected) && r != Some(VendorSuspended)
    ensures !(exists i :: 0 <= i < |vendors| && vendors[i].val.userId == userId) ==> r.None?
    ensures r.Some? <==> SingleVendorRow(vendors, userId).Some?
    ensures r.Some? ==> (r.value == VendorApproved <==> SingleVendorRow(vendors, userId).value.val.isApproved)
  {
    match SingleVendorRow(vendors, userId)
    case None => None
    case Some(row) => Some(if row.val.isApproved then VendorApproved else VendorPending)
  }

  /** `getVendorId` (roleManagement.ts:160-168): an empty id counts as none. */
  function VendorIdOf(vendors: seq<Row<Vendor>>, userId: Id): (r: Option<Id>)
    ensures r.Some? ==> r.value != "" && exists i :: 0 <= i < |vendors| && vendors[i].id == r.value && vendors[i].val.userId == userId
  {
    match SingleVendorRow(vendors, userId)
    case None => None
    case Some(row) => if row.id == "" then None else Some(row.id)
  }

  lemma {:induction false} CountNone<T>(s: seq<T>, p: T -> bool)
    requires forall j :: 0 <= j < |s| ==> !p(s[j])
    ensures Count(s, p) == 0
  {
    if |s| > 0 {
      CountNone(s[..|s| - 1], p);
    }
  }

  lemma {:induction false} CountSingle<T>(s: seq<T>, p: T -> bool, i: nat)
    requires i < |s| && p(s[i])
    requires forall j :: 0 <= j < |s| && j != i ==> !p(s[j])
    ensures Count(s, p) == 1
  {
    var init := s[..|s| - 1];
    if i == |s| - 1 {
      CountNone(init, p);
    } else {
      CountSingle(init, p, i);
    }
  }

  /** A user with exactly one vendor row gets that row's status, and its id when it has one. */
  lemma OneProfileStatus(vendors: seq<Row<Vendor>>, userId: Id, i: nat)
    requires i < |vendors| && vendors[i].val.userId == userId
    requires forall j :: 0 <= j < |vendors| && j != i ==> vendors[j].val.userId != userId
    ensures VendorStatusOf(vendors, userId) == Some(if vendors[i].val.isApproved then VendorApproved else VendorPending)
    ensures vendors[i].id != "" ==> VendorIdOf(vendors, userId) == Some(vendors[i].id)
  {
    var p := (v: Row<Vendor>) => OfUser(v, userId);
    CountSingle(vendors, p, i);
    var mine := Filter(vendors, p);
    assert |mine| == 1;
    assert vendors[i] in mine;
    assert mine[0] == vendors[i];
  }

  /** `getDashboardRoute` (roleManagement.ts:178-190). */
  function DashboardRoute(role: Option<Role>, vendorApproved: bool): (route: Route)
    ensures role.None? <==> route == AuthPage
    ensures route == AdminPage <==> role == Some(AdminRole)
    ensures route == HomePage <==> role == Some(CustomerRole)
    ensures role == Some(VendorRole) ==> (route == VendorDashboardPage <==> vendorApproved)
    ensures route == VendorRegisterPage <==> role == Some(VendorRole) && !vendorApproved
  {
    match role
    case None => AuthPage
    case Some(AdminRole) => AdminPage
    case Some(VendorRole) => if vendorApproved then VendorDashboardPage else VendorRegisterPage
    case Some(CustomerRole) => HomePage
  }

  /** `canAccessDashboard` (roleManagement.ts:195-204). */
  function CanAccessDashboard(role: Option<Role>, vendorApproved: bool): (ok: bool)
    ensures role.None? ==> !ok
    ensures role == Some(AdminRole) || role == Some(CustomerRole) ==> ok
    ensures role == Some(VendorRole) ==> (ok <==> vendorApproved)
  {
    if role.None? then false
    else if role.value == AdminRole then true
    else if role.value == VendorRole then vendorApproved
    else role.value == CustomerRole
  }

  /** Access is refused exactly when the route is the sign-in or the vendor registration page. */
  lemma AccessMatchesRoute(role: Option<Role>, vendorApproved: bool)
    ensures !CanAccessDashboard(role, vendorApproved) <==>
      DashboardRoute(role, vendorApproved) in {AuthPage, VendorRegisterPage}
  {
  }
}
