/**
 * The post-login redirect of the web front end (frontend/src/lib/dashboardRouting.ts).
 * Here the role and the vendor id are untyped strings that may be null; JavaScript's
 * truthiness makes the empty string count as missing. The hook's only effect, a
 * `navigate(..., { replace: true })` call, is its decision: the route, or none.
 */
module DashboardRouting {
  import opened Records
  import RoleManagement

  type Route = RoleManagement.Route

  /** A non-null, non-empty string. */
  predicate Truthy(s: Option<string>) { s.Some? && s.value != "" }

  /** `getDashboardDestination` (dashboardRouting.ts:64-80). */
  function DashboardDestination(role: Option<string>, vendorId: Option<string>, vendorApproved: bool): (route: Route)
    ensures role == Some("admin") ==> route == RoleManagement.AdminPage
    ensures role == Some("vendor") ==>
      (route == RoleManagement.VendorDashboardPage <==> Truthy(vendorId) && vendorApproved)
    ensures role == Some("vendor") && !(Truthy(vendorId) && vendorApproved) ==> route == RoleManagement.VendorRegisterPage
    ensures role != Some("admin") && role != Some("vendor") ==> route == RoleManagement.HomePage
    ensures route != RoleManagement.AuthPage
  {
    if role == Some("admin") then RoleManagement.AdminPage
    else if role == Some("vendor") then
      if Truthy(vendorId) && vendorApproved then RoleManagement.VendorDashboardPage else RoleManagement.VendorRegisterPage
    else RoleManagement.HomePage
  }

  /** The effect of `useDashboardRouting` (dashboardRouting.ts:31-57): no navigation while
      auth loads or without a user or role; otherwise the explicit if-chain. */
  function HookNavigation(userPresent: bool, role: Option<string>, vendorId: Option<string>,
                          vendorApproved: bool, authLoading: bool): (nav: Option<Route>)
    ensures authLoading || !userPresent || !Truthy(role) ==> nav.None?
  {
    if authLoading || !userPresent || !Truthy(role) then None
    else if role.value == "admin" then Some(RoleManagement.AdminPage)
    else if role.value == "vendor" then
      if Truthy(vendorId) then
        if vendorApproved then Some(RoleManagement.VendorDashboardPage) else Some(RoleManagement.VendorRegisterPage)
      else Some(RoleManagement.VendorRegisterPage)
    else Some(RoleManagement.HomePage)
  }

  /** Once it acts, the hook goes exactly where `getDashboardDestination` points. */
  lemma HookFollowsDestination(userPresent: bool, role: Option<string>, vendorId: Option<string>,
                               vendorApproved: bool, authLoading: bool)
    ensures !authLoading && userPresent && Truthy(role) ==>
      HookNavigation(userPresent, role, vendorId, vendorApproved, authLoading)
        == Some(DashboardDestination(role, vendorId, vendorApproved))
    ensures HookNavigation(userPresent, role, vendorId, vendorApproved, authLoading).Some? <==>
      !authLoading && userPresent && Truthy(role)
  {
  }

  /** The role's name as `user_roles` stores it. */
  function RoleName(r: Role): (s: string)
    ensures s != ""
  {
    match r
    case AdminRole => "admin"
    case VendorRole => "vendor"
    case CustomerRole => "customer"
  }

  /** For a known role the two route helpers agree, once a vendor counts as approved only with
      a vendor id; with no role, `getDashboardRoute` sends the user to sign in but
      `getDashboardDestination` sends them home. */
  lemma DestinationAgreesWithRoute(role: Option<Role>, vendorId: Option<string>, vendorApproved: bool)
    ensures role.Some? ==>
      DashboardDestination(Some(RoleName(role.value)), vendorId, vendorApproved)
        == RoleManagement.DashboardRoute(role, Truthy(vendorId) && vendorApproved)
    ensures role.None? ==>
      && DashboardDestination(None, vendorId, vendorApproved) == RoleManagement.HomePage
      && RoleManagement.DashboardRoute(None, vendorApproved) == RoleManagement.AuthPage
  {
  }
}
