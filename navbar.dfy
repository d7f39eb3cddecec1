/** `getDashboardLink` of `src/components/Navbar.tsx`, and its agreement
    with the dashboard gate. */
module Navbar {
  import opened Domain
  import opened Text
  import Middleware

  /** The dashboard a signed-in user is sent to; "/dashboard" without a
      session. `Role` is closed, so the switch's default case cannot occur. */
  function DashboardLink(session: Session): (link: string)
    ensures session.None? ==> link == "/dashboard"
    ensures session.Some? && session.value.role == Role.Admin ==> link == Middleware.AdminArea
    ensures session.Some? && session.value.role == Role.Landlord ==> link == Middleware.LandlordArea
    ensures session.Some? && session.value.role == Role.Tenant ==> link == Middleware.TenantArea
  {
    if session.None? then "/dashboard"
    else
      match session.value.role
      case Admin => "/dashboard/admin"
      case Landlord => "/dashboard/landlord"
      case Tenant => "/dashboard/tenant"
  }

  /** The link offered to a signed-in user is one the gate lets that user's
      token through, and sends every other role to `/unauthorized`. */
  lemma LinkPassesGateForOwnRoleOnly(id: int, role: Role, other: Role)
    ensures Middleware.Gate(DashboardLink(Some(Identity(id, role))), Some(role)) == Middleware.Pass
    ensures other != role ==>
              Middleware.Gate(DashboardLink(Some(Identity(id, role))), Some(other)) ==
              Middleware.Redirect(Middleware.UnauthorizedPage)
  {
    var link := DashboardLink(Some(Identity(id, role)));
    match role
    case Admin =>
      assert StartsWith(link, Middleware.AdminArea);
      Middleware.AreaNeedsItsRole(link, role, Middleware.AdminArea, Role.Admin);
      Middleware.AreaNeedsItsRole(link, other, Middleware.AdminArea, Role.Admin);
    case Landlord =>
      assert StartsWith(link, Middleware.LandlordArea);
      Middleware.AreaNeedsItsRole(link, role, Middleware.LandlordArea, Role.Landlord);
      Middleware.AreaNeedsItsRole(link, other, Middleware.LandlordArea, Role.Landlord);
    case Tenant =>
      assert StartsWith(link, Middleware.TenantArea);
      Middleware.AreaNeedsItsRole(link, role, Middleware.TenantArea, Role.Tenant);
      Middleware.AreaNeedsItsRole(link, other, Middleware.TenantArea, Role.Tenant);
  }

  /** Without a session the link is the dashboard root, which the gate
      sends to sign-in. */
  lemma SignedOutLinkAsksForSignIn()
    ensures Middleware.Gate(DashboardLink(None), None) == Middleware.SignIn
  {
  }
}
