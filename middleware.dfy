/** `middleware.ts`: the gate in front of every dashboard page. A path the
    matcher selects needs a token; the landlord, admin and tenant areas,
    recognised by prefix, also need the matching role. */
module Middleware {
  import opened Domain
  import opened Text

  /** What the gate does with a request. */
  datatype Outcome =
    | Pass                   // the page is served
    | SignIn                 // no token: `withAuth` sends the caller to sign in
    | Redirect(to: string)   // `Response.redirect`

  const UnauthorizedPage := "/unauthorized"
  const LandlordArea := "/dashboard/landlord"
  const AdminArea := "/dashboard/admin"
  const TenantArea := "/dashboard/tenant"

  /** `matcher: ["/dashboard/:path*"]`: the dashboard root and everything
      below it. */
  predicate Matched(path: string)
  {
    path == "/dashboard" || StartsWith(path, "/dashboard/")
  }

  /** The gate; `token` is the role the session token carries, `None` when
      there is no token. The three role checks run in order and the first
      that fails redirects. */
  function Gate(path: string, token: Option<Role>): (g: Outcome)
    ensures !Matched(path) ==> g == Pass
    ensures Matched(path) && token.None? ==> g == SignIn
    ensures g.Redirect? ==> g.to == UnauthorizedPage
    ensures Matched(path) && token.Some? ==>
              (g.Redirect? <==>
                 (StartsWith(path, LandlordArea) && token.value != Role.Landlord) ||
                 (StartsWith(path, AdminArea) && token.value != Role.Admin) ||
                 (StartsWith(path, TenantArea) && token.value != Role.Tenant))
    ensures g.SignIn? || g.Pass? || g.Redirect?
    ensures Matched(path) && token.Some? ==> !g.SignIn?
  {
    if !Matched(path) then Pass
    else if token.None? then SignIn
    else if StartsWith(path, LandlordArea) && token.value != Role.Landlord then Redirect(UnauthorizedPage)
    else if StartsWith(path, AdminArea) && token.value != Role.Admin then Redirect(UnauthorizedPage)
    else if StartsWith(path, TenantArea) && token.value != Role.Tenant then Redirect(UnauthorizedPage)
    else Pass
  }

  /** Each area prefix lies below the matcher's `/dashboard/`. */
  lemma AreasAreMatched(path: string)
    ensures StartsWith(path, LandlordArea) || StartsWith(path, AdminArea) || StartsWith(path, TenantArea) ==>
              Matched(path)
  {
    if StartsWith(path, LandlordArea) {
      assert path[..11] == LandlordArea[..11];
    } else if StartsWith(path, AdminArea) {
      assert path[..11] == AdminArea[..11];
    } else if StartsWith(path, TenantArea) {
      assert path[..11] == TenantArea[..11];
    }
  }

  /** The three area prefixes differ at their twelfth character, so no path
      lies in two areas and at most one role rule applies. */
  lemma AreasAreExclusive(path: string)
    ensures !(StartsWith(path, LandlordArea) && StartsWith(path, AdminArea))
    ensures !(StartsWith(path, LandlordArea) && StartsWith(path, TenantArea))
    ensures !(StartsWith(path, AdminArea) && StartsWith(path, TenantArea))
  {
    if StartsWith(path, LandlordArea) {
      assert path[11] == LandlordArea[11] == 'l';
    }
    if StartsWith(path, AdminArea) {
      assert path[11] == AdminArea[11] == 'a';
    }
    if StartsWith(path, TenantArea) {
      assert path[11] == TenantArea[11] == 't';
    }
  }

  /** Inside an area, a token passes exactly when it carries that area's
      role; any other role is sent to `/unauthorized`. */
  lemma AreaNeedsItsRole(path: string, role: Role, area: string, required: Role)
    requires (area, required) in {(LandlordArea, Role.Landlord), (AdminArea, Role.Admin), (TenantArea, Role.Tenant)}
    requires StartsWith(path, area)
    ensures Gate(path, Some(role)) == (if role == required then Pass else Redirect(UnauthorizedPage))
  {
    AreasAreMatched(path);
    AreasAreExclusive(path);
  }

  /** Outside the three areas, any token passes a matched path. */
  lemma OtherDashboardPathsNeedOnlyAToken(path: string, role: Role)
    requires Matched(path)
    requires !StartsWith(path, LandlordArea) && !StartsWith(path, AdminArea) && !StartsWith(path, TenantArea)
    ensures Gate(path, Some(role)) == Pass
    ensures Gate(path, None) == SignIn
  {
  }

  /** Gating is by prefix: `/dashboard/landlord-x` is a landlord path. */
  lemma PrefixGatesLookalikePaths()
    ensures Gate("/dashboard/landlord-x", Some(Role.Tenant)) == Redirect(UnauthorizedPage)
    ensures Gate("/dashboard/landlord-x", Some(Role.Landlord)) == Pass
  {
    assert StartsWith("/dashboard/landlord-x", LandlordArea);
    AreasAreMatched("/dashboard/landlord-x");
    AreasAreExclusive("/dashboard/landlord-x");
  }
}
