/**
  The dashboard sidebar's navigation (src/components/dashboard/sidebar.tsx):
  the list of routes and which of them is highlighted for the current
  pathname. The icons are left out; the session is reduced to the role it
  carries, if any.
 */
module Sidebar {
  import opened JsText

  datatype Route = Route(title: string, href: string, active: bool)

  predicate OverviewActive(pathname: string) {
    pathname == "/dashboard"
  }

  predicate MyClaimsActive(pathname: string) {
    StartsWith(pathname, "/dashboard/claims") && pathname != "/dashboard/claims/new"
  }

  predicate NewClaimActive(pathname: string) {
    pathname == "/dashboard/claims/new"
  }

  predicate AdminPanelActive(pathname: string) {
    StartsWith(pathname, "/admin")
  }

  /** `(session?.user as any)?.role === "ADMIN"`. */
  predicate IsAdminRole(role: Option<string>) {
    role == Some("ADMIN")
  }

  /**
    The `routes` array: the three dashboard entries, then the admin entry
    pushed for an admin only; each entry's flag follows the pathname rule.
   */
  method BuildRoutes(pathname: string, role: Option<string>) returns (routes: seq<Route>)
    ensures |routes| == if IsAdminRole(role) then 4 else 3
    ensures routes[0] == Route("Overview", "/dashboard", OverviewActive(pathname))
    ensures routes[1] == Route("My Claims", "/dashboard/claims", MyClaimsActive(pathname))
    ensures routes[2] == Route("New Claim", "/dashboard/claims/new", NewClaimActive(pathname))
    ensures IsAdminRole(role) ==> routes[3] == Route("Admin Panel", "/admin", AdminPanelActive(pathname))
  {
    routes := [
      Route("Overview", "/dashboard", OverviewActive(pathname)),
      Route("My Claims", "/dashboard/claims", MyClaimsActive(pathname)),
      Route("New Claim", "/dashboard/claims/new", NewClaimActive(pathname))
    ];
    if IsAdminRole(role) {
      routes := routes + [Route("Admin Panel", "/admin", AdminPanelActive(pathname))];
    }
  }

  /** For any pathname at most one of the three dashboard entries is highlighted. */
  lemma AtMostOneDashboardEntryActive(pathname: string)
    ensures !(OverviewActive(pathname) && MyClaimsActive(pathname))
    ensures !(OverviewActive(pathname) && NewClaimActive(pathname))
    ensures !(MyClaimsActive(pathname) && NewClaimActive(pathname))
  {
    if OverviewActive(pathname) {
      assert |pathname| < |"/dashboard/claims"|;
    }
  }

  /** Every page under the claims section highlights exactly one of "My Claims" and "New Claim". */
  lemma ClaimsSectionHighlightsOne(pathname: string)
    requires StartsWith(pathname, "/dashboard/claims")
    ensures MyClaimsActive(pathname) != NewClaimActive(pathname)
    ensures !OverviewActive(pathname)
  {
  }

  /** A claim's detail page highlights "My Claims" and an admin page the admin entry only. */
  method DetailAndAdminPages() returns (detail: seq<Route>, admin: seq<Route>)
    ensures |detail| == 3 && detail[1].active && !detail[0].active && !detail[2].active
    ensures |admin| == 4 && admin[3].active && !admin[0].active && !admin[1].active && !admin[2].active
  {
    detail := BuildRoutes("/dashboard/claims/c1", Some("CLIENT"));
    assert "/dashboard/claims" <= "/dashboard/claims/c1";
    admin := BuildRoutes("/admin/claims", Some("ADMIN"));
    assert "/admin" <= "/admin/claims";
    assert !("/dashboard/claims" <= "/admin/claims");
  }
}
