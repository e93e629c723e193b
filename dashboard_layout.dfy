/**
 * The route guard of the dashboard shell (app/shared/ui/dashboard-layout.tsx):
 * signed-out visitors go to the login page, and a route that needs a
 * permission the user lacks sends them home.
 */
module DashboardLayout {
  import opened Js
  import opened Permissions
  import opened AuthStore
  import opened UsePermissions

  /** What the layout renders: a redirect, or the sidebar and page outlet. */
  datatype Outcome = Navigate(to: string) | Layout

  /** `routePermissions[pathname]`: only `/invite` needs a permission. */
  function RoutePermission(pathname: string): (p: Option<Permission>)
    ensures p.Some? <==> pathname == "/invite"
    ensures p.Some? ==> p.value == InviteUsers
  {
    if pathname == "/invite" then Some(InviteUsers) else None
  }

  /** The decision `DashboardLayout` makes before rendering. */
  function Guard(isAuthenticated: bool, user: Option<User>, pathname: string): (o: Outcome)
    ensures !isAuthenticated ==> o == Navigate("/login")
    ensures o == Navigate("/") <==> isAuthenticated && pathname == "/invite" && !Can(user, InviteUsers)
    ensures o == Layout <==> isAuthenticated && (pathname != "/invite" || Can(user, InviteUsers))
    ensures o.Navigate? ==> o.to == "/login" || o.to == "/"
  {
    if !isAuthenticated then Navigate("/login")
    else
      var required := RoutePermission(pathname);
      if required.Some? && !Can(user, required.value) then Navigate("/")
      else Layout
  }

  /** Authentication is decided first: without it, neither the path nor the
      user's permissions matter. */
  lemma AuthenticationFirst(user1: Option<User>, user2: Option<User>, path1: string, path2: string)
    ensures Guard(false, user1, path1) == Guard(false, user2, path2) == Navigate("/login")
  {
  }

  /** An authenticated user never lands on the login page. */
  lemma AuthenticatedNeverToLogin(user: Option<User>, pathname: string)
    ensures Guard(true, user, pathname) != Navigate("/login")
  {
  }

  /** Every signed-in admin gets the layout on every path; a signed-in
      customer-service agent gets it everywhere except `/invite`, where they
      are sent home. */
  lemma GuardByRole(s: Session, pathname: string)
    requires Consistent(s) && s.isAuthenticated
    ensures IsAdmin(s.user) ==> Guard(s.isAuthenticated, s.user, pathname) == Layout
    ensures IsCustomerService(s.user) ==>
              Guard(s.isAuthenticated, s.user, pathname) == (if pathname == "/invite" then Navigate("/") else Layout)
  {
    if IsAdmin(s.user) {
      AdminCanAll(s.user, InviteUsers);
    }
    if IsCustomerService(s.user) {
      CustomerServiceCan(s.user, InviteUsers);
    }
  }

  /** After a logout every path redirects to the login page. */
  lemma LoggedOutGoesToLogin(s: Session, pathname: string)
    ensures var t := AfterLogout(s); Guard(t.isAuthenticated, t.user, pathname) == Navigate("/login")
  {
  }

  /** A user whose account carries no role can still reach every page but
      `/invite` once signed in: the guard checks only that one route. */
  lemma RolelessUserSeesLayout(s: Session, u: User, token: string, pathname: string)
    requires u.role.None?
    ensures var t := AfterSetAuth(s, u, token);
            Guard(t.isAuthenticated, t.user, pathname) == (if pathname == "/invite" then Navigate("/") else Layout)
  {
  }
}
