/**
 * The route table of src/App.js: `ProtectedRoute`'s decision and the elements of the
 * `/login`, `/register`, `/admin`, `/dashboard`, `/profile` and `/` routes. The auth
 * context's `currentUser`, `isAdmin` and `isPlayer` are inputs.
 */
module AppRoutes {
  import opened Text
  import opened JsValue

  datatype Auth = Auth(currentUser: Value, isAdmin: bool, isPlayer: bool)

  datatype Page = LoginScreen | RegisterScreen | AdminDashboard | PlayerDashboard | ProfileScreen

  /** What a route renders: a page, or a `<Navigate to=…>`. */
  datatype Element = Render(page: Page) | Redirect(to: string)

  /** Where a signed-in user is sent: `isAdmin ? "/admin" : "/dashboard"`. */
  function HomeOf(auth: Auth): (r: string)
    ensures r == "/admin" <==> auth.isAdmin
    ensures r != "/admin" ==> r == "/dashboard"
  {
    if auth.isAdmin then "/admin" else "/dashboard"
  }

  /**
   * `ProtectedRoute`: the page shows for a signed-in user who holds the required role;
   * otherwise the signed-out user goes to `/login` and a user without the role goes to the
   * other dashboard.
   */
  function ProtectedRoute(auth: Auth, requiredRole: Value, child: Page): (r: Element)
    ensures r == Redirect("/login") <==> !Truthy(auth.currentUser)
    ensures r == Render(child) <==>
              Truthy(auth.currentUser) && (requiredRole == Str("ADMIN") ==> auth.isAdmin)
              && (requiredRole == Str("PLAYER") ==> auth.isPlayer)
    ensures r.Render? ==> r.page == child
    ensures r == Redirect("/dashboard") <==> Truthy(auth.currentUser) && requiredRole == Str("ADMIN") && !auth.isAdmin
    ensures r == Redirect("/admin") <==> Truthy(auth.currentUser) && requiredRole == Str("PLAYER") && !auth.isPlayer
  {
    if !Truthy(auth.currentUser) then Redirect("/login")
    else if requiredRole == Str("ADMIN") && !auth.isAdmin then Redirect("/dashboard")
    else if requiredRole == Str("PLAYER") && !auth.isPlayer then Redirect("/admin")
    else Render(child)
  }

  /** The element the route table gives a path; `None` for a path it does not list. */
  function Route(auth: Auth, path: string): (r: Option<Element>)
    ensures r.Some? <==> path in {"/login", "/register", "/admin", "/dashboard", "/profile", "/"}
  {
    if path == "/login" then
      Some(if !Truthy(auth.currentUser) then Render(LoginScreen) else Redirect(HomeOf(auth)))
    else if path == "/register" then
      Some(if !Truthy(auth.currentUser) then Render(RegisterScreen) else Redirect(HomeOf(auth)))
    else if path == "/admin" then Some(ProtectedRoute(auth, Str("ADMIN"), AdminDashboard))
    else if path == "/dashboard" then Some(ProtectedRoute(auth, Str("PLAYER"), PlayerDashboard))
    else if path == "/profile" then Some(ProtectedRoute(auth, Undefined, ProfileScreen))
    else if path == "/" then
      Some(Redirect(if Truthy(auth.currentUser) then HomeOf(auth) else "/login"))
    else None
  }

  /** Signed out, every protected page sends the user to `/login`, whatever role it needs. */
  lemma SignedOutGoesToLogin(auth: Auth, requiredRole: Value, child: Page)
    requires !Truthy(auth.currentUser)
    ensures ProtectedRoute(auth, requiredRole, child) == Redirect("/login")
    ensures Route(auth, "/admin") == Some(Redirect("/login"))
    ensures Route(auth, "/dashboard") == Some(Redirect("/login"))
    ensures Route(auth, "/profile") == Some(Redirect("/login"))
  {
  }

  /** A page without a required role shows for every signed-in user. */
  lemma ProfileForEveryUser(auth: Auth)
    requires Truthy(auth.currentUser)
    ensures Route(auth, "/profile") == Some(Render(ProfileScreen))
  {
  }

  /** `/login` and `/register` show only when signed out, and otherwise send the user home. */
  lemma AuthPagesOnlySignedOut(auth: Auth, path: string)
    requires path == "/login" || path == "/register"
    ensures Route(auth, path).value.Render? <==> !Truthy(auth.currentUser)
    ensures Truthy(auth.currentUser) ==> Route(auth, path) == Some(Redirect(HomeOf(auth)))
  {
  }

  /** `/` always redirects: to `/login` when signed out, else home. */
  lemma RootRedirects(auth: Auth)
    ensures Route(auth, "/") == Some(Redirect(if Truthy(auth.currentUser) then HomeOf(auth) else "/login"))
  {
  }

  /**
   * A signed-in user with neither role is sent from `/admin` to `/dashboard` and from
   * `/dashboard` back to `/admin`, so neither dashboard ever shows.
   */
  lemma NoRoleBounces(auth: Auth)
    requires Truthy(auth.currentUser) && !auth.isAdmin && !auth.isPlayer
    ensures Route(auth, "/admin") == Some(Redirect("/dashboard"))
    ensures Route(auth, "/dashboard") == Some(Redirect("/admin"))
    ensures Route(auth, "/") == Some(Redirect("/dashboard"))
  {
  }

  /** A signed-in user reaches a dashboard exactly when holding its role. */
  lemma SignedInWithRoleSeesDashboard(auth: Auth)
    requires Truthy(auth.currentUser)
    ensures auth.isAdmin <==> Route(auth, "/admin") == Some(Render(AdminDashboard))
    ensures auth.isPlayer <==> Route(auth, "/dashboard") == Some(Render(PlayerDashboard))
  {
  }
}
