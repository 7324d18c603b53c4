/** The hash router of the single-page client (`loadApp`): from the location hash and the stored
    user's role, the page it renders or the hash it moves to. */
module Router {
  import opened Js

  datatype Page = LoginPage | AdminPage | ManagerPage | DashboardPage

  /** What one run of the router does. Every branch either renders a page, assigns a new hash,
      or both (the forced login); `Deny` is the access-denied alert followed by a hash assignment. */
  datatype Outcome =
    | ForceLogin              // hash := '#login' and render the login page
    | Redirect(hash: string)  // hash := target, nothing rendered
    | Render(page: Page)
    | Deny(hash: string)      // alert, then hash := '#dashboard'

  /** `window.location.hash.slice(1) || 'login'`. */
  function Fragment(hash: string): (f: string)
    ensures f != ""
    ensures |hash| <= 1 ==> f == "login"
    ensures |hash| > 1 ==> f == hash[1..]
  {
    var rest := if |hash| > 0 then hash[1..] else "";
    if rest == "" then "login" else rest
  }

  /** The hash a logged-in user visiting `#login` is sent to. */
  function HomeHash(role: string): string {
    if role == "admin" then "#admin" else "#dashboard"
  }

  /** `loadApp`; `role` is `None` when no user is stored. */
  function Route(hash: string, role: Option<string>): Outcome {
    var f := Fragment(hash);
    if role.None? && f != "login" then ForceLogin
    else if role.Some? && f == "login" then Redirect(HomeHash(role.value))
    else if f == "login" then Render(LoginPage)
    else if f == "admin" then
      (if role.Some? && role.value == "admin" then Render(AdminPage) else Deny("#dashboard"))
    else if f == "manager" then
      (if role.Some? && role.value == "manager" then Render(ManagerPage) else Deny("#dashboard"))
    else Render(DashboardPage)
  }

  /** Whether the outcome shows the login page. */
  predicate ShowsLogin(o: Outcome) {
    o == ForceLogin || o == Render(LoginPage)
  }

  /** An empty hash (or a bare `#`) is the login route. */
  lemma EmptyHashIsLogin(role: Option<string>)
    ensures Route("", role) == Route("#login", role)
    ensures Route("#", role) == Route("#login", role)
  {
  }

  /** The login page is shown exactly when nobody is logged in. */
  lemma LoginPageIffLoggedOut(hash: string, role: Option<string>)
    ensures ShowsLogin(Route(hash, role)) <==> role.None?
  {
  }

  /** Logged out, every hash but `#login` forces `#login`. */
  lemma LoggedOutForcedToLogin(hash: string)
    ensures Fragment(hash) != "login" <==> Route(hash, None) == ForceLogin
  {
  }

  /** Logged in on `#login`: admins go to `#admin`, everybody else to `#dashboard`, nothing rendered. */
  lemma LoggedInLeavesLogin(role: string)
    ensures Route("#login", Some(role)) == Redirect(if role == "admin" then "#admin" else "#dashboard")
  {
  }

  /** The admin page is rendered only to admins on `#admin`, the manager page only to managers on
      `#manager`; any other logged-in user asking for them is denied and sent to `#dashboard`. */
  lemma RoleGatedPages(hash: string, role: Option<string>)
    ensures Route(hash, role) == Render(AdminPage) <==> Fragment(hash) == "admin" && role == Some("admin")
    ensures Route(hash, role) == Render(ManagerPage) <==> Fragment(hash) == "manager" && role == Some("manager")
    ensures role.Some? && Fragment(hash) == "admin" && role.value != "admin" ==> Route(hash, role) == Deny("#dashboard")
    ensures role.Some? && Fragment(hash) == "manager" && role.value != "manager" ==> Route(hash, role) == Deny("#dashboard")
  {
  }

  /** Every other fragment, `#employee` and unknown ones included, renders the dashboard for a logged-in user. */
  lemma OtherFragmentsShowDashboard(hash: string, role: string)
    requires Fragment(hash) !in {"login", "admin", "manager"}
    ensures Route(hash, Some(role)) == Render(DashboardPage)
  {
  }

  /** The hash an outcome moves to, if any. */
  function Target(o: Outcome): Option<string> {
    match o
    case ForceLogin => Some("#login")
    case Redirect(h) => Some(h)
    case Deny(h) => Some(h)
    case Render(_) => None
  }

  /** Routing settles in one step: when an outcome moves to a new hash, routing that hash for the
      same user renders a page without moving again. */
  lemma {:induction false} RedirectsSettle(hash: string, role: Option<string>)
    requires Target(Route(hash, role)).Some?
    ensures Route(Target(Route(hash, role)).value, role).Render?
  {
    var t := Target(Route(hash, role)).value;
    if role.None? {
      assert Fragment(t) == "login";
    } else if role.value == "admin" && Fragment(hash) == "login" {
      assert Fragment(t) == "admin";
    } else {
      assert Fragment(t) == "dashboard";
    }
  }
}
