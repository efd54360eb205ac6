/** The application shell (src/App.tsx): the redirect guard run once when the
    app mounts, and the path-to-view router run on every render. */
module AppRouter {
  import opened Wrappers
  import opened AuthAdapter

  datatype View = LoginScreen | TechnicianDashboard | AdminDashboard | CustomerDashboard

  predicate IsRoot(path: string)
  {
    path == "/" || path == ""
  }

  /** The dashboard an authenticated user is sent to from the root. */
  function DashboardPath(role: Option<string>): (r: string)
    ensures role == Some("Technician") ==> r == "/technician-dashboard"
    ensures role == Some("Admin") ==> r == "/admin-dashboard"
    ensures role != Some("Technician") && role != Some("Admin") ==> r == "/customer-dashboard"
  {
    if role == Some("Technician") then "/technician-dashboard"
    else if role == Some("Admin") then "/admin-dashboard"
    else "/customer-dashboard"
  }

  /** The path the initial guard replaces the location with, if any. */
  function GuardTarget(path: string, isAuth: bool, role: Option<string>): (r: Option<string>)
    ensures IsRoot(path) && isAuth ==> r == Some(DashboardPath(role))
    ensures IsRoot(path) && !isAuth ==> r == Some("/login")
    ensures !IsRoot(path) && !isAuth && path != "/login" ==> r == Some("/login")
    ensures !IsRoot(path) && isAuth ==> r == None
    ensures !IsRoot(path) && !isAuth && path == "/login" ==> r == None
    ensures r.Some? ==> !IsRoot(r.value)
  {
    if IsRoot(path) then
      if isAuth then Some(DashboardPath(role)) else Some("/login")
    else if !isAuth && path != "/login" then Some("/login")
    else None
  }

  /** The path in force once the guard has run. */
  function AfterGuard(path: string, isAuth: bool, role: Option<string>): string
  {
    match GuardTarget(path, isAuth, role)
    case Some(target) => target
    case None => path
  }

  /** The router: the four known paths render their screen whatever the user's
      authentication or role; any other path renders the customer dashboard
      when authenticated and the login screen otherwise. */
  function Route(path: string, isAuth: bool): (v: View)
    ensures path == "/login" ==> v == LoginScreen
    ensures path == "/technician-dashboard" ==> v == TechnicianDashboard
    ensures path == "/admin-dashboard" ==> v == AdminDashboard
    ensures path == "/customer-dashboard" ==> v == CustomerDashboard
    ensures path !in {"/login", "/technician-dashboard", "/admin-dashboard", "/customer-dashboard"} ==>
      v == (if isAuth then CustomerDashboard else LoginScreen)
  {
    if path == "/login" then LoginScreen
    else if path == "/technician-dashboard" then TechnicianDashboard
    else if path == "/admin-dashboard" then AdminDashboard
    else if path == "/customer-dashboard" then CustomerDashboard
    else if isAuth then CustomerDashboard else LoginScreen
  }

  /** The guard is idempotent: its own target is never redirected again. */
  lemma GuardIdempotent(path: string, isAuth: bool, role: Option<string>)
    ensures GuardTarget(AfterGuard(path, isAuth, role), isAuth, role) == None
  {
  }

  /** An unauthenticated user always sees the login screen once the guard has run. */
  lemma UnauthenticatedSeesLogin(path: string, role: Option<string>)
    ensures Route(AfterGuard(path, false, role), false) == LoginScreen
  {
  }

  /** From the root, an authenticated user lands on the screen of their role. */
  lemma RootLandsOnRoleScreen(path: string, role: Option<string>)
    requires IsRoot(path)
    ensures Route(AfterGuard(path, true, role), true) ==
      if role == Some("Technician") then TechnicianDashboard
      else if role == Some("Admin") then AdminDashboard
      else CustomerDashboard
  {
  }

  class App {
    /** `window.location.pathname`. */
    var location: string
    /** The `currentPath` state the router reads. */
    var currentPath: string

    constructor (location: string)
      ensures this.location == location && currentPath == location
    {
      this.location := location;
      currentPath := location;
    }

    /** The mount effect: reads the auth store once at clock reading `now` and,
        when the guard says so, replaces the location and the current path. It
        runs on mount, while the current path is still the initial location. */
    method InitialGuard(auth: AuthStore, now: int)
      requires currentPath == location
      modifies this
      ensures currentPath == location
      ensures location == AfterGuard(old(location), auth.IsAuthenticated(now), auth.GetRole())
      ensures !auth.IsAuthenticated(now) ==> Render(auth, now) == LoginScreen
      ensures !IsRoot(old(location)) && auth.IsAuthenticated(now) ==> location == old(location) && currentPath == old(currentPath)
    {
      var path := location;
      var isAuth := auth.IsAuthenticated(now);
      if path == "/" || path == "" {
        if isAuth {
          var role := auth.GetRole();
          if role == Some("Technician") {
            location := "/technician-dashboard";
            currentPath := "/technician-dashboard";
          } else if role == Some("Admin") {
            location := "/admin-dashboard";
            currentPath := "/admin-dashboard";
          } else {
            location := "/customer-dashboard";
            currentPath := "/customer-dashboard";
          }
        } else {
          location := "/login";
          currentPath := "/login";
        }
      } else if !isAuth && path != "/login" {
        location := "/login";
        currentPath := "/login";
      }
      UnauthenticatedSeesLogin(path, auth.GetRole());
    }

    /** The `popstate` listener: browser navigation updates the current path
        without running the guard again. */
    method PopState(newLocation: string)
      modifies this
      ensures location == newLocation && currentPath == newLocation
    {
      location := newLocation;
      currentPath := location;
    }

    /** What the component renders, reading the auth store at clock reading `now`. */
    function Render(auth: AuthStore, now: int): View
      reads this, auth
    {
      Route(currentPath, auth.IsAuthenticated(now))
    }
  }
}
