/** The route table of the application shell and the guard that decides, per route, render or redirect. */
module Routes {
  import opened Wrappers

  /** The six routes of the table; `TaskRoute` carries the `:id` path parameter. */
  datatype Route = LoginRoute | SignupRoute | RootRoute | DashboardRoute | CalendarRoute | TaskRoute(taskId: string)

  /** The page a route renders when its guard lets it through. */
  datatype Page = LoginPage | SignUpPage | DashboardPage | CalendarPage | TaskDetailPage(taskId: string)

  /** What navigating to a path yields: a page, a redirect to another path, or nothing when no route matches. */
  datatype Outcome = Render(page: Page) | Redirect(to: string) | NoMatch

  const LoginPath: string := "/login"
  const SignupPath: string := "/signup"
  const RootPath: string := "/"
  const DashboardPath: string := "/dashboard"
  const CalendarPath: string := "/calendar"
  const TaskPrefix: string := "/task/"

  /** A value for a dynamic path segment: non-empty and free of '/'. */
  predicate IsSegment(s: string)
  {
    |s| > 0 && '/' !in s
  }

  /** Routes that can be written as a path (the task identifier must be one segment). */
  predicate WellFormed(r: Route)
  {
    r.TaskRoute? ==> IsSegment(r.taskId)
  }

  /** The routes that only an authenticated session may see. */
  predicate IsProtected(r: Route)
  {
    r.DashboardRoute? || r.CalendarRoute? || r.TaskRoute?
  }

  /** The routes that only a logged-out session may see. */
  predicate IsGuestOnly(r: Route)
  {
    r.LoginRoute? || r.SignupRoute?
  }

  /** The path a route is declared under. */
  function PathOf(r: Route): string
  {
    match r
    case LoginRoute => LoginPath
    case SignupRoute => SignupPath
    case RootRoute => RootPath
    case DashboardRoute => DashboardPath
    case CalendarRoute => CalendarPath
    case TaskRoute(id) => TaskPrefix + id
  }

  /** Matching a concrete path against the table; `/task/:id` binds one non-empty segment. */
  function Match(path: string): (r: Option<Route>)
    ensures r.Some? ==> WellFormed(r.value)
  {
    if path == LoginPath then Some(LoginRoute)
    else if path == SignupPath then Some(SignupRoute)
    else if path == RootPath then Some(RootRoute)
    else if path == DashboardPath then Some(DashboardRoute)
    else if path == CalendarPath then Some(CalendarRoute)
    else if |path| > |TaskPrefix| && path[..|TaskPrefix|] == TaskPrefix && IsSegment(path[|TaskPrefix|..])
    then Some(TaskRoute(path[|TaskPrefix|..]))
    else None
  }

  /** Every well-formed route is found again by matching its own path. */
  lemma MatchPathOf(r: Route)
    requires WellFormed(r)
    ensures Match(PathOf(r)) == Some(r)
  {
    if r.TaskRoute? {
      var p := TaskPrefix + r.taskId;
      assert p[..|TaskPrefix|] == TaskPrefix;
      assert p[|TaskPrefix|..] == r.taskId;
      assert p != LoginPath && p != SignupPath && p != RootPath by {
        assert p[1] == 't';
      }
      assert p != DashboardPath && p != CalendarPath by {
        assert p[1] == 't';
      }
    }
  }

  /** A path matches a route only if it is exactly that route's path. */
  lemma MatchIsPathOf(path: string)
    requires Match(path).Some?
    ensures PathOf(Match(path).value) == path
  {
    if Match(path).value.TaskRoute? {
      assert path == path[..|TaskPrefix|] + path[|TaskPrefix|..];
    }
  }

  /** The guard table of one route, given the session flag. */
  function Decide(r: Route, authenticated: bool): (o: Outcome)
    ensures IsProtected(r) ==> (o.Render? <==> authenticated)
    ensures IsProtected(r) && !authenticated ==> o == Redirect(LoginPath)
    ensures IsGuestOnly(r) ==> (o == Redirect(DashboardPath) <==> authenticated)
    ensures IsGuestOnly(r) && !authenticated ==> o.Render?
    ensures r.RootRoute? ==> o.Redirect? && (o.to == DashboardPath <==> authenticated)
    ensures r.RootRoute? && !authenticated ==> o == Redirect(LoginPath)
    ensures o.Render? ==> PageRoute(o.page) == r
  {
    match r
    case LoginRoute => if !authenticated then Render(LoginPage) else Redirect(DashboardPath)
    case SignupRoute => if !authenticated then Render(SignUpPage) else Redirect(DashboardPath)
    case RootRoute => if authenticated then Redirect(DashboardPath) else Redirect(LoginPath)
    case DashboardRoute => if authenticated then Render(DashboardPage) else Redirect(LoginPath)
    case CalendarRoute => if authenticated then Render(CalendarPage) else Redirect(LoginPath)
    case TaskRoute(id) => if authenticated then Render(TaskDetailPage(id)) else Redirect(LoginPath)
  }

  /** The route a page is mounted under. */
  function PageRoute(p: Page): Route
  {
    match p
    case LoginPage => LoginRoute
    case SignUpPage => SignupRoute
    case DashboardPage => DashboardRoute
    case CalendarPage => CalendarRoute
    case TaskDetailPage(id) => TaskRoute(id)
  }

  /** Navigation: match the path, then apply that route's guard; unmatched paths render nothing. */
  function Navigate(path: string, authenticated: bool): (o: Outcome)
    ensures o.NoMatch? <==> Match(path).None?
    ensures o.Render? ==> Match(path) == Some(PageRoute(o.page))
  {
    match Match(path)
    case None => NoMatch
    case Some(r) => Decide(r, authenticated)
  }

  /** Every redirect lands on a path that renders a page for the same session: no redirect chains or loops. */
  lemma RedirectSettles(path: string, authenticated: bool)
    requires Navigate(path, authenticated).Redirect?
    ensures Navigate(Navigate(path, authenticated).to, authenticated).Render?
  {
    var to := Navigate(path, authenticated).to;
    if authenticated {
      assert to == DashboardPath;
      MatchPathOf(DashboardRoute);
    } else {
      assert to == LoginPath;
      MatchPathOf(LoginRoute);
    }
  }

  /** A page is shown exactly when its route's access rule admits the session. */
  lemma RenderIffAdmitted(path: string, authenticated: bool)
    requires Match(path).Some?
    ensures Navigate(path, authenticated).Render? <==>
            (if IsProtected(Match(path).value) then authenticated
             else if IsGuestOnly(Match(path).value) then !authenticated
             else false)
  {
  }

  /** Unauthenticated visit to the dashboard goes to the login page. */
  lemma GuestVisitsDashboard()
    ensures Navigate("/dashboard", false) == Redirect("/login")
  {
    MatchPathOf(DashboardRoute);
  }
}
