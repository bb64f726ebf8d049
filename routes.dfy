/** The browser router: the route table under "/" and what each path renders
    against the one session provider that wraps the whole router. A path is
    given as its segments (split on "/", empty segments dropped); segment
    matching ignores ASCII case, as the router does by default. */
module Routes {
  import opened Common
  import Session
  import AccessGate

  datatype Page = RegisterPage | LoginPage | IntroPage | CenterPage | Homepage

  /** What a child route renders: a page, or a page wrapped in the access gate. */
  datatype Element = Plain(page: Page) | Protected(page: Page)

  /** The named child routes of "/", in declaration order. */
  const Children: seq<(string, Element)> := [
    ("register", Plain(RegisterPage)),
    ("login", Plain(LoginPage)),
    ("intro", Plain(IntroPage)),
    ("center", Plain(CenterPage)),
    ("dashboard", Protected(Homepage))
  ]

  /** The `*` child route. */
  const Fallback: Element := Plain(LoginPage)

  /** Which route a path selects: "/" itself renders only the application shell. */
  datatype Match = ShellOnly | Child(element: Element)

  function FindChild(name: string, routes: seq<(string, Element)>): Element
    decreases |routes|
  {
    if routes == [] then Fallback
    else if routes[0].0 == name then routes[0].1
    else FindChild(name, routes[1..])
  }

  function Lookup(segments: seq<string>): Match {
    if segments == [] then ShellOnly
    else if |segments| == 1 then Child(FindChild(Lower(segments[0]), Children))
    else Child(Fallback)
  }

  /** What the browser shows. */
  datatype Screen =
    | Shell
    | Shows(page: Page)
    | Checking
    | RedirectTo(to: string, replace: bool)

  /** The screen for a path, with every route reading the same provider state. */
  function Render(segments: seq<string>, s: Session.State): Screen {
    match Lookup(segments)
    case ShellOnly => Shell
    case Child(Plain(p)) => Shows(p)
    case Child(Protected(p)) =>
      match AccessGate.DecideFor(s)
      case Pending => Checking
      case Redirect(to, replace) => RedirectTo(to, replace)
      case RenderChildren => Shows(p)
  }

  predicate IsDashboard(segments: seq<string>) {
    |segments| == 1 && Lower(segments[0]) == "dashboard"
  }

  /** Only the dashboard path goes through the gate. */
  lemma OnlyDashboardIsGated(segments: seq<string>)
    ensures (Lookup(segments).Child? && Lookup(segments).element.Protected?) <==> IsDashboard(segments)
    ensures IsDashboard(segments) ==> Lookup(segments) == Child(Protected(Homepage))
  {
  }

  /** The register, login, intro and center paths render their pages directly. */
  lemma OpenRoutesRenderWithoutGate(s: Session.State)
    ensures Render(["register"], s) == Shows(RegisterPage)
    ensures Render(["login"], s) == Shows(LoginPage)
    ensures Render(["intro"], s) == Shows(IntroPage)
    ensures Render(["center"], s) == Shows(CenterPage)
  {
    LowerOfLowercase("register");
    LowerOfLowercase("login");
    LowerOfLowercase("intro");
    LowerOfLowercase("center");
  }

  /** A path that names none of the child routes renders the login page. */
  lemma {:induction false} UnmatchedPathRendersLogin(segments: seq<string>, s: Session.State)
    requires segments != []
    requires |segments| == 1 ==> Lower(segments[0]) !in {"register", "login", "intro", "center", "dashboard"}
    ensures Render(segments, s) == Shows(LoginPage)
  {
    if |segments| == 1 {
      var name := Lower(segments[0]);
      assert FindChild(name, Children[4..]) == Fallback;
      assert FindChild(name, Children[3..]) == Fallback;
      assert FindChild(name, Children[2..]) == Fallback;
      assert FindChild(name, Children[1..]) == Fallback;
    }
  }

  /** Outside the dashboard the route table's choice does not depend on the
      session: any two provider states select the same element. (The login page
      it may select then redirects a signed-in user on its own.) */
  lemma SessionOnlyAffectsDashboard(segments: seq<string>, s: Session.State, s': Session.State)
    requires !IsDashboard(segments)
    ensures Render(segments, s) == Render(segments, s')
  {
    OnlyDashboardIsGated(segments);
  }

  /** The dashboard path shows exactly what the gate decides for the provider's
      state: the pending indicator, a redirect to the login page, or the page. */
  lemma DashboardFollowsGate(segments: seq<string>, s: Session.State)
    requires IsDashboard(segments)
    ensures Render(segments, s) == Checking <==> s.loading
    ensures Render(segments, s) == RedirectTo("/login", true) <==> !s.loading && s.user.None?
    ensures Render(segments, s) == Shows(Homepage) <==> !s.loading && s.user.Some?
  {
    OnlyDashboardIsGated(segments);
  }
}
