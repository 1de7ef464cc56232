/**
 * The client's route table and its navigation guard (`router.beforeEach`).
 * The guard's decision is the pure function Decide; BeforeEach adds what the
 * guard does to the browser: it writes the page title and reads the session
 * out of local storage.
 */
module Router {
  import opened Wrappers
  import opened Js
  import opened Web

  /** A route's `meta`: whether it needs a session, the role it is for, and its page title. */
  datatype Meta = Meta(requiresAuth: bool, role: Option<string>, title: Option<string>)

  /** The `meta` of a location no route record matches. */
  const NoMeta := Meta(false, None, None)

  datatype RouteRecord = RouteRecord(path: string, name: string, meta: Meta)

  const LoginPath := "/login"
  const RegisterPath := "/register"
  const FeedPath := "/feed"
  const DashboardPath := "/mod-dashboard"

  /** The four routes that render a view (the `/` record only redirects and never reaches the guard). */
  const Routes: seq<RouteRecord> := [
    RouteRecord(LoginPath, "Login", Meta(false, None, Some("Login - Abuse Moderation"))),
    RouteRecord(RegisterPath, "Registration", Meta(false, None, Some("Register - Abuse Moderation"))),
    RouteRecord(FeedPath, "UserFeed", Meta(true, Some("user"), Some("Feed - Abuse Moderation"))),
    RouteRecord(DashboardPath, "ModeratorDashboard", Meta(true, Some("moderator"), Some("Dashboard - Abuse Moderation")))
  ]

  function LowerAscii(c: char): char
  {
    if 'A' <= c <= 'Z' then (c as int - 'A' as int + 'a' as int) as char else c
  }

  /** ASCII lower-casing, which is all the case folding a match against the table's lower-case paths can use. */
  function Lower(s: string): (r: string)
    ensures |r| == |s|
  {
    seq(|s|, k requires 0 <= k < |s| => LowerAscii(s[k]))
  }

  /**
   * vue-router's default matching of a (lower-case) record path: case is
   * ignored and one trailing slash is allowed.
   */
  predicate Matches(recordPath: string, path: string)
  {
    Lower(path) == recordPath || Lower(path) == recordPath + "/"
  }

  /** The first record of `routes` that matches `path`, if there is one. */
  function Find(routes: seq<RouteRecord>, path: string): (r: Option<RouteRecord>)
    ensures r.Some? ==> r.value in routes && Matches(r.value.path, path)
    ensures r.None? <==> forall i :: 0 <= i < |routes| ==> !Matches(routes[i].path, path)
    decreases |routes|
  {
    if |routes| == 0 then None
    else if Matches(routes[0].path, path) then Some(routes[0])
    else Find(routes[1..], path)
  }

  /** The `meta` the guard sees for a path: the matching record's, or none at all when no record matches. */
  function MetaOf(path: string): (m: Meta)
    ensures (forall i :: 0 <= i < |Routes| ==> !Matches(Routes[i].path, path)) ==> m == NoMeta
    ensures Find(Routes, path).Some? ==> m == Find(Routes, path).value.meta
  {
    match Find(Routes, path)
    case Some(record) => record.meta
    case None => NoMeta
  }

  /** The destination of a navigation, `to` in the guard. */
  datatype Location = Location(path: string, meta: Meta)

  /** The guard's `to`: the path exactly as navigated to (not lower-cased), with the matched record's meta. */
  function Resolve(path: string): (to: Location)
    ensures to.path == path && to.meta == MetaOf(path)
  {
    Location(path, MetaOf(path))
  }

  /** The parsed user record; `role` is missing when the record has none (or a non-string one). */
  datatype User = User(role: Option<string>)

  /** Where the guard can send a navigation instead. */
  datatype Target = ToLogin | ToDashboard | ToFeed

  function PathOf(t: Target): string
  {
    match t
    case ToLogin => LoginPath
    case ToDashboard => DashboardPath
    case ToFeed => FeedPath
  }

  /** The one `next(...)` call a run of the guard makes. */
  datatype Decision = Allow | Redirect(target: Target)

  /** A session is there when the token is truthy and the user record parsed to a truthy value. */
  predicate SignedIn(token: Option<string>, user: Option<User>)
  {
    Present(token) && user.Some?
  }

  /** A route fits a user when it names no role or names the user's role. */
  predicate RoleFits(meta: Meta, user: User)
  {
    !Present(meta.role) || user.role == meta.role
  }

  /** The landing page of a signed-in user: the dashboard for a moderator, the feed for anybody else. */
  function RoleHome(user: User): Target
  {
    if user.role == Some("moderator") then ToDashboard else ToFeed
  }

  /** The pages meant only for visitors without a session. */
  predicate GuestOnly(path: string)
  {
    path == LoginPath || path == RegisterPath
  }

  /**
   * Who may enter a location, stated as two rules rather than as the guard's
   * branches: a protected route needs a session whose role fits it, and a
   * visitors' page needs there to be no session.
   */
  predicate MayEnter(to: Location, token: Option<string>, user: Option<User>)
  {
    && (to.meta.requiresAuth ==> SignedIn(token, user) && RoleFits(to.meta, user.value))
    && (GuestOnly(to.path) ==> !SignedIn(token, user))
  }

  /**
   * The guard's decision, branch by branch as the guard takes them. It lets
   * the navigation through exactly when MayEnter holds, and otherwise sends it
   * to the login page when there is no session and to the role's landing page
   * when there is one.
   */
  function Decide(to: Location, token: Option<string>, user: Option<User>): (d: Decision)
    ensures d == Allow <==> MayEnter(to, token, user)
    ensures d.Redirect? ==> d.target == if SignedIn(token, user) then RoleHome(user.value) else ToLogin
  {
    if to.meta.requiresAuth && (!Present(token) || user.None?) then
      Redirect(ToLogin)
    else if to.meta.requiresAuth && Present(to.meta.role) && user.value.role != to.meta.role then
      Redirect(RoleHome(user.value))
    else if GuestOnly(to.path) && Present(token) && user.Some? then
      Redirect(RoleHome(user.value))
    else
      Allow
  }

  /** A protected route with no token or no user record goes to the login page. */
  lemma SignedOutGoesToLogin(to: Location, token: Option<string>, user: Option<User>)
    requires to.meta.requiresAuth
    requires !Present(token) || user.None?
    ensures Decide(to, token, user) == Redirect(ToLogin)
  {
  }

  /** A protected route for another role sends the user to their own landing page. */
  lemma WrongRoleGoesHome(to: Location, token: Option<string>, user: User)
    requires to.meta.requiresAuth && Present(to.meta.role)
    requires Present(token) && user.role != to.meta.role
    ensures Decide(to, token, Some(user)) == Redirect(if user.role == Some("moderator") then ToDashboard else ToFeed)
  {
  }

  /** A signed-in user who opens the login or registration page is sent to their landing page. */
  lemma SignedInSkipsGuestPages(to: Location, token: Option<string>, user: User)
    requires GuestOnly(to.path) && Present(token)
    ensures Decide(to, token, Some(user)) == Redirect(RoleHome(user))
  {
  }

  /** Every other navigation is let through, among them a matching role and a signed-out visit to a guest page. */
  lemma OtherwiseAllowed(to: Location, token: Option<string>, user: Option<User>)
    requires to.meta.requiresAuth ==> SignedIn(token, user) && RoleFits(to.meta, user.value)
    requires GuestOnly(to.path) ==> !SignedIn(token, user)
    ensures Decide(to, token, user) == Allow
  {
  }

  /** The default page title, used when the route's meta has no (or an empty) title. */
  const DefaultTitle := "Abuse Moderation System"

  /** `to.meta.title || 'Abuse Moderation System'`: never empty, and the route's own title when it has one. */
  function TitleOf(meta: Meta): (t: string)
    ensures t != ""
    ensures Present(meta.title) ==> t == meta.title.value
    ensures !Present(meta.title) ==> t == DefaultTitle
  {
    if Present(meta.title) then meta.title.value else DefaultTitle
  }

  /** Every routed view has a title of its own; a location no record matches gets the default. */
  lemma TableTitles(path: string)
    ensures Matches(LoginPath, path) ==> TitleOf(MetaOf(path)) == "Login - Abuse Moderation"
    ensures Matches(RegisterPath, path) ==> TitleOf(MetaOf(path)) == "Register - Abuse Moderation"
    ensures Matches(FeedPath, path) ==> TitleOf(MetaOf(path)) == "Feed - Abuse Moderation"
    ensures Matches(DashboardPath, path) ==> TitleOf(MetaOf(path)) == "Dashboard - Abuse Moderation"
    ensures !IsRouted(path) ==> TitleOf(MetaOf(path)) == DefaultTitle
  {
    RouteTable(path);
  }

  /** Whether some record of the table matches the path. */
  predicate IsRouted(path: string)
  {
    Matches(LoginPath, path) || Matches(RegisterPath, path) || Matches(FeedPath, path) || Matches(DashboardPath, path)
  }

  /** What `JSON.parse` makes of the stored user string: it throws, or yields a falsy value, or a user. */
  datatype ParsedUser = Malformed | Parsed(user: Option<User>)

  /** A run of the guard either calls `next` once or throws out of the guard, which aborts the navigation. */
  datatype GuardResult = Decided(decision: Decision) | Aborted

  /**
   * One run of `router.beforeEach`: the title is written first, on every
   * navigation; then the session is read from storage, the stored user string
   * is parsed when it is truthy, and the decision is taken. A user string that
   * does not parse throws, so the navigation is aborted with the title already
   * written.
   */
  method BeforeEach(env: Browser, to: Location, parse: string -> ParsedUser) returns (r: GuardResult)
    modifies env`title
    ensures env.title == TitleOf(to.meta)
    ensures env.storage == old(env.storage) && env.location == old(env.location)
    ensures var token, userStr := env.GetItem(TokenKey), env.GetItem(UserKey);
      if Present(userStr) && parse(userStr.value).Malformed? then r == Aborted
      else r == Decided(Decide(to, token, if Present(userStr) then parse(userStr.value).user else None))
  {
    env.title := TitleOf(to.meta);
    var token := env.GetItem(TokenKey);
    var userStr := env.GetItem(UserKey);
    var user: Option<User> := None;
    if Present(userStr) {
      var parsed := parse(userStr.value);
      if parsed.Malformed? {
        return Aborted;
      }
      user := parsed.user;
    }
    r := Decided(Decide(to, token, user));
  }

  /** Lookups in the route table: each matching path gets its record's meta, and every other path none. */
  lemma RouteTable(path: string)
    ensures Matches(LoginPath, path) ==> MetaOf(path) == Meta(false, None, Some("Login - Abuse Moderation"))
    ensures Matches(RegisterPath, path) ==> MetaOf(path) == Meta(false, None, Some("Register - Abuse Moderation"))
    ensures Matches(FeedPath, path) ==> MetaOf(path) == Meta(true, Some("user"), Some("Feed - Abuse Moderation"))
    ensures Matches(DashboardPath, path) ==>
      MetaOf(path) == Meta(true, Some("moderator"), Some("Dashboard - Abuse Moderation"))
    ensures !IsRouted(path) ==> MetaOf(path) == NoMeta
  {
    assert Routes[1..][0] == Routes[1] && Routes[2..][0] == Routes[2] && Routes[3..][0] == Routes[3];
    assert Routes[1..][1..] == Routes[2..] && Routes[2..][1..] == Routes[3..] && Routes[3..][1..] == [];
    var p := Lower(path);
    DisjointRecords(path);
    if Matches(LoginPath, path) {
      assert Find(Routes, path) == Some(Routes[0]);
    } else if Matches(RegisterPath, path) {
      assert Find(Routes, path) == Find(Routes[1..], path) == Some(Routes[1]);
    } else if Matches(FeedPath, path) {
      assert p == "/feed" || p == "/feed/";
      assert Find(Routes, path) == Find(Routes[1..], path) == Find(Routes[2..], path) == Some(Routes[2]);
    } else if Matches(DashboardPath, path) {
      assert Find(Routes, path) == Find(Routes[1..], path) == Find(Routes[2..], path) == Find(Routes[3..], path)
        == Some(Routes[3]);
    } else {
      assert Find(Routes, path) == Find(Routes[1..], path) == Find(Routes[2..], path) == Find(Routes[3..], path)
        == Find([], path) == None;
    }
  }

  /** No path matches two records of the table. */
  lemma DisjointRecords(path: string)
    ensures Matches(LoginPath, path) ==> !Matches(RegisterPath, path) && !Matches(FeedPath, path) && !Matches(DashboardPath, path)
    ensures Matches(RegisterPath, path) ==> !Matches(FeedPath, path) && !Matches(DashboardPath, path)
    ensures Matches(FeedPath, path) ==> !Matches(DashboardPath, path)
  {
    // the second character tells the four record paths apart
    var p := Lower(path);
    if |p| > 1 {
      assert Matches(LoginPath, path) ==> p[1] == 'l';
      assert Matches(RegisterPath, path) ==> p[1] == 'r';
      assert Matches(FeedPath, path) ==> p[1] == 'f';
      assert Matches(DashboardPath, path) ==> p[1] == 'm';
    }
  }

  /** The routed paths match their own records. */
  lemma RoutedPathsMatch()
    ensures Matches(LoginPath, LoginPath) && Matches(RegisterPath, RegisterPath)
    ensures Matches(FeedPath, FeedPath) && Matches(DashboardPath, DashboardPath)
  {
  }

  /**
   * Every spelling that matches a protected record sends a visitor without a
   * session to the login page. Every spelling of a visitors' page other than
   * its exact path is let through with a session, since the visitors'-page
   * test compares `to.path` exactly.
   */
  lemma VariantSpellings(path: string, token: Option<string>, user: User)
    ensures Matches(FeedPath, path) || Matches(DashboardPath, path) ==>
      Decide(Resolve(path), None, None) == Redirect(ToLogin)
    ensures Present(token) && Matches(LoginPath, path) && path != LoginPath ==>
      Decide(Resolve(path), token, Some(user)) == Allow
    ensures Present(token) && Matches(RegisterPath, path) && path != RegisterPath ==>
      Decide(Resolve(path), token, Some(user)) == Allow
  {
    RouteTable(path);
  }

  /**
   * The feed's record also serves `/Feed` and `/feed/`, so a visitor without a
   * session is sent from there to the login page; and a signed-in visit to
   * `/Login` is let through, since the visitors'-page test compares `to.path`
   * exactly.
   */
  lemma MatchingIgnoresCaseAndTrailingSlash(token: Option<string>, user: User)
    requires Present(token)
    ensures Decide(Resolve("/Feed"), None, None) == Redirect(ToLogin)
    ensures Decide(Resolve("/feed/"), None, None) == Redirect(ToLogin)
    ensures Decide(Resolve("/Login"), token, Some(user)) == Allow
  {
    assert Lower("/Feed") == FeedPath;
    assert Lower("/feed/") == FeedPath + "/";
    assert Lower("/Login") == LoginPath;
    RouteTable("/Feed");
    RouteTable("/feed/");
    RouteTable("/Login");
  }

  /** The roles that have a landing page of their own. */
  predicate KnownRole(user: User)
  {
    user.role == Some("user") || user.role == Some("moderator")
  }

  /** With no session, the login page the guard redirects to is let through. */
  lemma LoginTargetAllowed(token: Option<string>, user: Option<User>)
    requires !SignedIn(token, user)
    ensures Decide(Resolve(PathOf(ToLogin)), token, user) == Allow
  {
  }

  /** With a session of a known role, the landing page the guard redirects to is let through. */
  lemma RoleHomeAllowed(token: Option<string>, user: User)
    requires Present(token) && KnownRole(user)
    ensures Decide(Resolve(PathOf(RoleHome(user))), token, Some(user)) == Allow
  {
  }

  /** With a session of any other role, the feed the guard redirects to is redirected to the feed again. */
  lemma FeedRejectsOtherRoles(token: Option<string>, user: User)
    requires Present(token) && !KnownRole(user)
    ensures RoleHome(user) == ToFeed
    ensures Decide(Resolve(FeedPath), token, Some(user)) == Redirect(ToFeed)
  {
    RoutedPathsMatch();
    RouteTable(FeedPath);
  }

  /**
   * vue-router treats `next(path)` as a new navigation and runs the guard on
   * it again. Settle follows that chain for at most `fuel` runs and gives the
   * location the navigation ends on, or nothing if it has not ended by then.
   */
  function Settle(path: string, token: Option<string>, user: Option<User>, fuel: nat): (r: Option<string>)
    ensures r.Some? ==> Decide(Resolve(r.value), token, user) == Allow
    decreases fuel
  {
    if fuel == 0 then None
    else match Decide(Resolve(path), token, user)
      case Allow => Some(path)
      case Redirect(t) => Settle(PathOf(t), token, user, fuel - 1)
  }

  /**
   * Without a session, or with a session of a known role, every navigation
   * ends within two runs of the guard: where it was going if it may enter,
   * else on the page the guard redirected it to.
   */
  lemma KnownSessionsSettle(path: string, token: Option<string>, user: Option<User>, fuel: nat)
    requires fuel >= 2
    requires !SignedIn(token, user) || KnownRole(user.value)
    ensures Settle(path, token, user, fuel) ==
      match Decide(Resolve(path), token, user)
      case Allow => Some(path)
      case Redirect(t) => Some(PathOf(t))
  {
    match Decide(Resolve(path), token, user)
    case Allow =>
    case Redirect(t) =>
      if SignedIn(token, user) {
        RoleHomeAllowed(token, user.value);
      } else {
        LoginTargetAllowed(token, user);
      }
  }

  /** With a session of any other role, every refusal sends the navigation to the feed. */
  lemma OtherRolesGoToFeed(to: Location, token: Option<string>, user: User)
    requires Present(token) && !KnownRole(user)
    requires Decide(to, token, Some(user)) != Allow
    ensures Decide(to, token, Some(user)) == Redirect(ToFeed)
  {
  }

  /**
   * With a session whose role is neither `user` nor `moderator`, a navigation
   * the guard redirects never ends: however many runs are allowed, it keeps
   * being sent to the feed.
   */
  lemma {:induction false} OtherRolesNeverSettle(path: string, token: Option<string>, user: User, fuel: nat)
    requires Present(token) && !KnownRole(user)
    requires Decide(Resolve(path), token, Some(user)) != Allow
    ensures Settle(path, token, Some(user), fuel) == None
    decreases fuel
  {
    if fuel > 0 {
      OtherRolesGoToFeed(Resolve(path), token, user);
      FeedRejectsOtherRoles(token, user);
      OtherRolesNeverSettle(FeedPath, token, user, fuel - 1);
      assert Settle(path, token, Some(user), fuel) == Settle(FeedPath, token, Some(user), fuel - 1);
    }
  }
}
