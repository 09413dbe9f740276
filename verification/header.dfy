/**
 * The header shown above every page except the landing and sign-in
 * pages: whether it is shown, which navigation item is highlighted and
 * whether the search box is offered, all decided from the current path.
 */
module Header {
  import opened Wrappers
  import opened Strings

  datatype NavItem = Home | Explore | Profile

  /** What the header renders for a path. */
  datatype HeaderView = Hidden | Shown(active: NavItem, showSearch: bool)

  /** Paths that render no header. */
  const HiddenRoutes: set<string> := {"/", "/login", "/signup"}

  /**
   * The decision for the current path (`None` when the router gives no
   * path): hidden for a missing or empty path and for the hidden routes;
   * otherwise "explore" wins over "profile", which wins over "home".
   */
  function Classify(pathname: Option<string>): HeaderView {
    if pathname.None? || pathname.value == "" || pathname.value in HiddenRoutes then Hidden
    else
      var path := pathname.value;
      var active :=
        if StartsWith(path, "/explore") then Explore
        else if StartsWith(path, "/profile") then Profile
        else Home;
      Shown(active, StartsWith(path, "/explore") || StartsWith(path, "/home"))
  }

  /** The header is hidden exactly for a missing or empty path and for "/", "/login" and "/signup". */
  lemma HiddenIff(pathname: Option<string>)
    ensures Classify(pathname) == Hidden <==>
      pathname == None || pathname == Some("") || pathname == Some("/") ||
      pathname == Some("/login") || pathname == Some("/signup")
  {
  }

  /** On a shown header the highlighted item follows the prefix precedence, and search follows its own prefixes. */
  lemma ShownView(path: string)
    requires path != "" && path !in HiddenRoutes
    ensures Classify(Some(path)).Shown?
    ensures Classify(Some(path)).active == Explore <==> StartsWith(path, "/explore")
    ensures Classify(Some(path)).active == Profile <==>
      StartsWith(path, "/profile") && !StartsWith(path, "/explore")
    ensures Classify(Some(path)).active == Home <==>
      !StartsWith(path, "/explore") && !StartsWith(path, "/profile")
    ensures Classify(Some(path)).showSearch <==> StartsWith(path, "/explore") || StartsWith(path, "/home")
  {
  }

  /** Matching is by prefix: every path that begins with "/explore" is an Explore page with search. */
  lemma ExplorePrefix(rest: string)
    ensures Classify(Some("/explore" + rest)) == Shown(Explore, true)
  {
    var path := "/explore" + rest;
    assert path[..8] == "/explore";
    assert path != "" && path !in HiddenRoutes by {
      assert |path| >= 8;
    }
  }

  /** Examples: a venue under explore, a look-alike path, the notifications and home pages. */
  lemma Examples()
    ensures Classify(Some("/explore/v1")) == Shown(Explore, true)
    ensures Classify(Some("/explorer")) == Shown(Explore, true)
    ensures Classify(Some("/notifications")) == Shown(Home, false)
    ensures Classify(Some("/home")) == Shown(Home, true)
    ensures Classify(Some("/profile")) == Shown(Profile, false)
  {
    ExplorePrefix("/v1");
    assert "/explore" + "/v1" == "/explore/v1";
    ExplorePrefix("r");
    assert "/explore" + "r" == "/explorer";
    assert "/notifications"[..8] == "/notific";
    assert "/notifications"[..5] == "/noti";
    assert "/profile"[..8] == "/profile" && "/profile"[..5] == "/prof";
  }
}
