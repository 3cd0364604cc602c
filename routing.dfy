/** The route table of the application shell and the two guards that wrap its
    pages: `PublicRoute` for the pages a signed-in user must not see again
    (login, OTP entry, registration) and `ProtectedRoute` for everything else.
    Both read only `(loading, isAuthenticated)` from the session context. */
module Routing {
  import opened Base

  /** A pathname as its segments: "/" is [], "/items/42/edit" is
      ["items", "42", "edit"]. */
  type Path = seq<string>

  const LOGIN: Path := ["login"]
  const LANDING: Path := []
  const PRODUCTS: Path := ["products"]

  /** What a guard renders: the loading view, a `<Navigate replace>`, or the
      wrapped page. */
  datatype Outcome = ShowLoading | RedirectTo(target: Path) | RenderChildren

  /** `PublicRoute`: wait while the session is being restored, send a signed-in
      user to the landing page, otherwise show the page. */
  function PublicRoute(loading: bool, isAuthenticated: bool): (o: Outcome)
    ensures o == ShowLoading <==> loading
    ensures o == RedirectTo(LANDING) <==> !loading && isAuthenticated
    ensures o == RenderChildren <==> !loading && !isAuthenticated
  {
    if loading then ShowLoading
    else if isAuthenticated then RedirectTo(LANDING)
    else RenderChildren
  }

  /** `ProtectedRoute`: wait while the session is being restored, send a
      signed-out user to the login page, otherwise show the page. Once loading
      is over it shows its page exactly when `PublicRoute` would not. */
  function ProtectedRoute(loading: bool, isAuthenticated: bool): (o: Outcome)
    ensures o == ShowLoading <==> loading
    ensures o == RedirectTo(LOGIN) <==> !loading && !isAuthenticated
    ensures o == RenderChildren <==> !loading && isAuthenticated
    ensures !loading ==> (o == RenderChildren <==> PublicRoute(loading, isAuthenticated) != RenderChildren)
  {
    if loading then ShowLoading
    else if !isAuthenticated then RedirectTo(LOGIN)
    else RenderChildren
  }

  // ------------------------------------------------------------ the table

  datatype Segment = Lit(name: string) | Param
  datatype Guard = PublicOnly | Protected
  datatype Page = Login | Otp | Register | Dashboard | Products | Items | ItemDetail | CreateItem | EditItem | Users
  datatype Route = Route(pattern: seq<Segment>, guard: Guard, page: Page)

  /** The `<Routes>` of the shell, in source order; the `*` fallback is not a
      row but the `None` case of `Lookup`. */
  const ROUTES: seq<Route> := [
    Route([Lit("login")], PublicOnly, Login),
    Route([Lit("otp")], PublicOnly, Otp),
    Route([Lit("register")], PublicOnly, Register),
    Route([], Protected, Dashboard),
    Route([Lit("products")], Protected, Products),
    Route([Lit("items")], Protected, Items),
    Route([Lit("items"), Param], Protected, ItemDetail),
    Route([Lit("items"), Lit("create")], Protected, CreateItem),
    Route([Lit("items"), Param, Lit("edit")], Protected, EditItem),
    Route([Lit("users")], Protected, Users)
  ]

  /** A pattern matches a path of the same length whose segments equal its
      literal segments; a `:param` segment matches any segment. */
  predicate Matches(pattern: seq<Segment>, path: Path) {
    if pattern == [] then path == []
    else path != [] && (pattern[0].Param? || pattern[0].name == path[0]) && Matches(pattern[1..], path[1..])
  }

  /** A matching pattern has the path's length and agrees with it on every
      literal segment. */
  lemma {:induction false} MatchesAt(pattern: seq<Segment>, path: Path)
    requires Matches(pattern, path)
    ensures |pattern| == |path|
    ensures forall i :: 0 <= i < |pattern| && pattern[i].Lit? ==> pattern[i].name == path[i]
  {
    if pattern != [] {
      MatchesAt(pattern[1..], path[1..]);
      assert forall i :: 1 <= i < |pattern| ==> pattern[i] == pattern[1..][i - 1] && path[i] == path[1..][i - 1];
    }
  }

  /** Number of literal segments: the router prefers a static segment over a
      dynamic one, so among matching patterns of one length the one with more
      literals wins. */
  function Score(pattern: seq<Segment>): nat {
    if pattern == [] then 0 else (if pattern[0].Lit? then 1 else 0) + Score(pattern[1..])
  }

  /** The route the router picks for `path`: a matching row of best score,
      the earliest one on a tie; `None` when only `*` matches. */
  function Lookup(routes: seq<Route>, path: Path): Option<Route>
  {
    if routes == [] then None
    else
      var rest := Lookup(routes[1..], path);
      if Matches(routes[0].pattern, path) && (rest.None? || Score(rest.value.pattern) <= Score(routes[0].pattern))
      then Some(routes[0])
      else rest
  }

  /** The router finds a row exactly when some row matches; the row it finds
      matches and no matching row has a better score. */
  lemma {:induction false} LookupChoosesBestMatch(routes: seq<Route>, path: Path)
    ensures var r := Lookup(routes, path);
      && (r.None? <==> forall i :: 0 <= i < |routes| ==> !Matches(routes[i].pattern, path))
      && (r.Some? ==> r.value in routes && Matches(r.value.pattern, path))
      && (r.Some? ==> forall i :: 0 <= i < |routes| && Matches(routes[i].pattern, path) ==>
                        Score(routes[i].pattern) <= Score(r.value.pattern))
  {
    if routes != [] {
      LookupChoosesBestMatch(routes[1..], path);
      assert forall i :: 1 <= i < |routes| ==> routes[i] == routes[1..][i - 1];
    }
  }

  /** The path with its trailing empty segments dropped: "/products/" is
      ["products", ""] and the router reads it as "/products". */
  function Trimmed(path: Path): (t: Path)
    ensures t <= path
    ensures t == [] || t[|t| - 1] != ""
    ensures forall i :: |t| <= i < |path| ==> path[i] == ""
  {
    if path != [] && path[|path| - 1] == "" then Trimmed(path[..|path| - 1]) else path
  }

  /** The path as the router compares it with the table: trailing slashes
      ignored and every segment lower-cased (`caseSensitive` is off on every
      `<Route>`, and every literal of the table is lower case). */
  function Normal(path: Path): (n: Path)
    ensures |n| <= |path|
    ensures forall i :: 0 <= i < |n| ==> n[i] == Lower(path[i])
    ensures forall i :: |n| <= i < |path| ==> path[i] == ""
    ensures n == [] || n[|n| - 1] != ""
  {
    var t := Trimmed(path);
    seq(|t|, i requires 0 <= i < |t| => Lower(t[i]))
  }

  /** A path the router reads as itself: lower case, no trailing slash. */
  predicate Canonical(path: Path) {
    (forall i :: 0 <= i < |path| ==> Lower(path[i]) == path[i])
    && (path == [] || path[|path| - 1] != "")
  }

  /** Normalising leaves a path alone exactly when it is canonical. */
  lemma CanonicalNormal(path: Path)
    ensures Normal(path) == path <==> Canonical(path)
  {
    var n := Normal(path);
    if Canonical(path) {
      assert |n| == |path|;
    }
  }

  /** Normalising twice is normalising once. */
  lemma NormalIdempotent(path: Path)
    ensures Normal(Normal(path)) == Normal(path)
  {
    var n := Normal(path);
    forall i | 0 <= i < |n| ensures Lower(n[i]) == n[i] {
      LowerTwice(path[i]);
    }
    assert n != [] ==> |Lower(n[|n| - 1])| == |n[|n| - 1]|;
    CanonicalNormal(n);
  }

  /** A path written in lower case without a trailing slash is read as is. */
  lemma LowerCaseCanonical(path: Path)
    requires forall i, j :: 0 <= i < |path| && 0 <= j < |path[i]| ==> !('A' <= path[i][j] <= 'Z')
    requires path == [] || path[|path| - 1] != ""
    ensures Normal(path) == path
  {
    forall i | 0 <= i < |path| ensures Lower(path[i]) == path[i] {
      assert |Lower(path[i])| == |path[i]|;
    }
    CanonicalNormal(path);
  }

  /** What the shell shows at `path`. An unmatched path is sent to "/login"
      at once (the `*` route has no guard, so not even loading delays it). */
  datatype View = Loading | Redirect(to: Path) | Render(page: Page)

  function Show(path: Path, loading: bool, isAuthenticated: bool): (v: View)
    ensures Lookup(ROUTES, Normal(path)).None? ==> v == Redirect(LOGIN)
    ensures loading && Lookup(ROUTES, Normal(path)).Some? ==> v == Loading
  {
    match Lookup(ROUTES, Normal(path))
    case None => Redirect(LOGIN)
    case Some(route) =>
      var o := if route.guard == PublicOnly then PublicRoute(loading, isAuthenticated)
               else ProtectedRoute(loading, isAuthenticated);
      match o
      case ShowLoading => Loading
      case RedirectTo(t) => Redirect(t)
      case RenderChildren => Render(route.page)
  }

  /** A path and its normal form show the same view: case and trailing
      slashes never change the page. */
  lemma ShowNormal(path: Path, loading: bool, isAuthenticated: bool)
    ensures Show(Normal(path), loading, isAuthenticated) == Show(path, loading, isAuthenticated)
  {
    NormalIdempotent(path);
  }

  /** The view reached after following at most `hops` redirects. */
  function Follow(path: Path, isAuthenticated: bool, hops: nat): View
    decreases hops
  {
    var v := Show(path, false, isAuthenticated);
    if v.Redirect? && hops > 0 then Follow(v.to, isAuthenticated, hops - 1) else v
  }

  /** When exactly one row matches, the router picks that row. */
  lemma LookupOnly(path: Path, k: nat)
    requires k < |ROUTES| && Matches(ROUTES[k].pattern, path)
    requires forall i :: 0 <= i < |ROUTES| && i != k ==> !Matches(ROUTES[i].pattern, path)
    ensures Lookup(ROUTES, path) == Some(ROUTES[k])
  {
    LookupChoosesBestMatch(ROUTES, path);
    var r := Lookup(ROUTES, path);
    var i :| 0 <= i < |ROUTES| && ROUTES[i] == r.value;
    assert Matches(ROUTES[i].pattern, path);
  }

  /** A matching row that outranks every other matching row is chosen. */
  lemma LookupBest(path: Path, k: nat)
    requires k < |ROUTES| && Matches(ROUTES[k].pattern, path)
    requires forall i :: 0 <= i < |ROUTES| && i != k && Matches(ROUTES[i].pattern, path) ==>
               Score(ROUTES[i].pattern) < Score(ROUTES[k].pattern)
    ensures Lookup(ROUTES, path) == Some(ROUTES[k])
  {
    LookupChoosesBestMatch(ROUTES, path);
    var r := Lookup(ROUTES, path);
    var i :| 0 <= i < |ROUTES| && ROUTES[i] == r.value;
    assert Matches(ROUTES[i].pattern, path);
  }

  /** "/login", "/otp" and "/register" are the public-only pages. */
  lemma PublicOnlyPaths(path: Path)
    requires path == ["login"] || path == ["otp"] || path == ["register"]
    ensures Lookup(ROUTES, path).Some? && Lookup(ROUTES, path).value.guard == PublicOnly
    ensures path == ["login"] ==> Lookup(ROUTES, path).value.page == Login
    ensures path == ["otp"] ==> Lookup(ROUTES, path).value.page == Otp
    ensures path == ["register"] ==> Lookup(ROUTES, path).value.page == Register
  {
    var k := if path == ["login"] then 0 else if path == ["otp"] then 1 else 2;
    forall i | 0 <= i < |ROUTES| && i != k ensures !Matches(ROUTES[i].pattern, path) {
    }
    LookupOnly(path, k);
  }

  /** "/" is the protected landing page, the dashboard. */
  lemma LandingPath(path: Path)
    requires path == LANDING
    ensures Lookup(ROUTES, path) == Some(Route([], Protected, Dashboard))
  {
    forall i | 0 <= i < |ROUTES| && i != 3 ensures !Matches(ROUTES[i].pattern, path) {
    }
    LookupOnly(path, 3);
  }

  /** "/products", "/items" and "/users" are protected. */
  lemma ProtectedPaths(path: Path)
    requires path == ["products"] || path == ["items"] || path == ["users"]
    ensures Lookup(ROUTES, path).Some? && Lookup(ROUTES, path).value.guard == Protected
    ensures path == ["products"] ==> Lookup(ROUTES, path).value.page == Products
  {
    var k := if path == ["products"] then 4 else if path == ["items"] then 5 else 9;
    forall i | 0 <= i < |ROUTES| && i != k ensures !Matches(ROUTES[i].pattern, path) {
    }
    LookupOnly(path, k);
  }

  /** "/items/:id" is the protected item page for every id but "create". */
  lemma ItemDetailPath(path: Path, id: string)
    requires path == ["items", id] && id != "create"
    ensures Lookup(ROUTES, path) == Some(Route([Lit("items"), Param], Protected, ItemDetail))
  {
    forall i | 0 <= i < |ROUTES| && i != 6 ensures !Matches(ROUTES[i].pattern, path) {
      if Matches(ROUTES[i].pattern, path) { MatchesAt(ROUTES[i].pattern, path); }
    }
    LookupOnly(path, 6);
  }

  /** "/items/create" also matches "/items/:id", but the static segment wins:
      it is the protected create page, not an item whose id is "create". */
  lemma CreateItemPath(path: Path)
    requires path == ["items", "create"]
    ensures Lookup(ROUTES, path) == Some(Route([Lit("items"), Lit("create")], Protected, CreateItem))
  {
    assert Matches(ROUTES[7].pattern, path);
    assert Score(ROUTES[7].pattern) == 2 && Score(ROUTES[6].pattern) == 1;
    forall i | 0 <= i < |ROUTES| && i != 7 && Matches(ROUTES[i].pattern, path)
      ensures Score(ROUTES[i].pattern) < Score(ROUTES[7].pattern)
    {
      OnlyItemRowsMatch(path, i);
    }
    LookupBest(path, 7);
  }

  /** Only the two two-segment item rows match "/items/create". */
  lemma OnlyItemRowsMatch(path: Path, j: nat)
    requires path == ["items", "create"] && j < |ROUTES| && Matches(ROUTES[j].pattern, path)
    ensures j == 6 || j == 7
  {
    MatchesAt(ROUTES[j].pattern, path);
  }

  /** "/items/:id/edit" is the protected edit page for every id. */
  lemma EditItemPath(path: Path, id: string)
    requires path == ["items", id, "edit"]
    ensures Lookup(ROUTES, path) == Some(Route([Lit("items"), Param, Lit("edit")], Protected, EditItem))
  {
    assert path[1..] == [id, "edit"] && path[1..][1..] == ["edit"];
    assert Matches([Lit("edit")], ["edit"]);
    assert Matches([Param, Lit("edit")], path[1..]);
    forall i | 0 <= i < |ROUTES| && i != 8 ensures !Matches(ROUTES[i].pattern, path) {
      if Matches(ROUTES[i].pattern, path) { MatchesAt(ROUTES[i].pattern, path); }
    }
    LookupOnly(path, 8);
  }

  /** Whichever row the router picks for a path, every row that matches it
      carries the same guard: the ranking never decides who may see a page. */
  lemma MatchingRowsAgreeOnGuard(path: Path, i: nat, j: nat)
    requires i < |ROUTES| && j < |ROUTES|
    requires Matches(ROUTES[i].pattern, path) && Matches(ROUTES[j].pattern, path)
    ensures ROUTES[i].guard == ROUTES[j].guard
  {
  }

  /** Once loading has finished no session state produces a redirect loop:
      from any path at most two redirects lead to a page that renders (an
      unknown path goes to "/login", which a signed-in user leaves for "/"). */
  lemma NoRedirectLoop(path: Path, isAuthenticated: bool)
    ensures Follow(path, isAuthenticated, 2).Render?
  {
    OneRedirectAway(path, isAuthenticated);
    LoginShows(isAuthenticated);
    LandingShows(isAuthenticated);
    var v := Show(path, false, isAuthenticated);
    if v.Redirect? {
      assert Follow(path, isAuthenticated, 2) == Follow(v.to, isAuthenticated, 1);
      if v.to == LOGIN && isAuthenticated {
        assert Follow(LOGIN, true, 1) == Follow(LANDING, true, 0);
      }
    }
  }

  /** Once loading has finished, "/login" shows the login page to a
      signed-out user and sends a signed-in one to "/". */
  lemma LoginShows(isAuthenticated: bool)
    ensures Show(LOGIN, false, isAuthenticated) == if isAuthenticated then Redirect(LANDING) else Render(Login)
  {
    LowerCaseCanonical(LOGIN);
    PublicOnlyPaths(LOGIN);
  }

  /** Once loading has finished, "/" shows the dashboard to a signed-in user
      and sends a signed-out one to "/login". */
  lemma LandingShows(isAuthenticated: bool)
    ensures Show(LANDING, false, isAuthenticated) == if isAuthenticated then Render(Dashboard) else Redirect(LOGIN)
  {
    LowerCaseCanonical(LANDING);
    LandingPath(LANDING);
  }

  /** Once loading has finished a path either renders or redirects to
      "/login", or, for a signed-in user only, to "/". */
  lemma OneRedirectAway(path: Path, isAuthenticated: bool)
    ensures var v := Show(path, false, isAuthenticated);
            v.Render? || v == Redirect(LOGIN) || (isAuthenticated && v == Redirect(LANDING))
  {
    match Lookup(ROUTES, Normal(path))
    case None =>
    case Some(route) =>
      if route.guard == PublicOnly {
        assert Show(path, false, isAuthenticated) ==
          (if isAuthenticated then Redirect(LANDING) else Render(route.page));
      } else {
        assert Show(path, false, isAuthenticated) ==
          (if isAuthenticated then Render(route.page) else Redirect(LOGIN));
      }
  }

  /** `hideNavbar`: the navigation bar is hidden on the three sign-in pages and
      on the two pages that have their own sidebar. */
  predicate HideNavbar(path: Path) {
    path == ["login"] || path == ["otp"] || path == ["register"] || path == [] || path == ["products"]
  }

  /** `hideNavbar` compares the raw pathname, so the navigation bar is
      hidden exactly on the canonical paths whose route is one of Login, OTP,
      Register, Dashboard or Products. */
  lemma HideNavbarPages(path: Path)
    ensures HideNavbar(path) <==>
      Normal(path) == path &&
      Lookup(ROUTES, path).Some? && Lookup(ROUTES, path).value.page in {Login, Otp, Register, Dashboard, Products}
  {
    if HideNavbar(path) {
      HiddenPathsCanonical(path);
      HiddenPathsPages(path);
    }
    var r := Lookup(ROUTES, path);
    if r.Some? && r.value.page in {Login, Otp, Register, Dashboard, Products} {
      HiddenPagesPaths(path);
    }
  }

  /** The five pathnames without the navigation bar are canonical. */
  lemma HiddenPathsCanonical(path: Path)
    requires HideNavbar(path)
    ensures Normal(path) == path
  {
    if path == ["login"] { LowerCaseCanonical(["login"]); }
    else if path == ["otp"] { LowerCaseCanonical(["otp"]); }
    else if path == ["register"] { LowerCaseCanonical(["register"]); }
    else if path == [] { LowerCaseCanonical([]); }
    else { LowerCaseCanonical(["products"]); }
  }

  /** "/Login" is the login row, so it waits for the session like "/login". */
  lemma CapitalisedLogin()
    ensures Show(["Login"], true, false) == Loading
  {
    assert Normal(["Login"]) == LOGIN by {
      LowerOf("Login", "login");
    }
    PublicOnlyPaths(LOGIN);
  }

  /** Once loading has finished, "/products" shows Products to a signed-in
      user and sends a signed-out one to "/login". */
  lemma ProductsShows(isAuthenticated: bool)
    ensures Show(PRODUCTS, false, isAuthenticated) == if isAuthenticated then Render(Products) else Redirect(LOGIN)
  {
    ProductsNormal();
    ProtectedPaths(PRODUCTS);
  }

  /** "/products" is canonical. */
  lemma ProductsNormal()
    ensures Normal(PRODUCTS) == PRODUCTS
  {
    LowerOf("products", "products");
  }

  /** Every other spelling of "/products" shows Products to a signed-in
      user, with the navigation bar that "/products" hides. */
  lemma ProductsSpelling(path: Path)
    requires Normal(path) == PRODUCTS && path != PRODUCTS
    ensures Show(path, false, true) == Render(Products) && !HideNavbar(path)
  {
    ShowNormal(path, false, true);
    ProductsShows(true);
    if HideNavbar(path) {
      HiddenPathsCanonical(path);
    }
  }

  /** "/Products" shows Products, with the navigation bar. */
  lemma CapitalisedProducts()
    ensures Show(["Products"], false, true) == Render(Products) && !HideNavbar(["Products"])
  {
    CapitalisedNormal();
    ProductsSpelling(["Products"]);
  }

  lemma CapitalisedNormal()
    ensures Normal(["Products"]) == PRODUCTS && ["Products"] != PRODUCTS
  {
    assert Trimmed(["Products"]) == ["Products"];
    LowerOf("Products", "products");
    assert ["Products"][0][0] != PRODUCTS[0][0];
  }

  /** "/products/" shows Products too, again with the navigation bar. */
  lemma SlashedProducts()
    ensures Show(["products", ""], false, true) == Render(Products) && !HideNavbar(["products", ""])
  {
    SlashedNormal();
    ProductsSpelling(["products", ""]);
  }

  lemma SlashedNormal()
    ensures Normal(["products", ""]) == PRODUCTS && ["products", ""] != PRODUCTS
  {
    assert Trimmed(["products", ""]) == PRODUCTS;
    ProductsNormal();
  }

  /** `Lower(s)` is `t` when `t` is `s` with each letter lower-cased. */
  lemma LowerOf(s: string, t: string)
    requires |s| == |t| && forall i :: 0 <= i < |s| ==> LowerChar(s[i]) == t[i]
    ensures Lower(s) == t
  {
  }

  /** Each path without the navigation bar shows one of those pages. */
  lemma HiddenPathsPages(path: Path)
    requires HideNavbar(path)
    ensures Lookup(ROUTES, path).Some? && Lookup(ROUTES, path).value.page in {Login, Otp, Register, Dashboard, Products}
  {
    if path == [] { LandingPath(path); }
    else if path == PRODUCTS { ProtectedPaths(path); }
    else { PublicOnlyPaths(path); }
  }

  /** Only those paths show one of those pages. */
  lemma HiddenPagesPaths(path: Path)
    requires Lookup(ROUTES, path).Some? && Lookup(ROUTES, path).value.page in {Login, Otp, Register, Dashboard, Products}
    ensures HideNavbar(path)
  {
    LookupChoosesBestMatch(ROUTES, path);
    var r := Lookup(ROUTES, path).value;
    var k :| 0 <= k < |ROUTES| && ROUTES[k] == r;
    assert k in {0, 1, 2, 3, 4};
    MatchesAt(ROUTES[k].pattern, path);
    if k != 3 {
      assert path == [path[0]];
    }
  }
}
