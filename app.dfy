/**
 * The routing decisions of the single-page app (src/scripts/pages/app.js):
 * which hash routes exist, which need a login, and which view-transition
 * name each page gets.
 */
module App {
  import opened JsValues

  /** The keys of the route table (src/scripts/routes/routes.js), `'/add-review'` being an alias of `'/add-story'`. */
  const ROUTES: set<string> := {"/", "/auth", "/add-story", "/add-review", "/map", "/detail/:id"}

  /** The routes that need no login. */
  const PUBLIC_PAGES: seq<string> := ["/auth"]

  /** `_getTransitionName(url)`: the first rule that matches. */
  function TransitionName(url: string): string {
    if url == "/" then "home"
    else if url == "/auth" then "auth"
    else if url == "/add-review" || url == "/add-story" then "form"
    else if url == "/map" then "map"
    else if StartsWith(url, "/detail") then "detail"
    else "default"
  }

  /** Each page of the route table gets its own transition; only unknown URLs fall back to `default`. */
  lemma TransitionNames()
    ensures TransitionName("/") == "home" && TransitionName("/auth") == "auth"
    ensures TransitionName("/add-story") == "form" && TransitionName("/add-review") == "form"
    ensures TransitionName("/map") == "map" && TransitionName("/detail/:id") == "detail"
    ensures forall url :: url in ROUTES ==> TransitionName(url) != "default"
  {
    assert StartsWith("/detail/:id", "/detail");
    assert !StartsWith("/", "/detail") && !StartsWith("/map", "/detail");
  }

  /** Every URL under `/detail` that no earlier rule takes is a detail page. */
  lemma DetailPrefix(rest: string)
    ensures TransitionName("/detail" + rest) == "detail"
  {
    var url := "/detail" + rest;
    assert url[..7] == "/detail";
    assert url[1] == 'd';
    assert 7 <= |url|;
    assert "/add-review"[1] == 'a' && "/add-story"[1] == 'a' && "/auth"[1] == 'a' && "/map"[1] == 'm';
  }

  /**
   * The allow/deny decision of `_requireAuth(url)`: a public page is always
   * allowed, any other page only with a truthy stored token. `stored` is
   * `localStorage.getItem('auth_token')`, `None` standing for `null`.
   */
  function RequireAuth(url: string, stored: Option<string>): (r: bool)
    ensures url == "/auth" ==> r
    ensures url != "/auth" ==> (r <==> stored.Some? && stored.value != "")
  {
    if url in PUBLIC_PAGES then true
    else Truthy(StoredValue(stored))
  }

  /** What `renderPage` does for a route. */
  datatype Render =
    | RedirectHome               // `window.location.hash = '#/'`, nothing rendered
    | AwaitLogin                 // access denied; auto-login started
    | Show(transition: string)   // the page is rendered under that transition name

  /** `renderPage()` for the active route. */
  function RenderPage(url: string, stored: Option<string>): (r: Render)
    ensures url !in ROUTES <==> r == RedirectHome
    ensures r.Show? ==> url in ROUTES && RequireAuth(url, stored) && r.transition == TransitionName(url)
    ensures r == AwaitLogin <==> url in ROUTES && !RequireAuth(url, stored)
  {
    if url !in ROUTES then RedirectHome
    else if !RequireAuth(url, stored) then AwaitLogin
    else Show(TransitionName(url))
  }

  /** The login page always renders; with no token every other known page waits for the login. */
  lemma LoggedOutReachesOnlyAuth(url: string)
    requires url in ROUTES
    ensures RenderPage(url, None).Show? <==> url == "/auth"
  {
  }
}
