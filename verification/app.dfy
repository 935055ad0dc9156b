/**
 * The application's routes and their two guards. Public pages (login and
 * registration) send a signed-in visitor to their rooms; every other page
 * sends a visitor without a token to the login page; an unknown path goes
 * to "/".
 */
module App {
  import opened Common

  /** `localStorage.getItem("token")`: `None` for null. */
  type Token = Option<string>

  /** A token is present when it is a non-empty string (JavaScript truthiness). */
  predicate HasToken(token: Token) {
    token.Some? && token.value != ""
  }

  datatype Page =
    | LoginPage
    | RegisterPage
    | MyRoomsPage
    | AvailableRoomsPage
    | CreateRoomPage
    | MyBookingsPage
    | AddBookingsPage
    | EditRoomPage(roomId: string)

  datatype Guard = PublicGuard | ProtectedGuard

  /** What a URL leads to: a page rendered, or a redirect (`<Navigate replace>`) to a path. */
  datatype Outcome = Render(page: Page) | Redirect(to: string)

  /** The route table's answer for a path: a guarded page, or the `*` route. */
  datatype RouteMatch = Matched(guard: Guard, page: Page) | CatchAll

  const PublicPaths: set<string> := {"/", "/login", "/register"}
  const ProtectedPaths: set<string> := {"/my_rooms", "/rooms", "/create-room", "/bookings", "/add-booking"}
  const EditRoomPrefix := "/edit-room/"

  /** `/edit-room/:id`: the prefix followed by one non-empty segment. */
  predicate IsEditRoomPath(path: string) {
    |path| > |EditRoomPrefix| && path[..|EditRoomPrefix|] == EditRoomPrefix
    && forall k :: |EditRoomPrefix| <= k < |path| ==> path[k] != '/'
  }

  /** `ProtectedRoute`: its page only with a token, the login page otherwise. */
  function ProtectedRoute(token: Token, page: Page): (o: Outcome)
    ensures o.Render? <==> HasToken(token)
    ensures o.Render? ==> o.page == page
    ensures o.Redirect? ==> o.to == "/login"
  {
    if !HasToken(token) then Redirect("/login") else Render(page)
  }

  /** `PublicRoute`: its page only without a token, the owner's rooms otherwise. */
  function PublicRoute(token: Token, page: Page): (o: Outcome)
    ensures o.Render? <==> !HasToken(token)
    ensures o.Render? ==> o.page == page
    ensures o.Redirect? ==> o.to == "/my_rooms"
  {
    if HasToken(token) then Redirect("/my_rooms") else Render(page)
  }

  /** For any token, exactly one of the two guards lets its page through. */
  lemma GuardsAreComplementary(token: Token, p: Page, q: Page)
    ensures ProtectedRoute(token, p).Render? != PublicRoute(token, q).Render?
  {
  }

  /** The route table: which page each path shows and behind which guard. */
  function Match(path: string): (m: RouteMatch)
    ensures m.Matched? && m.guard == PublicGuard <==> path in PublicPaths
    ensures m.Matched? && m.guard == ProtectedGuard <==> path in ProtectedPaths || IsEditRoomPath(path)
    ensures m.CatchAll? <==> path !in PublicPaths && path !in ProtectedPaths && !IsEditRoomPath(path)
    ensures IsEditRoomPath(path) ==> m == Matched(ProtectedGuard, EditRoomPage(path[|EditRoomPrefix|..]))
  {
    if IsEditRoomPath(path) then Matched(ProtectedGuard, EditRoomPage(path[|EditRoomPrefix|..]))
    else if path == "/" || path == "/login" then Matched(PublicGuard, LoginPage)
    else if path == "/register" then Matched(PublicGuard, RegisterPage)
    else if path == "/my_rooms" then Matched(ProtectedGuard, MyRoomsPage)
    else if path == "/rooms" then Matched(ProtectedGuard, AvailableRoomsPage)
    else if path == "/create-room" then Matched(ProtectedGuard, CreateRoomPage)
    else if path == "/bookings" then Matched(ProtectedGuard, MyBookingsPage)
    else if path == "/add-booking" then Matched(ProtectedGuard, AddBookingsPage)
    else CatchAll
  }

  /**
   * One navigation: the matched route behind its guard, or the redirect to
   * "/". A page renders directly exactly when its guard admits the token,
   * and a rendered page agrees with the token.
   */
  function Resolve(path: string, token: Token): (o: Outcome)
    ensures o.Render? <==>
      (path in PublicPaths && !HasToken(token)) || ((path in ProtectedPaths || IsEditRoomPath(path)) && HasToken(token))
    ensures o.Render? ==> (IsProtectedPage(o.page) <==> HasToken(token))
    ensures o.Redirect? ==> o.to in {"/", "/login", "/my_rooms"}
  {
    match Match(path)
    case Matched(PublicGuard, page) => PublicRoute(token, page)
    case Matched(ProtectedGuard, page) => ProtectedRoute(token, page)
    case CatchAll => Redirect("/")
  }

  /** Navigation that follows at most `hops` redirects; wherever it renders, the page agrees with the token. */
  function Follow(path: string, token: Token, hops: nat): (o: Outcome)
    ensures o.Render? ==> (IsProtectedPage(o.page) <==> HasToken(token))
    decreases hops
  {
    match Resolve(path, token)
    case Render(page) => Render(page)
    case Redirect(to) => if hops == 0 then Redirect(to) else Follow(to, token, hops - 1)
  }

  /** Pages only a signed-in visitor may see. */
  predicate IsProtectedPage(page: Page) {
    !(page.LoginPage? || page.RegisterPage?)
  }

  /**
   * Every path settles on a page within two redirects, and the page
   * agrees with the token: a visitor with a token never lands on login or
   * registration, one without never sees a protected page.
   */
  lemma {:induction false} EveryPathSettles(path: string, token: Token)
    ensures Follow(path, token, 2).Render?
    ensures IsProtectedPage(Follow(path, token, 2).page) <==> HasToken(token)
  {
    assert Match("/") == Matched(PublicGuard, LoginPage);
    assert Match("/login") == Matched(PublicGuard, LoginPage);
    assert Match("/my_rooms") == Matched(ProtectedGuard, MyRoomsPage);
    assert Resolve("/my_rooms", token) == ProtectedRoute(token, MyRoomsPage);
    assert Resolve("/login", token) == PublicRoute(token, LoginPage);
    assert Resolve("/", token) == PublicRoute(token, LoginPage);
  }

  /** An empty token is no token. */
  lemma EmptyTokenIsNoToken(path: string)
    ensures Resolve(path, Some("")) == Resolve(path, None)
  {
  }
}
