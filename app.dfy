/** The application shell: the colour theme, kept in `localStorage`, and the route
    table, which depends on whether a user is logged in. */
module App {
  import opened Wrappers
  import opened JsBuiltins
  import opened LocalStorage

  const ThemeKey := "appTheme"
  const DefaultTheme := "dark"

  /** The theme at start-up: the saved one when it is non-empty, `'dark'` otherwise. */
  function InitialTheme(saved: Option<string>): (r: string)
    ensures r != ""
    ensures Truthy(saved) ==> r == saved.value
    ensures !Truthy(saved) ==> r == DefaultTheme
  {
    OrDefault(saved, DefaultTheme)
  }

  /** `toggleTheme`: `'light'` becomes `'dark'`, anything else becomes `'light'`. */
  function ToggleTheme(t: string): (r: string)
    ensures r == "light" || r == "dark"
    ensures r != t
    ensures r == "dark" <==> t == "light"
  {
    if t == "light" then "dark" else "light"
  }

  /** From `'light'` or `'dark'`, toggling twice gives back the start value. */
  lemma ToggleTwice(t: string)
    requires t == "light" || t == "dark"
    ensures ToggleTheme(ToggleTheme(t)) == t
  {
  }

  /** From any other value, one toggle reaches `'light'` and from then on the theme
      alternates between the two. */
  lemma ToggleSettles(t: string)
    requires t != "light" && t != "dark"
    ensures ToggleTheme(t) == "light"
    ensures ToggleTheme(ToggleTheme(ToggleTheme(t))) == ToggleTheme(t)
  {
  }

  /** The `theme` state of `App` together with its persistence effect. */
  class ThemeState {
    var theme: string

    /** The current theme is what is stored under `appTheme`. */
    predicate PersistedIn(store: Storage)
      reads this, store
    {
      ThemeKey in store.entries && store.entries[ThemeKey] == theme
    }

    /** The lazy initial state, then the effect writing it back. */
    constructor (store: Storage)
      modifies store
      ensures theme == InitialTheme(old(store.GetItem(ThemeKey)))
      ensures store.entries == old(store.entries)[ThemeKey := theme]
      ensures PersistedIn(store)
    {
      var savedTheme := store.GetItem(ThemeKey);
      theme := OrDefault(savedTheme, DefaultTheme);
      new;
      store.SetItem(ThemeKey, theme);
    }

    /** `toggleTheme`, then the effect writing the new theme. */
    method Toggle(store: Storage)
      modifies this, store
      ensures theme == ToggleTheme(old(theme))
      ensures store.entries == old(store.entries)[ThemeKey := theme]
      ensures PersistedIn(store)
    {
      theme := ToggleTheme(theme);
      store.SetItem(ThemeKey, theme);
    }
  }

  // ---------------------------------------------------------------------------
  // Routes

  datatype Page = AuthPage | HomePage | ProfilePage(username: string)

  /** What the router does with a path: render a page or `<Navigate to=... replace>`. */
  datatype RouteResult = Show(page: Page) | Redirect(target: string)

  const UsersPrefix := "/users/"

  /** A value for a `:username` path parameter: one non-empty path segment. */
  predicate IsSegment(s: string) {
    s != "" && forall i | 0 <= i < |s| :: s[i] != '/'
  }

  /** The route table. Logged out: `/` is the authentication page and everything else
      goes to `/`. Logged in: `/` is the home page, `/users/:username` a profile, and
      `/login`, `/register` and everything else go to `/`. */
  function Route(isLoggedIn: bool, path: string): (r: RouteResult)
    ensures r.Redirect? ==> r.target == "/"
    ensures !isLoggedIn ==> (r == Show(AuthPage) <==> path == "/")
    ensures !isLoggedIn && path != "/" ==> r == Redirect("/")
    ensures isLoggedIn ==> (r == Show(HomePage) <==> path == "/")
    ensures isLoggedIn ==> r != Show(AuthPage)
    ensures r.Show? && r.page.ProfilePage? ==>
      isLoggedIn && IsSegment(r.page.username) && path == UsersPrefix + r.page.username
    ensures isLoggedIn && (path == "/login" || path == "/register") ==> r == Redirect("/")
  {
    if !isLoggedIn then
      if path == "/" then Show(AuthPage) else Redirect("/")
    else if path == "/" then Show(HomePage)
    else if |path| > |UsersPrefix| && path[..|UsersPrefix|] == UsersPrefix && IsSegment(path[|UsersPrefix|..]) then
      assert path[1] == UsersPrefix[1] == 'u';
      Show(ProfilePage(path[|UsersPrefix|..]))
    else if path == "/login" || path == "/register" then Redirect("/")
    else Redirect("/")
  }

  /** A logged-in user reaches every profile by its `/users/<name>` path. */
  lemma ProfileRoute(username: string)
    requires IsSegment(username)
    ensures Route(true, UsersPrefix + username) == Show(ProfilePage(username))
  {
    var path := UsersPrefix + username;
    assert path[..|UsersPrefix|] == UsersPrefix;
    assert path[|UsersPrefix|..] == username;
  }

  /** Every redirect lands on a page that is shown, so no redirect loops. */
  lemma RedirectsResolve(isLoggedIn: bool, path: string)
    ensures Route(isLoggedIn, path).Redirect? ==> Route(isLoggedIn, Route(isLoggedIn, path).target).Show?
  {
  }
}
