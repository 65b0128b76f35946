/**
 * The application shell: the theme and route chosen at start-up, the
 * session check with the profile load and the guest restore, login and
 * logout, navigation, the theme toggle, and which page is rendered.
 *
 * The browser's storage is two fields of the state (`storedTheme`,
 * `storedUser`); the session check, the profile lookup, the profile
 * creation and the sign-out are outcomes passed in. The boot animation and
 * the other timers are taken as finished at once.
 */
module App {
  import opened Wrappers
  import opened Text
  import opened Types
  import Auth

  const CallbackPath := "/auth/callback"
  const CallbackPage := "auth-callback"
  const ChatPage := "chat"
  const LandingPage := "landing"
  const LoginPage := "login"

  /** `savedTheme === 'light'` gives light; anything else, a missing entry included, gives dark. */
  function DarkFromStored(saved: Option<string>): (dark: bool)
    ensures !dark <==> saved == Some("light")
  {
    saved != Some("light")
  }

  /** The value `toggleTheme` stores for a theme. */
  function ThemeTag(dark: bool): string {
    if dark then "dark" else "light"
  }

  /** A stored theme is read back as the theme that was stored. */
  lemma ThemeRoundTrip(dark: bool)
    ensures DarkFromStored(Some(ThemeTag(dark))) == dark
  {
  }

  /** The start-up route test: the callback path, or an access token in the hash. */
  predicate IsCallbackRoute(path: string, hash: string) {
    path == CallbackPath || Contains(hash, "access_token")
  }

  /** A row of the `users` table. */
  datatype ProfileRow = ProfileRow(
    id: string,
    email: string,
    tier: UserTier,
    tokensUsed: int,
    imagesGenerated: int,
    themeColor: string,
    displayName: Option<string>)

  /** The row created for a first-time user: FREE, no usage, the default colour, and the email before '@' as name. */
  function DefaultProfile(userId: string, email: string): (p: ProfileRow)
    ensures p.id == userId && p.email == email && p.tier == Free && p.tokensUsed == 0 && p.imagesGenerated == 0
    ensures p.themeColor == Auth.DefaultThemeColor
    ensures p.displayName == Some(BeforeFirst(email, '@'))
    ensures StartsWith(email, p.displayName.value) && '@' !in p.displayName.value
    ensures |p.displayName.value| < |email| ==> email[|p.displayName.value|] == '@'
  {
    ProfileRow(userId, email, Free, 0, 0, Auth.DefaultThemeColor, Some(BeforeFirst(email, '@')))
  }

  /** A profile row as the application's user record, field for field; rows carry no avatar. */
  function UserOf(p: ProfileRow): (u: User)
    ensures u.avatar.None?
  {
    User(p.id, p.email, p.tier, p.tokensUsed, p.imagesGenerated, p.themeColor, p.displayName, None)
  }

  /** A user record as the row the profile is saved under. */
  function RowOf(u: User): ProfileRow {
    ProfileRow(u.id, u.email, u.tier, u.tokensUsed, u.imagesGenerated, u.themeColor, u.displayName)
  }

  /** The mapping is one-to-one: a row survives the round trip, and so does a user without an avatar. */
  lemma ProfileRoundTrip(p: ProfileRow, u: User)
    ensures RowOf(UserOf(p)) == p
    ensures u.avatar.None? ==> UserOf(RowOf(u)) == u
  {
  }

  /**
   * A first-time user loaded from the created profile gets the same record
   * the sign-in form builds, whenever the email has a name before '@'.
   */
  lemma DefaultProfileMatchesSignIn(userId: string, email: string)
    requires BeforeFirst(email, '@') != ""
    ensures UserOf(DefaultProfile(userId, email)) == Auth.SignedInUser(Auth.AccountInfo(userId, Some(email)))
  {
  }

  /** What the session check answered: a signed-in account, no session, or a failure or time-out. */
  datatype SessionCheck = SessionUser(id: string, email: Option<string>) | NoSession | CheckFailed

  /** The saved user entry as `JSON.parse` reads it. */
  datatype StoredUser = Unparseable | Parsed(user: User)

  /** A saved entry that the start-up restores: a parsed user of the GUEST tier. */
  predicate RestoresGuest(saved: Option<StoredUser>) {
    saved.Some? && saved.value.Parsed? && saved.value.user.tier == Guest
  }

  /** What is on screen. */
  datatype View = BootLoader | BootAnimation | LandingView | LoginView | CallbackView | Chat(user: User) | NoSessionFallback | Blank

  class AppState {
    var loading: bool
    var showBootAnimation: bool
    var currentPage: string
    var user: Option<User>
    var isDark: bool
    /** The `theme` entry of the browser's storage. */
    var storedTheme: Option<string>
    /** The `jainnUser` entry of the browser's storage. */
    var storedUser: Option<StoredUser>

    constructor (storedTheme: Option<string>, storedUser: Option<StoredUser>)
      ensures loading && !showBootAnimation && currentPage == LandingPage && user == None && isDark
      ensures this.storedTheme == storedTheme && this.storedUser == storedUser
    {
      loading := true;
      showBootAnimation := false;
      currentPage := LandingPage;
      user := None;
      isDark := true;
      this.storedTheme := storedTheme;
      this.storedUser := storedUser;
    }

    /** `render`: the loader, then the boot animation, then the page; the chat page only with a user. */
    function Render(): (v: View)
      reads this
      ensures v.Chat? <==> !loading && !showBootAnimation && currentPage == ChatPage && user.Some?
      ensures v.Chat? ==> v.user == user.value
      ensures v == NoSessionFallback <==> !loading && !showBootAnimation && currentPage == ChatPage && user.None?
    {
      if loading then BootLoader
      else if showBootAnimation then BootAnimation
      else if currentPage == LandingPage then LandingView
      else if currentPage == LoginPage then LoginView
      else if currentPage == CallbackPage then CallbackView
      else if currentPage == ChatPage then (if user.Some? then Chat(user.value) else NoSessionFallback)
      else Blank
    }

    /**
     * The start-up effect: the theme from storage, then the route. On the
     * callback route the callback page is shown at once and the session is
     * not checked (`runsInit` is false).
     */
    method Startup(path: string, hash: string) returns (runsInit: bool)
      modifies this
      ensures isDark == (old(isDark) && DarkFromStored(storedTheme))
      ensures runsInit <==> !IsCallbackRoute(path, hash)
      ensures !runsInit ==> currentPage == CallbackPage && !loading
      ensures runsInit ==> currentPage == old(currentPage) && loading == old(loading)
      ensures user == old(user) && showBootAnimation == old(showBootAnimation)
      ensures storedTheme == old(storedTheme) && storedUser == old(storedUser)
    {
      if storedTheme == Some("light") {
        isDark := false;
      }
      if path == CallbackPath || Contains(hash, "access_token") {
        currentPage := CallbackPage;
        loading := false;
        return false;
      }
      return true;
    }

    /**
     * `loadUserProfile`: the stored profile, or else the default one that is
     * created for a first-time user, becomes the user. When neither exists
     * the user is left as it was. `created` is the row the creation returned.
     */
    method LoadUserProfile(userId: string, email: string, fetched: Option<ProfileRow>, created: Option<ProfileRow>)
      returns (creation: Option<ProfileRow>)
      modifies this
      ensures creation == if fetched.None? then Some(DefaultProfile(userId, email)) else None
      ensures fetched.Some? ==> user == Some(UserOf(fetched.value))
      ensures fetched.None? && created.Some? ==> user == Some(UserOf(created.value))
      ensures fetched.None? && created.None? ==> user == old(user)
      ensures loading == old(loading) && showBootAnimation == old(showBootAnimation) && currentPage == old(currentPage)
      ensures isDark == old(isDark) && storedTheme == old(storedTheme) && storedUser == old(storedUser)
    {
      var profile := fetched;
      creation := None;
      if profile.None? {
        creation := Some(DefaultProfile(userId, email));
        profile := created;
      }
      if profile.Some? {
        user := Some(UserOf(profile.value));
      }
    }

    /**
     * `initializeAuth`. With a client and a signed-in session, the profile
     * is loaded and the chat page opened. Then a saved entry is read: a
     * guest is restored and the chat page opened, any other parsed user is
     * ignored, and an unparseable entry is removed. The handler's "no user
     * yet" test reads the user as it was when the page mounted, which is
     * always none, so the saved guest is restored even over a session user.
     * Loading is over at the end.
     */
    method InitializeAuth(hasClient: bool, session: SessionCheck, fetched: Option<ProfileRow>, created: Option<ProfileRow>)
      modifies this
      ensures !loading
      ensures showBootAnimation == (old(showBootAnimation) && !RestoresGuest(old(storedUser)) && !(hasClient && session.SessionUser?))
      ensures storedUser == if old(storedUser) == Some(Unparseable) then None else old(storedUser)
      ensures RestoresGuest(old(storedUser)) ==> user == Some(old(storedUser).value.user) && currentPage == ChatPage
      ensures !RestoresGuest(old(storedUser)) && hasClient && session.SessionUser? ==> currentPage == ChatPage
      ensures !RestoresGuest(old(storedUser)) && !(hasClient && session.SessionUser?) ==>
        user == old(user) && currentPage == old(currentPage)
      ensures !RestoresGuest(old(storedUser)) && hasClient && session.SessionUser? && fetched.Some? ==>
        user == Some(UserOf(fetched.value))
      ensures !RestoresGuest(old(storedUser)) && hasClient && session.SessionUser? && fetched.None? && created.Some? ==>
        user == Some(UserOf(created.value))
      ensures !RestoresGuest(old(storedUser)) && hasClient && session.SessionUser? && fetched.None? && created.None? ==>
        user == old(user)
      ensures isDark == old(isDark) && storedTheme == old(storedTheme)
    {
      if hasClient && session.SessionUser? {
        var _ := LoadUserProfile(session.id, Or(session.email, ""), fetched, created);
        currentPage := ChatPage;
        showBootAnimation := false;
      }
      if storedUser.Some? {
        match storedUser.value
        case Unparseable =>
          storedUser := None;
        case Parsed(saved) =>
          if saved.tier == Guest {
            user := Some(saved);
            currentPage := ChatPage;
            showBootAnimation := false;
          }
      }
      loading := false;
    }

    /** `toggleTheme`: the theme flips and the new one is stored. */
    method ToggleTheme()
      modifies this
      ensures isDark == !old(isDark) && storedTheme == Some(ThemeTag(isDark))
      ensures DarkFromStored(storedTheme) == isDark
      ensures loading == old(loading) && showBootAnimation == old(showBootAnimation) && currentPage == old(currentPage)
      ensures user == old(user) && storedUser == old(storedUser)
    {
      if isDark {
        storedTheme := Some("light");
      } else {
        storedTheme := Some("dark");
      }
      isDark := !isDark;
    }

    /** `handleLogin`: the user is set and the chat page opened. */
    method Login(u: User)
      modifies this
      ensures user == Some(u) && currentPage == ChatPage && !showBootAnimation
      ensures Render() == if loading then BootLoader else Chat(u)
      ensures loading == old(loading) && isDark == old(isDark)
      ensures storedTheme == old(storedTheme) && storedUser == old(storedUser)
    {
      user := Some(u);
      currentPage := ChatPage;
      showBootAnimation := false;
    }

    /** `handleLogout`: whether or not the sign-out succeeds, the saved user and the user are gone and the landing page shows. */
    method Logout(hasClient: bool, signOutFails: bool) returns (signedOut: bool)
      modifies this
      ensures signedOut == hasClient
      ensures storedUser == None && user == None && currentPage == LandingPage
      ensures Render() != NoSessionFallback && !Render().Chat?
      ensures loading == old(loading) && showBootAnimation == old(showBootAnimation)
      ensures isDark == old(isDark) && storedTheme == old(storedTheme)
    {
      signedOut := hasClient;
      storedUser := None;
      user := None;
      currentPage := LandingPage;
    }

    method Navigate(page: string)
      modifies this
      ensures currentPage == page
      ensures loading == old(loading) && showBootAnimation == old(showBootAnimation) && user == old(user)
      ensures isDark == old(isDark) && storedTheme == old(storedTheme) && storedUser == old(storedUser)
    {
      currentPage := page;
    }

    method UpdateUser(u: User)
      modifies this
      ensures user == Some(u)
      ensures loading == old(loading) && showBootAnimation == old(showBootAnimation) && currentPage == old(currentPage)
      ensures isDark == old(isDark) && storedTheme == old(storedTheme) && storedUser == old(storedUser)
    {
      user := Some(u);
    }
  }
}
