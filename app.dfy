/**
 * The root component: who is signed in, which authentication form shows
 * while nobody is, which page is current, and the view each state renders.
 */
module App {
  import opened JsStrings
  import opened Wrappers
  import opened Types

  // ---------------------------------------------------------------------
  // Display names from e-mail addresses
  // ---------------------------------------------------------------------

  /** `.replace(/[._-]/g, ' ')` */
  function ReplaceSeparators(s: string): (r: string)
    ensures |r| == |s|
    ensures forall i :: 0 <= i < |s| ==> r[i] == (if s[i] in ".-_" then ' ' else s[i])
  {
    seq(|s|, i requires 0 <= i < |s| => if s[i] in ".-_" then ' ' else s[i])
  }

  /** `part.charAt(0).toUpperCase() + part.slice(1)` */
  function Capitalize(part: string): (r: string)
    ensures |r| == |part|
    ensures part != [] ==> r[0] == UpperChar(part[0]) && r[1..] == part[1..]
  {
    if part == [] then [] else [UpperChar(part[0])] + part[1..]
  }

  function CapitalizeAll(parts: seq<string>): (r: seq<string>)
    ensures |r| == |parts|
    ensures forall i :: 0 <= i < |parts| ==> r[i] == Capitalize(parts[i])
  {
    seq(|parts|, i requires 0 <= i < |parts| => Capitalize(parts[i]))
  }

  /** Reference definition of the name derivation, character by character:
      the first character and every character after a space are upper-cased,
      the others kept. */
  function CapitalizeWords(s: string): (r: string)
    ensures |r| == |s|
    ensures forall i :: 0 <= i < |s| ==> r[i] == (if i == 0 || s[i - 1] == ' ' then UpperChar(s[i]) else s[i])
  {
    seq(|s|, i requires 0 <= i < |s| => if i == 0 || s[i - 1] == ' ' then UpperChar(s[i]) else s[i])
  }

  /** `deriveNameFromEmail`: the part before the first '@', with '.', '_'
      and '-' read as spaces and each space-separated word capitalised. */
  function DeriveNameFromEmail(email: string): (r: string)
    ensures r == CapitalizeWords(ReplaceSeparators(BeforeFirst(email, '@')))
  {
    var words := ReplaceSeparators(BeforeFirst(email, '@'));
    SplitCapitalizeJoin(words);
    Join(CapitalizeAll(Split(words, ' ')), " ")
  }

  /** Splitting at spaces, capitalising each word and joining with spaces
      agrees with the character-by-character reference. */
  lemma {:induction false} SplitCapitalizeJoin(s: string)
    ensures Join(CapitalizeAll(Split(s, ' ')), " ") == CapitalizeWords(s)
    decreases |s|
  {
    if ' ' !in s {
      SplitNoSeparator(s, ' ');
      assert CapitalizeAll([s]) == [Capitalize(s)];
      assert Capitalize(s) == CapitalizeWords(s);
    } else {
      var a := BeforeFirst(s, ' ');
      assert a != s;
      var b := s[|a| + 1..];
      assert s == a + [' '] + b by { assert s[..|a| + 1] == a + [' ']; }
      CapitalizeJoinStep(a, b);
      SplitCapitalizeJoin(b);
      CapitalizeWordsAtSpace(a, b);
      assert Capitalize(a) == CapitalizeWords(a);
    }
  }

  /** The first word is capitalised on its own and the rest joined after
      it. */
  lemma CapitalizeJoinStep(a: string, b: string)
    requires ' ' !in a
    ensures Join(CapitalizeAll(Split(a + [' '] + b, ' ')), " ")
         == Capitalize(a) + " " + Join(CapitalizeAll(Split(b, ' ')), " ")
  {
    SplitAtSeparator(a, ' ', b);
    var tail := CapitalizeAll(Split(b, ' '));
    assert CapitalizeAll(Split(a + [' '] + b, ' ')) == [Capitalize(a)] + tail;
    assert ([Capitalize(a)] + tail)[1..] == tail;
  }

  /** The reference definition restarts after a space. */
  lemma CapitalizeWordsAtSpace(a: string, b: string)
    ensures CapitalizeWords(a + [' '] + b) == CapitalizeWords(a) + [' '] + CapitalizeWords(b)
  {
    var s := a + [' '] + b;
    var l := CapitalizeWords(a) + [' '] + CapitalizeWords(b);
    forall i | 0 <= i < |s| ensures CapitalizeWords(s)[i] == l[i] {
      if i < |a| {
        assert s[i] == a[i];
        assert i > 0 ==> s[i - 1] == a[i - 1];
      } else if i > |a| {
        assert s[i] == b[i - |a| - 1];
        assert i - 1 > |a| ==> s[i - 1] == b[i - |a| - 2];
      }
    }
  }

  /** The derived name is as long as the part before the '@', holds no '@',
      '.', '_' or '-', and has a space exactly where that part had a space
      or one of those separators. */
  lemma DerivedNameShape(email: string)
    ensures |DeriveNameFromEmail(email)| == |BeforeFirst(email, '@')|
    ensures forall i :: 0 <= i < |DeriveNameFromEmail(email)| ==> DeriveNameFromEmail(email)[i] !in "@._-"
    ensures forall i :: 0 <= i < |DeriveNameFromEmail(email)| ==>
      (DeriveNameFromEmail(email)[i] == ' ' <==> BeforeFirst(email, '@')[i] in " ._-")
  {
    var local := BeforeFirst(email, '@');
    var words := ReplaceSeparators(local);
    var r := DeriveNameFromEmail(email);
    forall i | 0 <= i < |r| ensures r[i] !in "@._-" && (r[i] == ' ' <==> local[i] in " ._-") {
      assert local[i] != '@';
      assert r[i] == words[i] || r[i] == UpperChar(words[i]);
    }
  }

  /** The documented example: 'gia.lee.goog@example.com' gives 'Gia Lee Goog'. */
  lemma DeriveNameExample(email: string)
    requires email == "gia.lee.goog@example.com"
    ensures DeriveNameFromEmail(email) == "Gia Lee Goog"
  {
    assert "gia.lee.goog" + "@" + "example.com" == email;
    DeriveFromLocalPart("gia.lee.goog", "example.com", "gia lee goog", "Gia Lee Goog");
  }

  /** Only the part before the '@' matters. */
  lemma DeriveFromLocalPart(local: string, domain: string, words: string, name: string)
    requires '@' !in local
    requires ReplaceSeparators(local) == words && CapitalizeWords(words) == name
    ensures DeriveNameFromEmail(local + "@" + domain) == name
  {
    LocalPart(local, domain);
  }

  /** The part before the first '@'. */
  lemma LocalPart(local: string, domain: string)
    requires '@' !in local
    ensures BeforeFirst(local + "@" + domain, '@') == local
  {
    SplitAtSeparator(local, '@', domain);
  }

  // ---------------------------------------------------------------------
  // Choosing the signed-in user
  // ---------------------------------------------------------------------

  /** The fields of a Google profile the login handler reads; either may be
      missing. */
  datatype GoogleProfile = GoogleProfile(email: Option<string>, profileImageUrl: Option<string>)

  /** `{ email?, password?, googleUser? }`; the password is passed along by
      the login form and not looked at. */
  datatype Credentials = Credentials(email: Option<string>, password: Option<string>, googleUser: Option<GoogleProfile>)

  /** A present, non-empty string: JavaScript truthiness of `string | undefined`. */
  predicate Truthy(s: Option<string>) {
    s.Some? && s.value != ""
  }

  const DefaultUser := User("Alex Doe", "alex.doe@example.com", None)

  /** The user record `handleLogin` settles on: the Google profile's e-mail
      when it has one, else the typed e-mail when there is one, else the
      fixed default. Only a Google profile can carry a picture. */
  function LoginUser(c: Credentials): (u: User)
    ensures c.googleUser.Some? && Truthy(c.googleUser.value.email) ==> u.email == c.googleUser.value.email.value
    ensures !(c.googleUser.Some? && Truthy(c.googleUser.value.email)) && Truthy(c.email) ==> u.email == c.email.value
    ensures !(c.googleUser.Some? && Truthy(c.googleUser.value.email)) && !Truthy(c.email) ==> u == DefaultUser
    ensures u.profileImageUrl.Some? <==>
      c.googleUser.Some? && Truthy(c.googleUser.value.email) && Truthy(c.googleUser.value.profileImageUrl)
    ensures u.profileImageUrl.Some? ==> u.profileImageUrl == c.googleUser.value.profileImageUrl
  {
    if c.googleUser.Some? && Truthy(c.googleUser.value.email) then
      var g := c.googleUser.value;
      User(DeriveNameFromEmail(g.email.value), g.email.value, if Truthy(g.profileImageUrl) then g.profileImageUrl else None)
    else if Truthy(c.email) then
      User(DeriveNameFromEmail(c.email.value), c.email.value, None)
    else
      DefaultUser
  }

  /** `handleRegister`: the same derivation, no picture. */
  function RegisteredUser(email: string): (u: User)
    ensures u.email == email && u.profileImageUrl == None
    ensures u.name == DeriveNameFromEmail(email)
  {
    User(DeriveNameFromEmail(email), email, None)
  }

  /** Whoever logs in, the name is the one derived from the e-mail, the
      default user included. */
  lemma LoginNameFromEmail(c: Credentials)
    ensures LoginUser(c).name == DeriveNameFromEmail(LoginUser(c).email)
    ensures LoginUser(c).email != ""
  {
    if !(c.googleUser.Some? && Truthy(c.googleUser.value.email)) && !Truthy(c.email) {
      DefaultUserName(LoginUser(c));
    }
  }

  /** The default user's name is the one derived from its e-mail. */
  lemma DefaultUserName(u: User)
    requires u == DefaultUser
    ensures DeriveNameFromEmail(u.email) == u.name
  {
    assert "alex.doe" + "@" + "example.com" == u.email;
    DeriveFromLocalPart("alex.doe", "example.com", "alex doe", "Alex Doe");
  }

  /** Registering with an e-mail gives the user that logging in with the
      same e-mail gives. */
  lemma RegisterMatchesLogin(email: string)
    requires email != ""
    ensures RegisteredUser(email) == LoginUser(Credentials(Some(email), None, None))
  {
  }

  /** The e-mail of the simulated Google account both sign-in forms use. */
  const GoogleDemoEmail := "gia.lee.goog@example.com"

  /** What the simulated Google sign-in hands to the login handler: a
      profile with that e-mail and no picture. */
  const GoogleDemoCredentials := Credentials(None, None, Some(GoogleProfile(Some(GoogleDemoEmail), None)))

  /** The simulated Google sign-in logs in as 'Gia Lee Goog'. */
  lemma GoogleDemoUser(c: Credentials)
    requires c == GoogleDemoCredentials
    ensures LoginUser(c) == User("Gia Lee Goog", GoogleDemoEmail, None)
  {
    var e := c.googleUser.value.email.value;
    GoogleUser(c, e);
    DeriveNameExample(e);
  }

  /** A Google profile with an e-mail and no picture signs in as the user
      derived from that e-mail. */
  lemma GoogleUser(c: Credentials, e: string)
    requires c.googleUser == Some(GoogleProfile(Some(e), None)) && e != ""
    ensures LoginUser(c) == User(DeriveNameFromEmail(e), e, None)
  {
  }

  // ---------------------------------------------------------------------
  // Views
  // ---------------------------------------------------------------------

  datatype AuthPage = LoginForm | RegisterForm

  datatype View =
    | LoginView | RegistrationView
    | HomeView | DashboardView | FaqView | ContactView | ProfileView(user: Option<User>)
    | ImageDetectionView | ArticleAnalysisView | CallFraudDetectionView | AiVoiceDetectionView
    | SmsFraudDetectionView | TrendingTopicsView | AwarenessTemplatesView | UserInsightsView

  const DashboardPrefix := "dashboard/"

  /** `currentPage.split('/')[1]` for a page under the dashboard: the
      segment after the first '/', up to the next one. */
  function Subpage(page: string): (seg: string)
    requires StartsWith(page, DashboardPrefix)
    ensures seg == BeforeFirst(page[10..], '/')
  {
    assert page == "dashboard" + ['/'] + page[10..] by {
      assert page[..10] == DashboardPrefix;
    }
    SplitAtSeparator("dashboard", '/', page[10..]);
    Split(page, '/')[1]
  }

  /** The tool a dashboard segment names; anything else is the dashboard. */
  function ToolView(seg: string): (v: View)
    ensures v == DashboardView <==> seg !in {"image", "article", "voice", "aivoice", "sms", "trending", "templates", "insights"}
  {
    match seg
    case "image" => ImageDetectionView
    case "article" => ArticleAnalysisView
    case "voice" => CallFraudDetectionView
    case "aivoice" => AiVoiceDetectionView
    case "sms" => SmsFraudDetectionView
    case "trending" => TrendingTopicsView
    case "templates" => AwarenessTemplatesView
    case "insights" => UserInsightsView
    case _ => DashboardView
  }

  /** The form shown while nobody is signed in. */
  function AuthView(authPage: AuthPage): (v: View)
    ensures v == RegistrationView <==> authPage == RegisterForm
    ensures v == LoginView <==> authPage.LoginForm?
  {
    if authPage == RegisterForm then RegistrationView else LoginView
  }

  /** The page shown to a signed-in user. */
  function SignedInView(currentPage: string, user: Option<User>): (v: View)
    ensures v != LoginView && v != RegistrationView
    ensures StartsWith(currentPage, DashboardPrefix) ==> v == ToolView(BeforeFirst(currentPage[10..], '/'))
    ensures !StartsWith(currentPage, DashboardPrefix) && currentPage !in {"home", "dashboard", "faq", "contact", "profile"}
      ==> v == DashboardView
  {
    if StartsWith(currentPage, DashboardPrefix) then
      ToolView(Subpage(currentPage))
    else
      match currentPage
      case "home" => HomeView
      case "dashboard" => DashboardView
      case "faq" => FaqView
      case "contact" => ContactView
      case "profile" => ProfileView(user)
      case _ => DashboardView
  }

  /** `renderPage`: while nobody is signed in, only the authentication form
      matters, whatever page is current. */
  function RenderPage(isLoggedIn: bool, authPage: AuthPage, currentPage: string, user: Option<User>): (v: View)
    ensures !isLoggedIn ==> v == AuthView(authPage)
    ensures isLoggedIn ==> v == SignedInView(currentPage, user)
  {
    if !isLoggedIn then AuthView(authPage) else SignedInView(currentPage, user)
  }

  /** A page under the dashboard opens the tool its first segment names,
      whatever follows that segment. */
  lemma DashboardDispatch(isLoggedIn: bool, authPage: AuthPage, seg: string, rest: string, user: Option<User>)
    requires isLoggedIn && '/' !in seg
    requires rest == [] || rest[0] == '/'
    ensures RenderPage(isLoggedIn, authPage, DashboardPrefix + seg + rest, user) == ToolView(seg)
  {
    var page := DashboardPrefix + seg + rest;
    assert StartsWith(page, DashboardPrefix) by { assert page[..10] == DashboardPrefix; }
    assert page[10..] == seg + rest;
    if rest == [] {
      SplitNoSeparator(seg, '/');
      assert seg + rest == seg;
    } else {
      assert seg + rest == seg + ['/'] + rest[1..];
      SplitAtSeparator(seg, '/', rest[1..]);
    }
  }

  // ---------------------------------------------------------------------
  // Root state
  // ---------------------------------------------------------------------

  class AppState {
    var isDarkMode: bool
    var currentPage: string
    var isLoggedIn: bool
    var authPage: AuthPage
    var user: Option<User>

    /** A signed-in session always has a user. */
    predicate Valid()
      reads this
    {
      isLoggedIn ==> user.Some?
    }

    /** The view the current state renders: an authentication form exactly
        while signed out, and then the one the auth page names. */
    function View(): (v: View)
      reads this
      ensures !isLoggedIn <==> v.LoginView? || v.RegistrationView?
      ensures !isLoggedIn ==> (v == RegistrationView <==> authPage == RegisterForm)
    {
      RenderPage(isLoggedIn, authPage, currentPage, user)
    }

    constructor ()
      ensures Valid()
      ensures !isDarkMode && currentPage == "login" && !isLoggedIn && authPage == LoginForm && user == None
      ensures View() == LoginView
    {
      isDarkMode := false;
      currentPage := "login";
      isLoggedIn := false;
      authPage := LoginForm;
      user := None;
    }

    /** `toggleDarkMode` */
    method ToggleDarkMode()
      modifies this
      ensures isDarkMode == !old(isDarkMode)
      ensures currentPage == old(currentPage) && isLoggedIn == old(isLoggedIn)
      ensures authPage == old(authPage) && user == old(user)
    {
      isDarkMode := !isDarkMode;
    }

    /** `handleLogin` */
    method Login(c: Credentials)
      modifies this
      ensures Valid()
      ensures user == Some(LoginUser(c)) && isLoggedIn && currentPage == "home"
      ensures authPage == old(authPage) && isDarkMode == old(isDarkMode)
      ensures View() == HomeView
    {
      user := Some(LoginUser(c));
      isLoggedIn := true;
      currentPage := "home";
    }

    /** `handleRegister` */
    method Register(email: string)
      modifies this
      ensures Valid()
      ensures user == Some(RegisteredUser(email)) && isLoggedIn && currentPage == "home"
      ensures authPage == old(authPage) && isDarkMode == old(isDarkMode)
      ensures View() == HomeView
    {
      user := Some(RegisteredUser(email));
      isLoggedIn := true;
      currentPage := "home";
    }

    /** `handleLogout` */
    method Logout()
      modifies this
      ensures Valid()
      ensures !isLoggedIn && user == None && currentPage == "login" && authPage == LoginForm
      ensures isDarkMode == old(isDarkMode)
      ensures View() == LoginView
    {
      isLoggedIn := false;
      user := None;
      currentPage := "login";
      authPage := LoginForm;
    }

    /** `handleProfileUpdate` */
    method UpdateProfile(updated: User)
      requires Valid()
      modifies this
      ensures Valid()
      ensures user == Some(updated)
      ensures currentPage == old(currentPage) && isLoggedIn == old(isLoggedIn)
      ensures authPage == old(authPage) && isDarkMode == old(isDarkMode)
    {
      user := Some(updated);
    }

    /** `handleNavigation`: a request for the login page while signed in
      goes to the dashboard; any other request is taken as it is. */
    method Navigate(page: string)
      requires Valid()
      modifies this
      ensures Valid()
      ensures currentPage == if page == "login" && old(isLoggedIn) then "dashboard" else page
      ensures isLoggedIn == old(isLoggedIn) && user == old(user)
      ensures authPage == old(authPage) && isDarkMode == old(isDarkMode)
    {
      if page == "login" && isLoggedIn {
        currentPage := "dashboard";
      } else {
        currentPage := page;
      }
    }

    /** The links between the two authentication forms. */
    method SwitchAuthPage(to: AuthPage)
      requires Valid()
      modifies this
      ensures Valid()
      ensures authPage == to
      ensures currentPage == old(currentPage) && isLoggedIn == old(isLoggedIn)
      ensures user == old(user) && isDarkMode == old(isDarkMode)
    {
      authPage := to;
    }
  }
}
