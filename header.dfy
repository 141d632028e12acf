/**
 * The page header: the initials shown for a user without a picture, and
 * the logo's navigation target. The profile page shows the same initials.
 */
module Header {
  import opened JsStrings
  import opened Wrappers
  import Types
  import App

  /** The first space-separated part of a name. */
  function FirstPart(name: string): string {
    Split(name, ' ')[0]
  }

  /** The last space-separated part of a name. */
  function LastPart(name: string): string {
    var parts := Split(name, ' ');
    parts[|parts| - 1]
  }

  /** `part[0]` placed in a template literal: the first character, or the
      text 'undefined' when the part is empty. */
  function FirstCharText(part: string): (r: string)
    ensures part != [] ==> r == [part[0]]
    ensures part == [] ==> r == "undefined"
  {
    if part == [] then "undefined" else [part[0]]
  }

  /** `getInitials` as written: for a name with a space, the first
      characters of the first and last parts; otherwise the first two
      characters; upper-cased either way. */
  function InitialsAsWritten(name: string): (r: string)
    ensures ' ' !in name ==> r == ToUpper(name[..if |name| < 2 then |name| else 2])
    ensures ' ' in name && FirstPart(name) != [] && LastPart(name) != []
      ==> r == [UpperChar(FirstPart(name)[0]), UpperChar(LastPart(name)[0])]
  {
    var parts := Split(name, ' ');
    SplitCount(name, ' ');
    if |parts| > 1 then ToUpper(FirstCharText(parts[0]) + FirstCharText(parts[|parts| - 1]))
    else ToUpper(Substring(name, 0, 2))
  }

  /** A name that ends in a space has an empty last part, and its initials
      spell out 'UNDEFINED'. */
  lemma {:induction false} TrailingSpaceInitials(first: string)
    requires first != [] && ' ' !in first
    ensures InitialsAsWritten(first + " ") == [UpperChar(first[0])] + "UNDEFINED"
  {
    var name := first + " ";
    assert name == first + [' '] + [];
    SplitAtSeparator(first, ' ', []);
    SplitNoSeparator([], ' ');
    assert Split(name, ' ') == [first, ""];
    assert ToUpper("undefined") == "UNDEFINED";
  }

  /** A user who signs in with 'bob.@example.com' is named 'Bob ', and the
      header shows 'BUNDEFINED' for them. */
  lemma ReachableUndefinedInitials(email: string)
    requires email == "bob.@example.com"
    ensures App.DeriveNameFromEmail(email) == "Bob "
    ensures InitialsAsWritten(App.DeriveNameFromEmail(email)) == "BUNDEFINED"
  {
    BobName(email);
    BobInitials(App.DeriveNameFromEmail(email));
  }

  lemma BobName(email: string)
    requires email == "bob.@example.com"
    ensures App.DeriveNameFromEmail(email) == "Bob "
  {
    assert "bob." + "@" + "example.com" == email;
    App.DeriveFromLocalPart("bob.", "example.com", "bob ", "Bob ");
  }

  lemma BobInitials(name: string)
    requires name == "Bob "
    ensures InitialsAsWritten(name) == "BUNDEFINED"
  {
    TrailingSpaceInitials("Bob");
    assert "Bob" + " " == name;
  }

  /** The first character of a part, if it has one. */
  function Lead(part: string): (r: string)
    ensures |r| <= 1
    ensures part != [] ==> r == [part[0]]
  {
    if part == [] then [] else [part[0]]
  }

  /** No ASCII lower-case letter. */
  predicate NoLowerAscii(s: string) {
    forall i :: 0 <= i < |s| ==> !('a' <= s[i] <= 'z')
  }

  /** The initials as intended: an empty first or last part contributes
      nothing, so the result is at most two characters. */
  function Initials(name: string): (r: string)
    ensures |r| <= 2
    ensures NoLowerAscii(r)
    ensures ' ' !in name ==> r == ToUpper(name[..if |name| < 2 then |name| else 2])
    ensures ' ' in name ==> r == ToUpper(Lead(FirstPart(name)) + Lead(LastPart(name)))
  {
    var parts := Split(name, ' ');
    SplitCount(name, ' ');
    if |parts| > 1 then ToUpper(Lead(parts[0]) + Lead(parts[|parts| - 1]))
    else ToUpper(Substring(name, 0, 2))
  }

  /** Where every part used is non-empty, the code as written gives the
      intended initials. */
  lemma InitialsAgree(name: string)
    requires ' ' in name ==> FirstPart(name) != [] && LastPart(name) != []
    ensures InitialsAsWritten(name) == Initials(name)
  {
  }

  /** A trimmed name never starts or ends with a space, so its first and
      last parts are never empty and the initials are as intended. */
  lemma TrimmedNameInitials(name: string)
    requires IsTrimmed(name)
    ensures InitialsAsWritten(name) == Initials(name)
  {
    var parts := Split(name, ' ');
    SplitCount(name, ' ');
    if |parts| > 1 {
      var n := |parts|;
      assert name == parts[0] + [' '] + Join(parts[1..], [' ']);
      JoinLast(parts, [' ']);
      assert name == Join(parts[..n - 1], [' ']) + [' '] + parts[n - 1];
    }
  }

  /** Parts between the first and the last never affect the initials. */
  lemma MiddlePartsIgnored(first: string, middle: string, last: string)
    requires ' ' !in first && ' ' !in last
    ensures Initials(first + " " + middle + " " + last) == Initials(first + " " + last)
    ensures InitialsAsWritten(first + " " + middle + " " + last) == InitialsAsWritten(first + " " + last)
  {
    var long := first + " " + middle + " " + last;
    var short := first + " " + last;
    assert long == first + [' '] + (middle + [' '] + last);
    assert short == first + [' '] + last;
    SplitConcat(first, ' ', middle + [' '] + last);
    SplitConcat(middle, ' ', last);
    SplitConcat(first, ' ', last);
    SplitNoSeparator(first, ' ');
    SplitNoSeparator(last, ' ');
    assert ' ' in long by { assert long[|first|] == ' '; }
    assert ' ' in short by { assert short[|first|] == ' '; }
  }

  /** The logo's target page: 'home' for a signed-in user, 'login' for
      anyone else. */
  function LogoTarget(isLoggedIn: bool): (page: string)
    ensures isLoggedIn ==> page == "home"
    ensures !isLoggedIn ==> page == "login"
  {
    if isLoggedIn then "home" else "login"
  }

  /** Following the logo shows the home page to a signed-in user and the
      authentication form to anyone else. */
  lemma LogoLeadsHome(isLoggedIn: bool, authPage: App.AuthPage, user: Option<Types.User>)
    ensures App.RenderPage(isLoggedIn, authPage, LogoTarget(isLoggedIn), user)
      == if isLoggedIn then App.HomeView else App.AuthView(authPage)
  {
  }
}
