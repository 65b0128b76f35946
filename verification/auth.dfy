/**
 * The sign-in page: the password-strength meter, the email sign-in and
 * sign-up form with its checks, Google sign-in, and the user records the
 * page hands to the application for a signed-in account or a guest.
 *
 * Whether the authentication client is configured, and what the sign-up,
 * sign-in and Google calls answered, are parameters. The 300 ms delay of a
 * mode switch is taken as immediate.
 */
module Auth {
  import opened Wrappers
  import opened Text
  import opened Types

  /** The character classes the meter tests for, as the regular expressions `[A-Z]`, `[0-9]`, `[^A-Za-z0-9]`. */
  datatype CharClass = UpperLetter | Digit | Symbol

  predicate InClass(c: char, k: CharClass) {
    match k
    case UpperLetter => 'A' <= c <= 'Z'
    case Digit => '0' <= c <= '9'
    case Symbol => !('A' <= c <= 'Z' || 'a' <= c <= 'z' || '0' <= c <= '9')
  }

  predicate HasClass(s: string, k: CharClass) {
    exists i :: 0 <= i < |s| && InClass(s[i], k)
  }

  /** The four strength criteria. */
  datatype Criterion = LongEnough | HasUpper | HasDigit | HasSymbol

  const Criteria: seq<Criterion> := [LongEnough, HasUpper, HasDigit, HasSymbol]

  predicate Meets(pass: string, c: Criterion) {
    match c
    case LongEnough => Utf16Length(pass) > 7
    case HasUpper => HasClass(pass, UpperLetter)
    case HasDigit => HasClass(pass, Digit)
    case HasSymbol => HasClass(pass, Symbol)
  }

  /** How many of `cs` the password meets. */
  function MetCount(pass: string, cs: seq<Criterion>): (r: nat)
    ensures r <= |cs|
    ensures r == |cs| <==> forall k :: 0 <= k < |cs| ==> Meets(pass, cs[k])
    ensures r == 0 <==> forall k :: 0 <= k < |cs| ==> !Meets(pass, cs[k])
  {
    if cs == [] then 0
    else
      var rest := MetCount(pass, cs[1..]);
      assert forall k :: 1 <= k < |cs| ==> cs[k] == cs[1..][k - 1];
      (if Meets(pass, cs[0]) then 1 else 0) + rest
  }

  /** The strength score: the number of criteria met. */
  function Strength(pass: string): nat {
    MetCount(pass, Criteria)
  }

  function Point(b: bool): nat {
    if b then 1 else 0
  }

  /** The score spelled out: one point for each criterion, in the meter's order. */
  lemma StrengthSum(pass: string)
    ensures Strength(pass) == Point(Utf16Length(pass) > 7) + Point(HasClass(pass, UpperLetter))
      + Point(HasClass(pass, Digit)) + Point(HasClass(pass, Symbol))
  {
    var c3: seq<Criterion> := [HasSymbol];
    var c2: seq<Criterion> := [HasDigit] + c3;
    var c1: seq<Criterion> := [HasUpper] + c2;
    assert Criteria == [LongEnough] + c1;
    assert c3[1..] == [] && c2[1..] == c3 && c1[1..] == c2 && Criteria[1..] == c1;
    assert MetCount(pass, c3) == Point(HasClass(pass, Symbol));
    assert MetCount(pass, c2) == Point(HasClass(pass, Digit)) + MetCount(pass, c3);
    assert MetCount(pass, c1) == Point(HasClass(pass, UpperLetter)) + MetCount(pass, c2);
    assert MetCount(pass, Criteria) == Point(Utf16Length(pass) > 7) + MetCount(pass, c1);
  }

  /** A `/[..]/.test(s)`: a scan for a character of the class. */
  method TestClass(s: string, k: CharClass) returns (found: bool)
    ensures found <==> HasClass(s, k)
  {
    var i := 0;
    while i < |s|
      invariant 0 <= i <= |s|
      invariant forall j :: 0 <= j < i ==> !InClass(s[j], k)
    {
      if InClass(s[i], k) {
        return true;
      }
      i := i + 1;
    }
    return false;
  }

  /** `getPasswordStrength`: one point per criterion met, counted up in order. */
  method PasswordStrength(pass: string) returns (strength: nat)
    ensures strength == Strength(pass)
    ensures strength <= 4
  {
    strength := 0;
    if Utf16Length(pass) > 7 {
      strength := strength + 1;
    }
    var upper := TestClass(pass, UpperLetter);
    if upper {
      strength := strength + 1;
    }
    var digit := TestClass(pass, Digit);
    if digit {
      strength := strength + 1;
    }
    var symbol := TestClass(pass, Symbol);
    if symbol {
      strength := strength + 1;
    }
    StrengthSum(pass);
  }

  /** Full strength exactly when every criterion is met; zero exactly when none is. */
  lemma StrengthExtremes(pass: string)
    ensures Strength(pass) == 4 <==>
      Utf16Length(pass) > 7 && HasClass(pass, UpperLetter) && HasClass(pass, Digit) && HasClass(pass, Symbol)
    ensures Strength(pass) == 0 <==>
      Utf16Length(pass) <= 7 && !HasClass(pass, UpperLetter) && !HasClass(pass, Digit) && !HasClass(pass, Symbol)
  {
    assert Criteria[0] == LongEnough && Criteria[1] == HasUpper && Criteria[2] == HasDigit && Criteria[3] == HasSymbol;
  }

  /** "Passw0rd!" scores four: it is long enough and has all three classes. */
  lemma StrongExample()
    ensures Strength("Passw0rd!") == 4
  {
    var strong := "Passw0rd!";
    assert forall i :: 0 <= i < |strong| ==> strong[i] as int <= 0x7F;
    Utf16LengthBmp(strong);
    assert InClass(strong[0], UpperLetter) && InClass(strong[5], Digit) && InClass(strong[8], Symbol);
    StrengthExtremes(strong);
  }

  /** "password" scores one: only the length counts. */
  lemma WeakExample()
    ensures Strength("password") == 1
  {
    var weak := "password";
    assert forall i :: 0 <= i < |weak| ==> 'a' <= weak[i] <= 'z';
    Utf16LengthBmp(weak);
    StrengthSum(weak);
    LowercaseOnly(weak);
  }

  /** A password of lower-case letters only has no character of any of the three classes. */
  lemma LowercaseOnly(pass: string)
    requires forall i :: 0 <= i < |pass| ==> 'a' <= pass[i] <= 'z'
    ensures !HasClass(pass, UpperLetter) && !HasClass(pass, Digit) && !HasClass(pass, Symbol)
  {
  }

  /**
   * The length rule counts UTF-16 code units: four characters from outside
   * the Basic Multilingual Plane (four emoji, say) are long enough.
   */
  lemma AstralPasswordLength(pass: string)
    requires |pass| == 4 && forall i :: 0 <= i < |pass| ==> pass[i] as int > 0xFFFF
    ensures Meets(pass, LongEnough) && Utf16Length(pass) == 8
  {
    Utf16LengthAstral(pass);
  }

  const NotConfiguredError := "Authentication is not configured. Please use Guest mode."
  const MismatchError := "Passwords do not match"
  const ShortPasswordError := "Password must be at least 8 characters"
  const AuthFailedError := "Authentication failed"
  const GoogleNotConfiguredError := "Google Sign-In is not configured. Please use Guest mode."
  const GoogleFailedError := "Google sign-in failed"
  const CheckEmailNotice := Notice("Check Your Email",
    "We've sent you a confirmation link. Please check your inbox to verify your account.", SuccessNotice)
  const DefaultThemeColor := "#3B82F6"
  const GuestEmail := "guest@jainn.ai"

  /** The account the authentication service reports: an id and a possibly-missing email. */
  datatype AccountInfo = AccountInfo(id: string, email: Option<string>)

  /** What a sign-up or sign-in call answered: an error with a possibly-missing message, or data with a possibly-missing account. */
  datatype AuthReply = AuthError(message: Option<string>) | AuthData(account: Option<AccountInfo>)

  /** The call the form made to the authentication service, if any. */
  datatype AuthCall = NoCall | SignUpCall(email: string, password: string) | SignInCall(email: string, password: string)

  /** The display name of a signed-in account: the email before '@', or "User" when that is missing or empty. */
  function AccountDisplayName(email: Option<string>): (r: string)
    ensures r != ""
    ensures email.Some? && BeforeFirst(email.value, '@') != "" ==> r == BeforeFirst(email.value, '@') && '@' !in r
    ensures (email.None? || StartsWith(email.value, "@") || email.value == "") ==> r == "User"
  {
    if email.Some? && BeforeFirst(email.value, '@') != "" then BeforeFirst(email.value, '@') else "User"
  }

  /** The record a successful sign-in produces: a FREE account with zero usage and the default colour. */
  function SignedInUser(a: AccountInfo): (u: User)
    ensures u.id == a.id && u.email == Or(a.email, "")
    ensures u.tier == Free && u.tokensUsed == 0 && u.imagesGenerated == 0 && u.themeColor == DefaultThemeColor
    ensures u.displayName.Some? && u.displayName.value != "" && u.avatar.None?
  {
    User(a.id, Or(a.email, ""), Free, 0, 0, DefaultThemeColor, Some(AccountDisplayName(a.email)), None)
  }

  /** The guest record: an id made from the clock, the fixed guest email, GUEST tier and zero usage. */
  function GuestUser(now: nat): (u: User)
    ensures StartsWith(u.id, "guest_") && u.id[6..] == NatToString(now)
    ensures u.email == GuestEmail && u.tier == Guest && u.tokensUsed == 0 && u.imagesGenerated == 0
    ensures u.displayName == Some("Guest User") && u.themeColor == DefaultThemeColor
  {
    User("guest_" + NatToString(now), GuestEmail, Guest, 0, 0, DefaultThemeColor, Some("Guest User"), None)
  }

  /** Guests created at different times get different ids. */
  lemma GuestIdsDiffer(t1: nat, t2: nat)
    requires t1 != t2
    ensures GuestUser(t1).id != GuestUser(t2).id
  {
    if GuestUser(t1).id == GuestUser(t2).id {
      assert NatToString(t1) == GuestUser(t1).id[6..] == GuestUser(t2).id[6..] == NatToString(t2);
      NatToStringInjective(t1, t2);
    }
  }

  class AuthForm {
    var isLogin: bool
    var email: string
    var password: string
    var confirmPassword: string
    var error: string
    var loading: bool
    var modal: Option<Notice>

    constructor ()
      ensures isLogin && email == "" && password == "" && confirmPassword == ""
      ensures error == "" && !loading && modal == None
    {
      isLogin := true;
      email := "";
      password := "";
      confirmPassword := "";
      error := "";
      loading := false;
      modal := None;
    }

    method SetEmail(s: string)
      modifies this
      ensures email == s
      ensures isLogin == old(isLogin) && password == old(password) && confirmPassword == old(confirmPassword)
      ensures error == old(error) && loading == old(loading) && modal == old(modal)
    {
      email := s;
    }

    method SetPasswords(p: string, c: string)
      modifies this
      ensures password == p && confirmPassword == c
      ensures isLogin == old(isLogin) && email == old(email)
      ensures error == old(error) && loading == old(loading) && modal == old(modal)
    {
      password := p;
      confirmPassword := c;
    }

    /** `switchMode`: the error and both password fields cleared, the mode set; the email stays. */
    method SwitchMode(login: bool)
      modifies this
      ensures isLogin == login && error == "" && password == "" && confirmPassword == ""
      ensures email == old(email) && loading == old(loading) && modal == old(modal)
    {
      error := "";
      isLogin := login;
      password := "";
      confirmPassword := "";
    }

    method CloseModal()
      modifies this
      ensures modal == None
      ensures isLogin == old(isLogin) && email == old(email) && password == old(password)
      ensures confirmPassword == old(confirmPassword) && error == old(error) && loading == old(loading)
    {
      modal := None;
    }

    /**
     * `handleEmailAuth`. Without a client nothing is called. Signing up
     * checks that the passwords match, then their length, before calling
     * the service; a new account opens the "Check Your Email" notice and
     * returns the form to sign-in. Signing in hands the account's record to
     * the application. A service error becomes the error line, with a
     * default text. Loading is over at the end, on every path.
     */
    method EmailAuth(hasClient: bool, reply: AuthReply) returns (call: AuthCall, loggedIn: Option<User>)
      modifies this
      ensures !loading && email == old(email) && password == old(password) && confirmPassword == old(confirmPassword)
      ensures !hasClient ==>
        call == NoCall && loggedIn == None && error == NotConfiguredError && isLogin == old(isLogin) && modal == old(modal)
      ensures hasClient && !old(isLogin) && password != confirmPassword ==>
        call == NoCall && loggedIn == None && error == MismatchError && isLogin == old(isLogin) && modal == old(modal)
      ensures hasClient && !old(isLogin) && password == confirmPassword && Utf16Length(password) < 8 ==>
        call == NoCall && loggedIn == None && error == ShortPasswordError && isLogin == old(isLogin) && modal == old(modal)
      ensures hasClient && !old(isLogin) && password == confirmPassword && Utf16Length(password) >= 8 ==>
        call == SignUpCall(email, password) && loggedIn == None
        && (reply.AuthError? ==> error == Or(reply.message, AuthFailedError) && !isLogin && modal == old(modal))
        && (reply.AuthData? && reply.account.Some? ==> error == "" && isLogin && modal == Some(CheckEmailNotice))
        && (reply.AuthData? && reply.account.None? ==> error == "" && !isLogin && modal == old(modal))
      ensures hasClient && old(isLogin) ==>
        call == SignInCall(email, password) && isLogin && modal == old(modal)
        && (reply.AuthError? ==> error == Or(reply.message, AuthFailedError) && loggedIn == None)
        && (reply.AuthData? ==> error == "" && loggedIn == if reply.account.Some? then Some(SignedInUser(reply.account.value)) else None)
      ensures call.NoCall? ==> error != ""
    {
      error := "";
      loading := true;
      loggedIn := None;
      call := NoCall;
      if !hasClient {
        error := NotConfiguredError;
        loading := false;
        return;
      }
      if !isLogin {
        if password != confirmPassword {
          error := MismatchError;
          loading := false;
          return;
        }
        if Utf16Length(password) < 8 {
          error := ShortPasswordError;
          loading := false;
          return;
        }
        call := SignUpCall(email, password);
        match reply
        case AuthError(m) =>
          error := Or(m, AuthFailedError);
        case AuthData(account) =>
          if account.Some? {
            modal := Some(CheckEmailNotice);
            isLogin := true;
          }
      } else {
        call := SignInCall(email, password);
        match reply
        case AuthError(m) =>
          error := Or(m, AuthFailedError);
        case AuthData(account) =>
          if account.Some? {
            loggedIn := Some(SignedInUser(account.value));
          }
      }
      loading := false;
    }

    /**
     * `handleGoogleAuth`: without a client an error and no call; otherwise
     * the redirect is started, and a reported error becomes the error line
     * with a default text. Loading stays on while the browser leaves the page.
     */
    method GoogleAuth(hasClient: bool, failure: Option<Option<string>>) returns (called: bool)
      modifies this
      ensures called == hasClient
      ensures !hasClient ==> error == GoogleNotConfiguredError && !loading
      ensures hasClient && failure.Some? ==> error == Or(failure.value, GoogleFailedError) && !loading
      ensures hasClient && failure.None? ==> error == "" && loading
      ensures isLogin == old(isLogin) && email == old(email) && password == old(password)
      ensures confirmPassword == old(confirmPassword) && modal == old(modal)
    {
      error := "";
      loading := true;
      if !hasClient {
        error := GoogleNotConfiguredError;
        loading := false;
        return false;
      }
      if failure.Some? {
        error := Or(failure.value, GoogleFailedError);
        loading := false;
      }
      return true;
    }
  }
}
