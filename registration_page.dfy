/**
 * The registration form: the detail checks, the one-time-password step and
 * its six-box entry buffer, and the simulated Google sign-up.
 */
module Registration {
  import opened JsStrings
  import opened Wrappers
  import App

  // ---------------------------------------------------------------------
  // Field patterns
  // ---------------------------------------------------------------------

  /** `[^\s@]+` without the length requirement: no whitespace, no '@'. */
  predicate Plain(t: string) {
    forall i :: 0 <= i < |t| ==> !IsWhitespace(t[i]) && t[i] != '@'
  }

  /** A '.' with at least one character on each side. */
  predicate HasInnerDot(t: string) {
    exists k :: 0 < k < |t| - 1 && t[k] == '.'
  }

  /** `/^[^\s@]+@[^\s@]+\.[^\s@]+$/.test(s)`, read as: the text up to the
      first '@' is a non-empty plain part, and the rest is a plain domain with
      an inner '.'. */
  predicate IsValidEmail(s: string) {
    var local := BeforeFirst(s, '@');
    && local != s && local != []
    && Plain(local) && Plain(s[|local| + 1..]) && HasInnerDot(s[|local| + 1..])
  }

  /** The pattern itself: positions of the '@' and of a later '.', with
      plain, non-empty runs before, between and after them. */
  predicate EmailPattern(s: string) {
    exists i, k :: 0 < i && i + 1 < k && k + 1 < |s| && s[i] == '@' && s[k] == '.'
      && Plain(s[..i]) && Plain(s[i + 1..k]) && Plain(s[k + 1..])
  }

  /** The check accepts exactly the addresses the pattern describes. */
  lemma EmailCheckMatchesPattern(s: string)
    ensures IsValidEmail(s) <==> EmailPattern(s)
  {
    if IsValidEmail(s) {
      ValidEmailMatches(s);
    }
    if EmailPattern(s) {
      var i, k :| 0 < i && i + 1 < k && k + 1 < |s| && s[i] == '@' && s[k] == '.'
        && Plain(s[..i]) && Plain(s[i + 1..k]) && Plain(s[k + 1..]);
      PatternIsValid(s, i, k);
    }
  }

  lemma ValidEmailMatches(s: string)
    requires IsValidEmail(s)
    ensures EmailPattern(s)
  {
    var i := |BeforeFirst(s, '@')|;
    var d := s[i + 1..];
    var k :| 0 < k < |d| - 1 && d[k] == '.';
    var j := i + 1 + k;
    assert s[i] == '@' by { assert s[..i + 1] == BeforeFirst(s, '@') + ['@']; }
    assert s[j] == '.' by { assert d[k] == s[j]; }
    assert Plain(s[..i]) by { assert s[..i] == BeforeFirst(s, '@'); }
    assert Plain(s[i + 1..j]) by { PlainSlice(d, 0, k); assert s[i + 1..j] == d[0..k]; }
    assert Plain(s[j + 1..]) by { PlainSlice(d, k + 1, |d|); assert s[j + 1..] == d[k + 1..|d|]; }
  }

  lemma PlainSlice(t: string, a: nat, b: nat)
    requires Plain(t) && a <= b <= |t|
    ensures Plain(t[a..b])
  {
    assert forall x :: 0 <= x < b - a ==> t[a..b][x] == t[a + x];
  }

  lemma PatternIsValid(s: string, i: nat, k: nat)
    requires 0 < i && i + 1 < k && k + 1 < |s| && s[i] == '@' && s[k] == '.'
    requires Plain(s[..i]) && Plain(s[i + 1..k]) && Plain(s[k + 1..])
    ensures IsValidEmail(s)
  {
    assert s == s[..i] + ['@'] + s[i + 1..];
    SplitAtSeparator(s[..i], '@', s[i + 1..]);
    var local := BeforeFirst(s, '@');
    assert local == s[..i];
    var d := s[i + 1..];
    forall j | 0 <= j < |d| ensures !IsWhitespace(d[j]) && d[j] != '@' {
      if j < k - i - 1 { assert d[j] == s[i + 1..k][j]; }
      else if j > k - i - 1 { assert d[j] == s[k + 1..][j - (k - i)]; }
    }
    assert d[k - i - 1] == '.';
  }

  /** 2 to 15 digits, the first not '0'. */
  predicate PhoneDigits(b: string) {
    2 <= |b| <= 15 && '1' <= b[0] <= '9' && AllDigits(b)
  }

  /** `/^\+?[1-9]\d{1,14}$/.test(s)` */
  predicate IsValidPhone(s: string) {
    if s != [] && s[0] == '+' then PhoneDigits(s[1..]) else PhoneDigits(s)
  }

  /** Every natural number of 2 to 15 digits is a valid phone number,
      written plainly or after a '+'. */
  lemma PhoneNumbersAccepted(n: nat, k: nat)
    requires 1 <= k <= 14 && Pow10(k) <= n < Pow10(k + 1)
    ensures IsValidPhone(NatToDecimal(n))
    ensures IsValidPhone("+" + NatToDecimal(n))
  {
    DecimalLength(n, k);
    var d := NatToDecimal(n);
    assert d[0] != '0';
    assert ("+" + d)[1..] == d;
  }

  /** A valid phone number is one optional '+' then digits only. */
  lemma PhoneShape(s: string)
    requires IsValidPhone(s)
    ensures 2 <= |s| <= 16
    ensures forall i :: 0 < i < |s| ==> IsDigit(s[i])
    ensures IsDigit(s[0]) || s[0] == '+'
  {
    if s[0] == '+' {
      forall i | 0 < i < |s| ensures IsDigit(s[i]) { assert s[i] == s[1..][i - 1]; }
    }
  }

  // ---------------------------------------------------------------------
  // The detail checks
  // ---------------------------------------------------------------------

  datatype RegistrationType = EmailSignUp | PhoneSignUp

  const InvalidEmail := "Please enter a valid email address."
  const PhoneRequired := "Phone number is required."
  const InvalidPhone := "Please enter a valid phone number including country code (e.g., +1234567890)."
  const PasswordTooShort := "Password must be at least 8 characters long."
  const PasswordMismatch := "Passwords do not match."

  /** The checks of `handleDetailsSubmit`, in their order; the first that
      fails gives the message, and `None` means all passed. Only the field
      of the chosen sign-up type is checked. */
  function DetailsError(kind: RegistrationType, email: string, phone: string, password: string, confirm: string): (r: Option<string>)
    ensures r == Some(InvalidEmail) <==> kind.EmailSignUp? && !IsValidEmail(email)
    ensures r == Some(PhoneRequired) <==> kind.PhoneSignUp? && phone == ""
    ensures r == Some(InvalidPhone) <==> kind.PhoneSignUp? && phone != "" && !IsValidPhone(phone)
    ensures r == Some(PasswordTooShort) <==> ContactValid(kind, email, phone) && |password| < 8
    ensures r == Some(PasswordMismatch) <==> ContactValid(kind, email, phone) && |password| >= 8 && password != confirm
    ensures r == None <==> ContactValid(kind, email, phone) && |password| >= 8 && password == confirm
  {
    if kind.EmailSignUp? && !IsValidEmail(email) then Some(InvalidEmail)
    else if kind.PhoneSignUp? && phone == "" then Some(PhoneRequired)
    else if kind.PhoneSignUp? && !IsValidPhone(phone) then Some(InvalidPhone)
    else if |password| < 8 then Some(PasswordTooShort)
    else if password != confirm then Some(PasswordMismatch)
    else None
  }

  /** The e-mail or the phone number, whichever is chosen, is well formed. */
  predicate ContactValid(kind: RegistrationType, email: string, phone: string) {
    if kind.EmailSignUp? then IsValidEmail(email) else IsValidPhone(phone)
  }

  // ---------------------------------------------------------------------
  // The one-time password
  // ---------------------------------------------------------------------

  /** `value.slice(-1)`: the last character, or nothing. */
  function LastChar(value: string): (r: string)
    ensures |r| <= 1
    ensures value != [] ==> r == [value[|value| - 1]]
    ensures value == [] ==> r == []
  {
    if value == [] then [] else [value[|value| - 1]]
  }

  /** A box holds at most one digit. */
  predicate OtpSlot(s: string) {
    |s| <= 1 && AllDigits(s)
  }

  function Filled(otp: seq<string>): nat {
    if otp == [] then 0 else (if otp[0] != [] then 1 else 0) + Filled(otp[1..])
  }

  /** `otp.join('')` over boxes of at most one character is as long as the
      number of filled boxes. */
  lemma {:induction false} JoinedLength(otp: seq<string>)
    requires forall i :: 0 <= i < |otp| ==> OtpSlot(otp[i])
    ensures |Join(otp, "")| == Filled(otp)
    ensures Filled(otp) <= |otp|
    ensures Filled(otp) == |otp| <==> forall i :: 0 <= i < |otp| ==> otp[i] != []
    decreases |otp|
  {
    if |otp| > 0 {
      JoinedLength(otp[1..]);
      assert forall i :: 1 <= i < |otp| ==> otp[i] == otp[1..][i - 1];
    }
  }

  /** The code the timer hands over: `Math.floor(100000 + Math.random() *
      900000).toString()` for some draw. */
  function OtpCode(draw: nat): (code: string)
    requires 100000 <= draw <= 999999
    ensures |code| == 6 && AllDigits(code) && code[0] != '0'
    ensures DecimalValue(code) == draw
  {
    DecimalLength(draw, 5);
    NatToDecimal(draw)
  }

  datatype Step = Details | OtpEntry

  /** What the verification timer closes over when the code is submitted. */
  datatype PendingCheck = PendingCheck(entered: string, expected: string, kind: RegistrationType, email: string)

  /** What the verification leads to in the root component. */
  datatype Verified = RegisterEmail(email: string) | LoginWithoutCredentials | Rejected

  const OtpIncomplete := "Please enter the full 6-digit OTP."
  const OtpInvalid := "Invalid OTP. Please try again."
  /** A phone sign-up logs in with no credentials at all, so the root
      component falls back to its default user. */
  lemma PhoneSignUpUser(c: App.Credentials)
    requires c == App.Credentials(None, None, None)
    ensures App.LoginUser(c) == App.DefaultUser
  {
  }

  class RegistrationPage {
    var registrationType: RegistrationType
    var email: string
    var phone: string
    var password: string
    var confirmPassword: string
    var otp: seq<string>
    var generatedOtp: string
    var error: string
    var registrationStep: Step
    var isSubmitting: bool
    var isVerifying: bool
    var isGoogleLoading: bool
    var isOtpModalOpen: bool
    var isAuthModalOpen: bool

    /** Six boxes of at most one digit each. */
    predicate Valid()
      reads this
    {
      |otp| == 6 && forall i :: 0 <= i < 6 ==> OtpSlot(otp[i])
    }

    constructor ()
      ensures Valid() && otp == ["", "", "", "", "", ""]
      ensures registrationType == EmailSignUp && registrationStep == Details
      ensures email == "" && phone == "" && password == "" && confirmPassword == ""
      ensures generatedOtp == "" && error == ""
      ensures !isSubmitting && !isVerifying && !isGoogleLoading && !isOtpModalOpen && !isAuthModalOpen
    {
      registrationType := EmailSignUp;
      email, phone, password, confirmPassword := "", "", "", "";
      otp := ["", "", "", "", "", ""];
      generatedOtp := "";
      error := "";
      registrationStep := Details;
      isSubmitting, isVerifying, isGoogleLoading := false, false, false;
      isOtpModalOpen, isAuthModalOpen := false, false;
    }

    /** `handleDetailsSubmit`: the first failing check sets its message;
        when all pass, the code is requested. */
    method SubmitDetails()
      requires Valid()
      modifies this
      ensures Valid()
      ensures var e := DetailsError(registrationType, email, phone, password, confirmPassword);
        && error == e.GetOr("")
        && isSubmitting == (e.None? || old(isSubmitting))
      ensures registrationType == old(registrationType) && email == old(email) && phone == old(phone)
      ensures password == old(password) && confirmPassword == old(confirmPassword)
      ensures otp == old(otp) && generatedOtp == old(generatedOtp) && registrationStep == old(registrationStep)
      ensures isVerifying == old(isVerifying) && isGoogleLoading == old(isGoogleLoading)
      ensures isOtpModalOpen == old(isOtpModalOpen) && isAuthModalOpen == old(isAuthModalOpen)
    {
      error := "";
      var e := DetailsError(registrationType, email, phone, password, confirmPassword);
      if e.Some? {
        error := e.value;
        return;
      }
      isSubmitting := true;
    }

    /** The timer that follows a successful detail check: the code is drawn
        and the entry step shown. */
    method CodeSent(draw: nat)
      requires Valid() && 100000 <= draw <= 999999
      modifies this
      ensures Valid()
      ensures generatedOtp == OtpCode(draw) && |generatedOtp| == 6 && AllDigits(generatedOtp)
      ensures registrationStep == OtpEntry && isOtpModalOpen && !isSubmitting
      ensures registrationType == old(registrationType) && email == old(email) && phone == old(phone)
      ensures password == old(password) && confirmPassword == old(confirmPassword)
      ensures otp == old(otp) && error == old(error) && isVerifying == old(isVerifying)
      ensures isGoogleLoading == old(isGoogleLoading) && isAuthModalOpen == old(isAuthModalOpen)
    {
      generatedOtp := OtpCode(draw);
      registrationStep := OtpEntry;
      isOtpModalOpen := true;
      isSubmitting := false;
    }

    /** `handleOtpChange`: a non-digit entry is ignored; otherwise the box
        takes the last character typed (or becomes empty). */
    method ChangeOtp(index: nat, value: string)
      requires Valid() && index < 6
      modifies this`otp
      ensures Valid()
      ensures !AllDigits(value) ==> otp == old(otp)
      ensures AllDigits(value) ==> otp == old(otp)[index := LastChar(value)]
    {
      if !AllDigits(value) {
        return;
      }
      otp := otp[index := LastChar(value)];
    }

    /** `handleOtpSubmit`: with a box left empty the message is set and
        nothing else happens; otherwise verification starts, closing over
        the entered code, the expected one, the sign-up type and the
        e-mail. */
    method SubmitOtp() returns (pending: Option<PendingCheck>)
      requires Valid()
      modifies this`error, this`isVerifying
      ensures Valid()
      ensures pending.None? <==> exists i :: 0 <= i < 6 && otp[i] == []
      ensures pending.None? ==> error == OtpIncomplete && isVerifying == old(isVerifying)
      ensures pending.Some? ==> pending.value == PendingCheck(Join(otp, ""), generatedOtp, registrationType, email)
      ensures pending.Some? ==> |pending.value.entered| == 6 && isVerifying && error == old(error)
    {
      var entered := Join(otp, "");
      JoinedLength(otp);
      if |entered| < 6 {
        error := OtpIncomplete;
        return None;
      }
      isVerifying := true;
      pending := Some(PendingCheck(entered, generatedOtp, registrationType, email));
    }

    /** The verification timer: a match clears the message and registers
        the e-mail, or, for a phone sign-up, logs in without credentials; a
        mismatch sets the message and ends verification. */
    method Verify(p: PendingCheck) returns (outcome: Verified)
      requires Valid()
      modifies this`error, this`isVerifying
      ensures Valid()
      ensures outcome == Rejected <==> p.entered != p.expected
      ensures outcome.RegisterEmail? <==> p.entered == p.expected && p.kind.EmailSignUp?
      ensures outcome.RegisterEmail? ==> outcome.email == p.email
      ensures outcome.Rejected? ==> error == OtpInvalid && !isVerifying
      ensures !outcome.Rejected? ==> error == "" && isVerifying == old(isVerifying)
    {
      if p.entered == p.expected {
        error := "";
        outcome := if p.kind.EmailSignUp? then RegisterEmail(p.email) else LoginWithoutCredentials;
      } else {
        error := OtpInvalid;
        isVerifying := false;
        outcome := Rejected;
      }
    }

    /** `handleGoogleLogin`, first half. */
    method StartGoogleSignUp()
      modifies this`isGoogleLoading, this`isAuthModalOpen
      ensures isGoogleLoading && isAuthModalOpen
    {
      isGoogleLoading := true;
      isAuthModalOpen := true;
    }

    /** `handleGoogleLogin`, the timer: the modal closes and the fixed
        Google profile is handed to the login handler. */
    method FinishGoogleSignUp() returns (c: App.Credentials)
      modifies this`isAuthModalOpen
      ensures !isAuthModalOpen
      ensures c == App.GoogleDemoCredentials
    {
      isAuthModalOpen := false;
      c := App.GoogleDemoCredentials;
    }

    /** The e-mail / phone switch. */
    method ChooseType(kind: RegistrationType)
      modifies this`registrationType
      ensures registrationType == kind
    {
      registrationType := kind;
    }

    /** "Back to details". */
    method BackToDetails()
      modifies this`registrationStep
      ensures registrationStep == Details
    {
      registrationStep := Details;
    }
  }
}
