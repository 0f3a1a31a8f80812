/** The sign-in page: a splash screen, then for a citizen the phone number,
    the one-time code and the generated credentials, and finally the login
    form that both citizens and administrators use. */
module Auth {
  import opened Wrappers
  import opened Text
  import opened Seqs

  // ------------------------------------------------------------ the steps

  /** The values of `currentStep`. */
  datatype AuthStep = Splash | PhoneEntry | OtpEntry | Credentials | LoginForm

  /** The buttons that change the step. */
  datatype Action =
    | ChooseCitizen | ChooseAdmin | SendOtp | VerifyOtp | ContinueToLogin
    | BackToPhone | BackToHome

  /** Where a button leads when its handler accepts; `None` where the step
      renders no such button. */
  function Transition(step: AuthStep, action: Action): (r: Option<AuthStep>)
    ensures r.Some? ==> r.value != step
    ensures action == ChooseCitizen || action == ChooseAdmin ==> (r.Some? <==> step == Splash)
  {
    match (step, action)
    case (Splash, ChooseCitizen) => Some(PhoneEntry)
    case (Splash, ChooseAdmin) => Some(LoginForm)
    case (PhoneEntry, SendOtp) => Some(OtpEntry)
    case (OtpEntry, VerifyOtp) => Some(Credentials)
    case (OtpEntry, BackToPhone) => Some(PhoneEntry)
    case (Credentials, ContinueToLogin) => Some(LoginForm)
    case (LoginForm, BackToHome) => Some(Splash)
    case _ => None
  }

  /** The position of a step along the citizen's way through the page. */
  function Rank(step: AuthStep): nat {
    match step
    case Splash => 0
    case PhoneEntry => 1
    case OtpEntry => 2
    case Credentials => 3
    case LoginForm => 4
  }

  /** The only buttons that lead backwards are "Back to Phone Number" on the
      code step and "Back to Home" on the login form. */
  lemma OnlyTwoBackEdges(step: AuthStep, action: Action)
    requires Transition(step, action).Some?
    ensures Rank(Transition(step, action).value) < Rank(step) <==>
              (step == OtpEntry && action == BackToPhone) || (step == LoginForm && action == BackToHome)
  {
  }

  // ----------------------------------------------------------- sanitising

  /** The first `n` elements of `s`, or all of it when it is shorter: JS
      `slice(0, n)`. */
  function Take<T>(s: seq<T>, n: nat): (r: seq<T>)
    ensures |r| <= n
    ensures r <= s
    ensures |s| <= n ==> r == s
    ensures |r| == if |s| <= n then |s| else n
  {
    if |s| <= n then s else s[..n]
  }

  /** `value.replace(/\D/g, '').slice(0, n)`: the digits of the typed text,
      in order, cut after `n`. */
  function Sanitize(raw: string, n: nat): (r: string)
    ensures AllDigits(r) && |r| <= n
    ensures r <= Filter(raw, IsDigit)
    ensures |r| == if |Filter(raw, IsDigit)| <= n then |Filter(raw, IsDigit)| else n
  {
    Take(Filter(raw, IsDigit), n)
  }

  /** Sanitising what was already sanitised changes nothing. */
  lemma SanitizeIdempotent(raw: string, n: nat)
    ensures Sanitize(Sanitize(raw, n), n) == Sanitize(raw, n)
  {
    var r := Sanitize(raw, n);
    FilterKeepsAll(r, IsDigit);
  }

  /** Text that is already a short enough run of digits is kept as typed. */
  lemma SanitizeKeepsDigits(raw: string, n: nat)
    requires AllDigits(raw) && |raw| <= n
    ensures Sanitize(raw, n) == raw
  {
    FilterKeepsAll(raw, IsDigit);
  }

  /** Typing more characters after the first `n` digits changes nothing. */
  lemma {:induction false} SanitizeIgnoresTail(raw: string, more: string, n: nat)
    requires |Filter(raw, IsDigit)| >= n
    ensures Sanitize(raw + more, n) == Sanitize(raw, n)
  {
    FilterAppend(raw, more, IsDigit);
    var d := Filter(raw, IsDigit);
    assert (d + Filter(more, IsDigit))[..n] == d[..n];
  }

  // ------------------------------------------------------------- usernames

  function DigitChar(d: nat): (c: char)
    requires d < 10
    ensures IsDigit(c)
  {
    ['0', '1', '2', '3', '4', '5', '6', '7', '8', '9'][d]
  }

  /** The decimal rendering of a natural number, as a template string
      renders it. */
  function Digits(n: nat): (s: string)
    ensures |s| >= 1 && AllDigits(s)
    ensures n >= 1 ==> s[0] != '0'
    decreases n
  {
    if n < 10 then [DigitChar(n)] else Digits(n / 10) + [DigitChar(n % 10)]
  }

  /** The number a run of decimal digits denotes. */
  function DigitsValue(s: string): nat
    requires AllDigits(s)
  {
    if s == [] then 0
    else DigitsValue(s[..|s| - 1]) * 10 + (s[|s| - 1] as int - '0' as int)
  }

  /** Reading back a rendered number gives the number. */
  lemma {:induction false} DigitsRoundTrip(n: nat)
    ensures DigitsValue(Digits(n)) == n
    decreases n
  {
    if n >= 10 {
      var s := Digits(n);
      assert s[..|s| - 1] == Digits(n / 10);
      DigitsRoundTrip(n / 10);
    }
  }

  function Pow10(k: nat): nat {
    if k == 0 then 1 else 10 * Pow10(k - 1)
  }

  /** A number with `k` decimal digits renders as `k` characters. */
  lemma {:induction false} DigitsLength(n: nat, k: nat)
    requires 1 <= k && Pow10(k - 1) <= n < Pow10(k)
    ensures |Digits(n)| == k
    decreases k
  {
    if k > 1 {
      assert Pow10(k - 1) == 10 * Pow10(k - 2);
      DigitsLength(n / 10, k - 1);
    }
  }

  const UsernamePrefix := "Rakshak"

  /** `Rakshak${Math.floor(10000 + Math.random() * 90000)}`, with the random
      part given as `suffix`, the floor of `random() * 90000`, which lies in
      0..89999. */
  function GeneratedUsername(suffix: nat): (u: string)
    requires suffix < 90000
    ensures |u| == 12
    ensures u[..7] == UsernamePrefix
    ensures AllDigits(u[7..]) && u[7] != '0'
    ensures DigitsValue(u[7..]) == 10000 + suffix
  {
    var d := Digits(10000 + suffix);
    assert Pow10(4) == 10000 && Pow10(5) == 100000;
    DigitsLength(10000 + suffix, 5);
    DigitsRoundTrip(10000 + suffix);
    assert (UsernamePrefix + d)[7..] == d;
    UsernamePrefix + d
  }

  /** Different draws give different usernames. */
  lemma GeneratedUsernameInjective(a: nat, b: nat)
    requires a < 90000 && b < 90000 && a != b
    ensures GeneratedUsername(a) != GeneratedUsername(b)
  {
    var ua, ub := GeneratedUsername(a), GeneratedUsername(b);
    assert DigitsValue(ua[7..]) != DigitsValue(ub[7..]);
  }

  /** The shape of a generated username: the prefix and a five-digit number
      without a leading zero. */
  ghost predicate IsGeneratedUsername(u: string) {
    exists suffix: nat :: suffix < 90000 && u == GeneratedUsername(suffix)
  }

  // ------------------------------------------------------------ the page

  /** The `currentStep`, `phoneNumber`, `otp`, `username`, `password` and
      `isAdmin` state of the page. */
  class AuthFlow {
    var currentStep: AuthStep
    var phoneNumber: string
    var otp: string
    var username: string
    var password: string
    var isAdmin: bool

    /** The inputs hold sanitised digits; the citizen's steps are never
        reached as an administrator; the code step and the credentials step
        come after a full phone number, the credentials step after a full
        code and with a generated username. */
    ghost predicate Valid()
      reads this
    {
      && AllDigits(phoneNumber) && |phoneNumber| <= 10
      && AllDigits(otp) && |otp| <= 6
      && (currentStep in {PhoneEntry, OtpEntry, Credentials} ==> !isAdmin)
      && (currentStep in {OtpEntry, Credentials} ==> |phoneNumber| == 10)
      && (currentStep == Credentials ==> |otp| == 6 && IsGeneratedUsername(username))
    }

    constructor ()
      ensures Valid()
      ensures currentStep == Splash && !isAdmin
      ensures phoneNumber == "" && otp == "" && username == "" && password == ""
    {
      currentStep := Splash;
      phoneNumber := "";
      otp := "";
      username := "";
      password := "";
      isAdmin := false;
    }

    /** "Login / Sign Up as Citizen". */
    method ChooseCitizen()
      requires Valid() && currentStep == Splash
      modifies this
      ensures Valid()
      ensures currentStep == Transition(old(currentStep), Action.ChooseCitizen).value == PhoneEntry
      ensures !isAdmin
      ensures phoneNumber == old(phoneNumber) && otp == old(otp)
      ensures username == old(username) && password == old(password)
    {
      isAdmin := false;
      currentStep := PhoneEntry;
    }

    /** "Login as Admin". */
    method ChooseAdmin()
      requires Valid() && currentStep == Splash
      modifies this
      ensures Valid()
      ensures currentStep == Transition(old(currentStep), Action.ChooseAdmin).value == LoginForm
      ensures isAdmin
      ensures phoneNumber == old(phoneNumber) && otp == old(otp)
      ensures username == old(username) && password == old(password)
    {
      isAdmin := true;
      currentStep := LoginForm;
    }

    /** The phone input's `onChange`. */
    method TypePhone(raw: string)
      requires Valid() && currentStep == PhoneEntry
      modifies this
      ensures Valid()
      ensures phoneNumber == Sanitize(raw, 10)
      ensures currentStep == old(currentStep) && isAdmin == old(isAdmin) && otp == old(otp)
      ensures username == old(username) && password == old(password)
    {
      phoneNumber := Sanitize(raw, 10);
    }

    /** `handlePhoneSubmit`: on to the code step with a ten-digit number,
        otherwise nothing changes. */
    method SubmitPhone() returns (accepted: bool)
      requires Valid() && currentStep == PhoneEntry
      modifies this
      ensures Valid()
      ensures accepted <==> |old(phoneNumber)| == 10
      ensures currentStep == if accepted then Transition(old(currentStep), Action.SendOtp).value else old(currentStep)
      ensures phoneNumber == old(phoneNumber) && otp == old(otp) && isAdmin == old(isAdmin)
      ensures username == old(username) && password == old(password)
    {
      if |phoneNumber| != 10 {
        return false;
      }
      currentStep := OtpEntry;
      return true;
    }

    /** The code input's `onChange`. */
    method TypeOtp(raw: string)
      requires Valid() && currentStep == OtpEntry
      modifies this
      ensures Valid()
      ensures otp == Sanitize(raw, 6)
      ensures currentStep == old(currentStep) && isAdmin == old(isAdmin) && phoneNumber == old(phoneNumber)
      ensures username == old(username) && password == old(password)
    {
      otp := Sanitize(raw, 6);
    }

    /** `handleOtpVerify`: with a six-digit code, the credentials step with a
        generated username and the given password; otherwise nothing
        changes. The random draws are the parameters. */
    method SubmitOtp(suffix: nat, generatedPassword: string) returns (accepted: bool)
      requires Valid() && currentStep == OtpEntry && suffix < 90000
      modifies this
      ensures Valid()
      ensures accepted <==> |old(otp)| == 6
      ensures accepted ==> currentStep == Transition(old(currentStep), Action.VerifyOtp).value
                           && username == GeneratedUsername(suffix) && password == generatedPassword
      ensures !accepted ==> currentStep == old(currentStep)
                            && username == old(username) && password == old(password)
      ensures phoneNumber == old(phoneNumber) && otp == old(otp) && isAdmin == old(isAdmin)
    {
      if |otp| != 6 {
        return false;
      }
      username := GeneratedUsername(suffix);
      password := generatedPassword;
      currentStep := Credentials;
      return true;
    }

    /** "Back to Phone Number". */
    method BackToPhone()
      requires Valid() && currentStep == OtpEntry
      modifies this
      ensures Valid()
      ensures currentStep == Transition(old(currentStep), Action.BackToPhone).value
      ensures phoneNumber == old(phoneNumber) && otp == old(otp) && isAdmin == old(isAdmin)
      ensures username == old(username) && password == old(password)
    {
      currentStep := PhoneEntry;
    }

    /** "Continue to Login": the generated credentials stay filled in. */
    method ContinueToLogin()
      requires Valid() && currentStep == Credentials
      modifies this
      ensures Valid()
      ensures currentStep == Transition(old(currentStep), Action.ContinueToLogin).value
      ensures !isAdmin && IsGeneratedUsername(username)
      ensures phoneNumber == old(phoneNumber) && otp == old(otp) && isAdmin == old(isAdmin)
      ensures username == old(username) && password == old(password)
    {
      currentStep := LoginForm;
    }

    /** "Back to Home". */
    method BackToHome()
      requires Valid() && currentStep == LoginForm
      modifies this
      ensures Valid()
      ensures currentStep == Transition(old(currentStep), Action.BackToHome).value
      ensures phoneNumber == old(phoneNumber) && otp == old(otp) && isAdmin == old(isAdmin)
      ensures username == old(username) && password == old(password)
    {
      currentStep := Splash;
    }

    /** The username input of the login form. */
    method TypeUsername(text: string)
      requires Valid() && currentStep == LoginForm
      modifies this
      ensures Valid()
      ensures username == text
      ensures currentStep == old(currentStep) && isAdmin == old(isAdmin)
      ensures phoneNumber == old(phoneNumber) && otp == old(otp) && password == old(password)
    {
      username := text;
    }

    /** The password input of the login form. */
    method TypePassword(text: string)
      requires Valid() && currentStep == LoginForm
      modifies this
      ensures Valid()
      ensures password == text
      ensures currentStep == old(currentStep) && isAdmin == old(isAdmin)
      ensures phoneNumber == old(phoneNumber) && otp == old(otp) && username == old(username)
    {
      password := text;
    }

    /** `handleLogin`: refused when the username or the password is empty;
        otherwise the page navigates away, which is outside this model. The
        page's state is not changed either way. */
    method Login() returns (accepted: bool)
      requires Valid() && currentStep == LoginForm
      ensures accepted <==> username != "" && password != ""
    {
      accepted := username != "" && password != "";
    }
  }
}
