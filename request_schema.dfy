/**
 * The request validators of backend/src/modules/auth/schema.ts. Each field
 * is a zod string schema: a chain of checks and transforms applied in order.
 * Every check runs even after an earlier one failed, so a field reports all
 * its failures; an object schema reports the issues of all its fields and
 * succeeds only when none has any. The email check is zod's own pattern,
 * which is a parameter here.
 */
module RequestSchema {
  import opened Wrappers
  import opened JsStrings

  /** A value as it arrives in the request body. */
  datatype Raw = Missing | Str(s: string) | NotString(received: string)

  /** One entry of a `ZodError`: the field it is about and its message. */
  datatype Issue = Issue(path: string, message: string)

  /** One link of a zod string chain. */
  datatype Check =
    | TrimCheck
    | LowerCaseCheck
    | MinCheck(min: nat, message: string)
    | MaxCheck(max: nat, message: string)
    | LengthCheck(length: nat, message: string)
    | EmailCheck(message: string)
    | SixDigitsPattern(message: string)   // `.regex(/^\d{6}$/, message)`

  /** The value after a chain, and the messages of the checks that failed. */
  datatype Checked = Checked(value: string, failures: seq<string>)

  /** Six ASCII digits and nothing else: what `/^\d{6}$/` matches. */
  predicate SixDigits(s: string) {
    |s| == 6 && AllDigits(s)
  }

  /** One link: a transform replaces the value, a check may add a message. */
  function Step(c: Check, isEmail: string -> bool, s: string): (string, seq<string>) {
    match c
    case TrimCheck => (Trim(s), [])
    case LowerCaseCheck => (ToLower(s), [])
    case MinCheck(n, m) => (s, if JsLength(s) < n then [m] else [])
    case MaxCheck(n, m) => (s, if JsLength(s) > n then [m] else [])
    case LengthCheck(n, m) => (s, if JsLength(s) != n then [m] else [])
    case EmailCheck(m) => (s, if isEmail(s) then [] else [m])
    case SixDigitsPattern(m) => (s, if SixDigits(s) then [] else [m])
  }

  /** Runs a chain from left to right. */
  function RunChecks(checks: seq<Check>, isEmail: string -> bool, s: string): Checked
    decreases |checks|
  {
    if checks == [] then
      Checked(s, [])
    else
      var (next, failed) := Step(checks[0], isEmail, s);
      var rest := RunChecks(checks[1..], isEmail, next);
      Checked(rest.value, failed + rest.failures)
  }

  /** Chains whose checks all sit on one value: splitting the chain splits
      the failures. */
  lemma RunChecksCons(c: Check, cs: seq<Check>, isEmail: string -> bool, s: string)
    ensures RunChecks([c] + cs, isEmail, s)
        == var (next, failed) := Step(c, isEmail, s);
           var rest := RunChecks(cs, isEmail, next);
           Checked(rest.value, failed + rest.failures)
  {
    assert ([c] + cs)[1..] == cs;
  }

  function Issues(path: string, messages: seq<string>): (r: seq<Issue>)
    ensures |r| == |messages|
    ensures forall i :: 0 <= i < |r| ==> r[i] == Issue(path, messages[i])
  {
    if messages == [] then [] else [Issue(path, messages[0])] + Issues(path, messages[1..])
  }

  /** A string field of an object schema: a missing or non-string value is
      one type issue, otherwise the chain decides. */
  function Field(path: string, checks: seq<Check>, isEmail: string -> bool, raw: Raw): (r: Result<string, seq<Issue>>)
    ensures r.Err? ==> |r.error| >= 1 && forall i :: 0 <= i < |r.error| ==> r.error[i].path == path
    ensures r.Ok? <==> (raw.Str? && RunChecks(checks, isEmail, raw.s).failures == [])
  {
    match raw
    case Missing => Err([Issue(path, "Required")])
    case NotString(received) => Err([Issue(path, "Expected string, received " + received)])
    case Str(s) =>
      var c := RunChecks(checks, isEmail, s);
      if c.failures == [] then Ok(c.value) else Err(Issues(path, c.failures))
  }

  function IssuesOf(r: Result<string, seq<Issue>>): seq<Issue> {
    if r.Err? then r.error else []
  }

  // ---------------------------------------------------------------------
  // The chains of schema.ts
  // ---------------------------------------------------------------------

  const InvalidEmail := "Invalid email format"

  const SignupNameChecks: seq<Check> :=
    [TrimCheck, MinCheck(2, "Name must be at least 2 characters"), MaxCheck(100, "Name too long")]

  const EmailChecks: seq<Check> := [TrimCheck, EmailCheck(InvalidEmail), LowerCaseCheck]

  const SignupPasswordChecks: seq<Check> :=
    [MinCheck(6, "Password must be at least 6 characters long"), MaxCheck(64, "Password too long")]

  const OtpChecks: seq<Check> := [LengthCheck(6, "OTP must be 6 digits"), SixDigitsPattern("OTP must be numeric")]

  const LoginEmailChecks: seq<Check> :=
    [TrimCheck, MinCheck(1, "Email is required"), EmailCheck(InvalidEmail), LowerCaseCheck]

  const LoginPasswordChecks: seq<Check> := [MinCheck(1, "Password is required")]

  // ---------------------------------------------------------------------
  // Object schemas
  // ---------------------------------------------------------------------

  datatype RequestOtpBody = RequestOtpBody(name: Raw, email: Raw, password: Raw)
  datatype RequestOtpInput = RequestOtpInput(name: string, email: string, password: string)

  datatype VerifyOtpBody = VerifyOtpBody(email: Raw, otp: Raw)
  datatype VerifyOtpInput = VerifyOtpInput(email: string, otp: string)

  datatype LoginBody = LoginBody(email: Raw, password: Raw)
  datatype LoginInput = LoginInput(email: string, password: string)

  /** `requestOtpSchema.parse(body)`. */
  function ParseRequestOtp(isEmail: string -> bool, body: RequestOtpBody): (r: Result<RequestOtpInput, seq<Issue>>)
    ensures r.Err? ==> |r.error| >= 1
  {
    var n := Field("name", SignupNameChecks, isEmail, body.name);
    var e := Field("email", EmailChecks, isEmail, body.email);
    var p := Field("password", SignupPasswordChecks, isEmail, body.password);
    if n.Ok? && e.Ok? && p.Ok? then Ok(RequestOtpInput(n.value, e.value, p.value))
    else Err(IssuesOf(n) + IssuesOf(e) + IssuesOf(p))
  }

  /** `verifyOtpSchema.parse(body)`. */
  function ParseVerifyOtp(isEmail: string -> bool, body: VerifyOtpBody): (r: Result<VerifyOtpInput, seq<Issue>>)
    ensures r.Err? ==> |r.error| >= 1
  {
    var e := Field("email", EmailChecks, isEmail, body.email);
    var o := Field("otp", OtpChecks, isEmail, body.otp);
    if e.Ok? && o.Ok? then Ok(VerifyOtpInput(e.value, o.value)) else Err(IssuesOf(e) + IssuesOf(o))
  }

  /** `loginSchema.parse(body)`. */
  function ParseLogin(isEmail: string -> bool, body: LoginBody): (r: Result<LoginInput, seq<Issue>>)
    ensures r.Err? ==> |r.error| >= 1
  {
    var e := Field("email", LoginEmailChecks, isEmail, body.email);
    var p := Field("password", LoginPasswordChecks, isEmail, body.password);
    if e.Ok? && p.Ok? then Ok(LoginInput(e.value, p.value)) else Err(IssuesOf(e) + IssuesOf(p))
  }

  // ---------------------------------------------------------------------
  // What each chain does
  // ---------------------------------------------------------------------

  /** The signup name chain: trimmed, and rejected below 2 or above 100
      characters with the matching message. */
  lemma SignupNameChain(isEmail: string -> bool, s: string)
    ensures var t := Trim(s);
      RunChecks(SignupNameChecks, isEmail, s)
        == Checked(t, (if JsLength(t) < 2 then ["Name must be at least 2 characters"] else [])
                      + (if JsLength(t) > 100 then ["Name too long"] else []))
  {
    var t := Trim(s);
    RunChecksCons(TrimCheck, SignupNameChecks[1..], isEmail, s);
    assert SignupNameChecks == [TrimCheck] + SignupNameChecks[1..];
    RunChecksCons(SignupNameChecks[1], SignupNameChecks[2..], isEmail, t);
    assert SignupNameChecks[1..] == [SignupNameChecks[1]] + SignupNameChecks[2..];
    RunChecksCons(SignupNameChecks[2], [], isEmail, t);
    assert SignupNameChecks[2..] == [SignupNameChecks[2]] + [];
  }

  /** The email chain of the signup and verify schemas: the pattern is tested
      on the trimmed string, and the value is then lower-cased. */
  lemma EmailChain(isEmail: string -> bool, s: string)
    ensures RunChecks(EmailChecks, isEmail, s)
        == Checked(ToLower(Trim(s)), if isEmail(Trim(s)) then [] else [InvalidEmail])
  {
    var t := Trim(s);
    assert EmailChecks == [TrimCheck] + EmailChecks[1..];
    RunChecksCons(TrimCheck, EmailChecks[1..], isEmail, s);
    assert EmailChecks[1..] == [EmailChecks[1]] + EmailChecks[2..];
    RunChecksCons(EmailChecks[1], EmailChecks[2..], isEmail, t);
    assert EmailChecks[2..] == [LowerCaseCheck] + [];
    RunChecksCons(LowerCaseCheck, [], isEmail, t);
  }

  /** The signup password chain: not trimmed, rejected below 6 or above 64. */
  lemma SignupPasswordChain(isEmail: string -> bool, s: string)
    ensures RunChecks(SignupPasswordChecks, isEmail, s)
        == Checked(s, (if JsLength(s) < 6 then ["Password must be at least 6 characters long"] else [])
                      + (if JsLength(s) > 64 then ["Password too long"] else []))
  {
    assert SignupPasswordChecks == [SignupPasswordChecks[0]] + SignupPasswordChecks[1..];
    RunChecksCons(SignupPasswordChecks[0], SignupPasswordChecks[1..], isEmail, s);
    assert SignupPasswordChecks[1..] == [SignupPasswordChecks[1]] + [];
    RunChecksCons(SignupPasswordChecks[1], [], isEmail, s);
  }

  /** The otp chain: a wrong length and a non-numeric value are reported
      separately, and both when both apply. */
  lemma OtpChain(isEmail: string -> bool, s: string)
    ensures RunChecks(OtpChecks, isEmail, s)
        == Checked(s, (if JsLength(s) != 6 then ["OTP must be 6 digits"] else [])
                      + (if SixDigits(s) then [] else ["OTP must be numeric"]))
  {
    assert OtpChecks == [OtpChecks[0]] + OtpChecks[1..];
    RunChecksCons(OtpChecks[0], OtpChecks[1..], isEmail, s);
    assert OtpChecks[1..] == [OtpChecks[1]] + [];
    RunChecksCons(OtpChecks[1], [], isEmail, s);
  }

  /** The login email chain: trimmed, then non-empty, then the pattern, then
      lower-cased. An empty email is reported twice. */
  lemma LoginEmailChain(isEmail: string -> bool, s: string)
    ensures var t := Trim(s);
      RunChecks(LoginEmailChecks, isEmail, s)
        == Checked(ToLower(t), (if JsLength(t) < 1 then ["Email is required"] else [])
                               + (if isEmail(t) then [] else [InvalidEmail]))
  {
    var t := Trim(s);
    assert LoginEmailChecks == [TrimCheck] + LoginEmailChecks[1..];
    RunChecksCons(TrimCheck, LoginEmailChecks[1..], isEmail, s);
    assert LoginEmailChecks[1..] == [LoginEmailChecks[1]] + LoginEmailChecks[2..];
    RunChecksCons(LoginEmailChecks[1], LoginEmailChecks[2..], isEmail, t);
    assert LoginEmailChecks[2..] == [LoginEmailChecks[2]] + LoginEmailChecks[3..];
    RunChecksCons(LoginEmailChecks[2], LoginEmailChecks[3..], isEmail, t);
    assert LoginEmailChecks[3..] == [LowerCaseCheck] + [];
    RunChecksCons(LowerCaseCheck, [], isEmail, t);
  }

  /** The login password chain: only non-empty, no upper bound. */
  lemma LoginPasswordChain(isEmail: string -> bool, s: string)
    ensures RunChecks(LoginPasswordChecks, isEmail, s)
        == Checked(s, if JsLength(s) < 1 then ["Password is required"] else [])
  {
    assert LoginPasswordChecks == [LoginPasswordChecks[0]] + [];
    RunChecksCons(LoginPasswordChecks[0], [], isEmail, s);
  }

  // ---------------------------------------------------------------------
  // What each schema accepts
  // ---------------------------------------------------------------------

  /** The normal form every accepted email is in. */
  function NormalEmail(s: string): string {
    ToLower(Trim(s))
  }

  /** The signup schema accepts a string name of 2 to 100 characters after
      trimming, a string email that passes the pattern after trimming and a
      string password of 6 to 64 characters, and delivers the trimmed name,
      the trimmed and lower-cased email and the password untouched. */
  lemma RequestOtpAccepts(isEmail: string -> bool, body: RequestOtpBody)
    ensures ParseRequestOtp(isEmail, body).Ok?
        <==> (&& body.name.Str? && 2 <= JsLength(Trim(body.name.s)) <= 100
              && body.email.Str? && isEmail(Trim(body.email.s))
              && body.password.Str? && 6 <= JsLength(body.password.s) <= 64)
    ensures ParseRequestOtp(isEmail, body).Ok? ==>
        ParseRequestOtp(isEmail, body).value
          == RequestOtpInput(Trim(body.name.s), NormalEmail(body.email.s), body.password.s)
  {
    if body.name.Str? { SignupNameChain(isEmail, body.name.s); }
    if body.email.Str? { EmailChain(isEmail, body.email.s); }
    if body.password.Str? { SignupPasswordChain(isEmail, body.password.s); }
  }

  /** The verify schema accepts an email as the signup schema does and an otp
      of exactly six decimal digits. */
  lemma VerifyOtpAccepts(isEmail: string -> bool, body: VerifyOtpBody)
    ensures ParseVerifyOtp(isEmail, body).Ok?
        <==> (&& body.email.Str? && isEmail(Trim(body.email.s))
              && body.otp.Str? && SixDigits(body.otp.s))
    ensures ParseVerifyOtp(isEmail, body).Ok? ==>
        ParseVerifyOtp(isEmail, body).value == VerifyOtpInput(NormalEmail(body.email.s), body.otp.s)
  {
    if body.email.Str? { EmailChain(isEmail, body.email.s); }
    if body.otp.Str? {
      OtpChain(isEmail, body.otp.s);
      if SixDigits(body.otp.s) { DigitsAreBasicPlane(body.otp.s); }
    }
  }

  lemma DigitsAreBasicPlane(s: string)
    requires AllDigits(s)
    ensures JsLength(s) == |s|
  {
    assert InBasicPlane(s);
    JsLengthBasicPlane(s);
  }

  /** The login schema accepts an email that is non-empty and passes the
      pattern after trimming, and any non-empty password. */
  lemma LoginAccepts(isEmail: string -> bool, body: LoginBody)
    ensures ParseLogin(isEmail, body).Ok?
        <==> (&& body.email.Str? && Trim(body.email.s) != [] && isEmail(Trim(body.email.s))
              && body.password.Str? && body.password.s != [])
    ensures ParseLogin(isEmail, body).Ok? ==>
        ParseLogin(isEmail, body).value == LoginInput(NormalEmail(body.email.s), body.password.s)
  {
    if body.email.Str? { LoginEmailChain(isEmail, body.email.s); }
    if body.password.Str? { LoginPasswordChain(isEmail, body.password.s); }
  }

  /** An accepted email is already trimmed and lower-case, so the account
      store's own setters leave it as it is. */
  lemma NormalEmailIsNormal(s: string)
    ensures Trim(NormalEmail(s)) == NormalEmail(s)
    ensures ToLower(NormalEmail(s)) == NormalEmail(s)
    ensures Trim(ToLower(s)) == NormalEmail(s)
  {
    var t := Trim(s);
    ToLowerTrimCommute(t);
    TrimIdempotent(s);
    ToLowerIdempotent(t);
    ToLowerTrimCommute(s);
  }

  /** Two emails that differ only in the case of their letters and in the
      whitespace around them have the same normal form, so they name the same
      staged signup and the same account. */
  lemma NormalEmailIgnoresCaseAndSpaces(w1: string, a: string, w2: string, b: string)
    requires AllWhitespace(w1) && AllWhitespace(w2)
    requires ToLower(a) == ToLower(b)
    ensures NormalEmail(w1 + a + w2) == NormalEmail(b)
  {
    TrimIgnoresSurroundingWhitespace(w1, a, w2);
    ToLowerTrimCommute(a);
    ToLowerTrimCommute(b);
  }
}
