/**
 * What the two signup services share: the six-digit code, the errors they
 * throw, the session token they sign and the phases an email goes through.
 */
module Signup {
  import opened Wrappers
  import opened JsStrings
  import RequestSchema
  import opened Accounts
  import opened Bcrypt

  // ---------------------------------------------------------------------
  // The one-time code
  // ---------------------------------------------------------------------

  /** `Math.floor(Math.random() * 900000)`: an integer draw in [0, 900000). */
  type OtpDraw = d: int | 0 <= d < 900000

  /** `Math.floor(100000 + Math.random() * 900000).toString()`. */
  function OtpCode(draw: OtpDraw): string {
    NatToDecimal(100000 + draw)
  }

  /** The code is always exactly six decimal digits, denotes a number in
      [100000, 999999], never starts with 0, and so passes the otp check of
      the verify schema. */
  lemma OtpCodeIsSixDigits(draw: OtpDraw)
    ensures |OtpCode(draw)| == 6 && AllDigits(OtpCode(draw)) && OtpCode(draw)[0] != '0'
    ensures 100000 <= DecimalValue(OtpCode(draw)) <= 999999
    ensures RequestSchema.SixDigits(OtpCode(draw))
  {
    assert Pow10(5) == 100000;
    assert Pow10(6) == 1000000;
    DecimalLength(100000 + draw, 5);
    DecimalRoundTrip(100000 + draw);
  }

  /** Different draws give different codes. */
  lemma OtpCodeInjective(d1: OtpDraw, d2: OtpDraw)
    requires d1 != d2
    ensures OtpCode(d1) != OtpCode(d2)
  {
    DecimalRoundTrip(100000 + d1);
    DecimalRoundTrip(100000 + d2);
  }

  // ---------------------------------------------------------------------
  // Errors
  // ---------------------------------------------------------------------

  /** The errors the signup services throw. */
  datatype AuthError =
    | UserAlreadyExists
    | NoOtpRequested
    | OtpExpired
    | OtpExpiredOrNotFound
    | InvalidOtp
    | PasswordMissing
    | InvalidCredentials
    | SaveFailed(cause: SaveError)          // rejected by validation or the unique index
    | CompareFailed(reason: CompareError)   // bcrypt rejected its arguments
    | StoreFailed                           // the key-value store refused the write
    | MailFailed                            // the mail transport failed

  /** The message of each error the services throw themselves; the errors
      raised by a collaborator carry that collaborator's own text. */
  function Message(e: AuthError): (m: Option<string>)
    ensures m.Some? ==> m.value != ""
    ensures m.None? <==> (e.SaveFailed? || e.CompareFailed? || e.StoreFailed? || e.MailFailed?)
  {
    match e
    case UserAlreadyExists => Some("User already exists")
    case NoOtpRequested => Some("No OTP requested for this email")
    case OtpExpired => Some("OTP expired")
    case OtpExpiredOrNotFound => Some("OTP expired or not found")
    case InvalidOtp => Some("Invalid OTP")
    case PasswordMissing => Some("Password missing for this OTP")
    case InvalidCredentials => Some("Invalid credentials")
    case _ => None
  }

  // ---------------------------------------------------------------------
  // Session tokens
  // ---------------------------------------------------------------------

  /** The `expiresIn` both services sign with. */
  const JwtExpiresIn := "7d"

  /** `jwt.sign({ id }, secret, { algorithm, expiresIn })`, as a term: the
      payload and lifetime it was signed with. */
  datatype Token = Signed(id: nat, expiresIn: string)

  function SessionToken(id: nat): Token {
    Signed(id, JwtExpiresIn)
  }

  /** What a successful verification or login returns. */
  datatype Session = Session(token: Token, userId: nat, name: string, email: string)

  function SessionFor(id: nat, name: string, email: string): Session {
    Session(SessionToken(id), id, name, email)
  }

  // ---------------------------------------------------------------------
  // Phases of an email
  // ---------------------------------------------------------------------

  /** Where an email stands: no account and nothing staged, a signup staged
      and waiting for its code, or an account. */
  datatype Phase = NoAccount | Pending | Active
}
