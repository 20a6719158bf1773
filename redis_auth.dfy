/**
 * The signup service of backend/src/modules/auth/auth.service.ts: staged
 * signups live in a key-value store with a time to live, under the key
 * `otp:<email>`; a code is mailed after staging; the account is created
 * through backend/src/modules/user/user.model.ts with the typed password,
 * which the save hook hashes once; login reads the password back.
 */
module RedisAuth {
  import opened Wrappers
  import opened JsStrings
  import opened Bcrypt
  import opened Accounts
  import opened RequestSchema
  import opened Signup

  /** `Number(process.env.OTP_EXPIRES_IN_MIN || 10)` when the variable is unset. */
  const DefaultOtpExpiresInMin: int := 10

  /** What is staged, as `JSON.stringify({ otp, name, password })` records it. */
  datatype Staged = Staged(otp: string, name: string, password: string)

  /** A stored value and the time, in milliseconds, up to which it lives. */
  datatype Entry = Entry(value: Staged, expiresAt: int)

  type Kv = map<string, Entry>

  // ---------------------------------------------------------------------
  // The key-value store
  // ---------------------------------------------------------------------

  /** `GET key`: a key lives until its expiry time has passed. */
  function KvGet(kv: Kv, key: string, now: int): (r: Option<Staged>)
    ensures r.Some? <==> key in kv && now <= kv[key].expiresAt
    ensures r.Some? ==> r.value == kv[key].value
  {
    if key in kv && now <= kv[key].expiresAt then Some(kv[key].value) else None
  }

  /** `SETEX key seconds value`: a time to live that is not positive is
      refused; otherwise any earlier value is replaced. */
  function KvSetEx(kv: Kv, key: string, seconds: int, value: Staged, now: int): (r: Option<Kv>)
    ensures r.Some? <==> seconds > 0
  {
    if seconds <= 0 then None else Some(kv[key := Entry(value, now + seconds * 1000)])
  }

  /** `DEL key`. */
  function KvDel(kv: Kv, key: string): Kv {
    kv - {key}
  }

  /** A value written with a time to live is read back until that many
      seconds have passed, and not after. */
  lemma KvSetExThenGet(kv: Kv, key: string, seconds: int, value: Staged, now: int, later: int)
    requires seconds > 0 && now <= later
    ensures KvGet(KvSetEx(kv, key, seconds, value, now).value, key, later)
        == if later <= now + seconds * 1000 then Some(value) else None
  {
  }

  /** The key the staged signup of an email is stored under. */
  function StagingKey(email: string): string {
    "otp:" + email
  }

  /** Different emails never share a staging key. */
  lemma StagingKeyInjective(a: string, b: string)
    requires StagingKey(a) == StagingKey(b)
    ensures a == b
  {
    assert a == StagingKey(a)[4..];
    assert b == StagingKey(b)[4..];
  }

  /** The mail `sendOtpEmail` is asked to send. */
  datatype Mail = Mail(to: string, otp: string)

  /** Both stores the service works on. */
  datatype Store = Store(kv: Kv, db: Db)

  // ---------------------------------------------------------------------
  // The operations, on values
  // ---------------------------------------------------------------------

  /** `sendOtp`: refuse an email that has an account, otherwise stage the
      code with the name and password for `ttlMinutes` minutes, then ask for
      the mail; `delivered` is how the mail transport answers. */
  function SendOtpSpec(st: Store, ttlMinutes: int, data: RequestOtpInput, draw: OtpDraw, now: int, delivered: bool)
    : (Store, Option<Mail>, Outcome<AuthError>)
  {
    if FindOne(st.db, data.email, false).Some? then
      (st, None, Fail(UserAlreadyExists))
    else
      var otp := OtpCode(draw);
      var written := KvSetEx(st.kv, StagingKey(data.email), ttlMinutes * 60, Staged(otp, data.name, data.password), now);
      if written.None? then
        (st, None, Fail(StoreFailed))
      else
        (Store(written.value, st.db), Some(Mail(data.email, otp)), if delivered then Pass else Fail(MailFailed))
  }

  /** `verifyOtpAndSignup`: read the staged entry, compare the code, create
      the account with the staged name and password, then delete the entry
      and sign a token. */
  function VerifySpec(st: Store, data: VerifyOtpInput, now: int, salt: nat): (Store, Result<Session, AuthError>) {
    var key := StagingKey(data.email);
    match KvGet(st.kv, key, now)
    case None => (st, Err(OtpExpiredOrNotFound))
    case Some(record) =>
      if record.otp != data.otp then
        (st, Err(InvalidOtp))
      else
        var (db', saved) := CreateSpec(st.db, record.name, data.email, Plain(record.password), salt, now);
        if saved.Err? then
          (st, Err(SaveFailed(saved.error)))
        else
          (Store(KvDel(st.kv, key), db'), Ok(SessionFor(saved.value.id, saved.value.name, saved.value.email)))
  }

  /** `login`: find the user with its password, refuse a missing or empty
      password, then compare. */
  function LoginSpec(st: Store, data: LoginInput): Result<Session, AuthError> {
    match FindOne(st.db, data.email, true)
    case None => Err(InvalidCredentials)
    case Some(user) =>
      if user.password.None? || !Truthy(user.password.value) then
        Err(InvalidCredentials)
      else
        match Compare(data.password, user.password)
        case Err(e) => Err(CompareFailed(e))
        case Ok(false) => Err(InvalidCredentials)
        case Ok(true) => Ok(SessionFor(user.id, user.name, user.email))
  }

  // ---------------------------------------------------------------------
  // The service
  // ---------------------------------------------------------------------

  class RedisAuthService {
    var kv: Kv
    var db: Db
    /** `OTP_EXPIRES_IN_MIN`, read once when the module loads. */
    const otpExpiresInMin: int

    function Current(): Store
      reads this
    {
      Store(kv, db)
    }

    constructor (store: Kv, accounts: Db, expiresInMin: int)
      ensures kv == store && db == accounts && otpExpiresInMin == expiresInMin
    {
      kv := store;
      db := accounts;
      otpExpiresInMin := expiresInMin;
    }

    method SendOtp(data: RequestOtpInput, draw: OtpDraw, now: int, delivered: bool)
      returns (mail: Option<Mail>, r: Outcome<AuthError>)
      modifies this
      ensures (Current(), mail, r) == SendOtpSpec(old(Current()), otpExpiresInMin, data, draw, now, delivered)
    {
      var existing := FindOne(db, data.email, false);
      if existing.Some? {
        return None, Fail(UserAlreadyExists);
      }
      var otp := OtpCode(draw);
      var redisKey := StagingKey(data.email);
      var written := KvSetEx(kv, redisKey, otpExpiresInMin * 60, Staged(otp, data.name, data.password), now);
      if written.None? {
        return None, Fail(StoreFailed);
      }
      kv := written.value;
      mail := Some(Mail(data.email, otp));
      r := if delivered then Pass else Fail(MailFailed);
    }

    method VerifyOtpAndSignup(data: VerifyOtpInput, now: int, salt: nat) returns (r: Result<Session, AuthError>)
      modifies this
      ensures (Current(), r) == VerifySpec(old(Current()), data, now, salt)
    {
      var redisKey := StagingKey(data.email);
      var recordStr := KvGet(kv, redisKey, now);
      if recordStr.None? {
        return Err(OtpExpiredOrNotFound);
      }
      var record := recordStr.value;
      if record.otp != data.otp {
        return Err(InvalidOtp);
      }
      var db', saved := Create(db, record.name, data.email, Plain(record.password), salt, now);
      if saved.Err? {
        return Err(SaveFailed(saved.error));
      }
      db := db';
      kv := KvDel(kv, redisKey);
      r := Ok(SessionFor(saved.value.id, saved.value.name, saved.value.email));
    }

    method Login(data: LoginInput) returns (r: Result<Session, AuthError>)
      ensures r == LoginSpec(Current(), data)
    {
      var found := FindOne(db, data.email, true);
      match found
      case None =>
        r := Err(InvalidCredentials);
      case Some(user) =>
        if user.password.None? || !Truthy(user.password.value) {
          return Err(InvalidCredentials);
        }
        var isMatch := Compare(data.password, user.password);
        match isMatch
        case Err(e) =>
          r := Err(CompareFailed(e));
        case Ok(matched) =>
          r := if matched then Ok(SessionFor(user.id, user.name, user.email)) else Err(InvalidCredentials);
    }
  }

  // ---------------------------------------------------------------------
  // Properties
  // ---------------------------------------------------------------------

  /** An email with an account is refused before anything is staged or
      mailed. */
  lemma SendOtpRejectsExistingAccount(st: Store, ttlMinutes: int, data: RequestOtpInput, draw: OtpDraw, now: int, delivered: bool)
    requires EmailSetter(data.email) in st.db.accounts
    ensures SendOtpSpec(st, ttlMinutes, data, draw, now, delivered) == (st, None, Fail(UserAlreadyExists))
  {
  }

  /** Otherwise the entry under `otp:<email>` becomes the new code, name and
      password, living `ttlMinutes` minutes, before the mail is asked for; a
      failed mail leaves the entry staged. Nothing else changes. */
  lemma SendOtpStagesEntry(st: Store, ttlMinutes: int, data: RequestOtpInput, draw: OtpDraw, now: int, delivered: bool)
    requires EmailSetter(data.email) !in st.db.accounts && ttlMinutes > 0
    ensures var (st', mail, r) := SendOtpSpec(st, ttlMinutes, data, draw, now, delivered);
      && st'.kv == st.kv[StagingKey(data.email) := Entry(Staged(OtpCode(draw), data.name, data.password), now + ttlMinutes * 60000)]
      && st'.db == st.db
      && mail == Some(Mail(data.email, OtpCode(draw)))
      && (r == Pass <==> delivered)
      && (r.Fail? ==> r.error == MailFailed)
  {
  }

  /** With the default setting a staged signup lives ten minutes. */
  lemma DefaultLifetimeIsTenMinutes(st: Store, data: RequestOtpInput, draw: OtpDraw, now: int, delivered: bool)
    requires EmailSetter(data.email) !in st.db.accounts
    ensures var st' := SendOtpSpec(st, DefaultOtpExpiresInMin, data, draw, now, delivered).0;
      st'.kv[StagingKey(data.email)].expiresAt == now + 600000
  {
  }

  /** A non-positive setting makes the store refuse the write: nothing is
      staged and nothing is mailed. */
  lemma SendOtpWithoutLifetime(st: Store, ttlMinutes: int, data: RequestOtpInput, draw: OtpDraw, now: int, delivered: bool)
    requires EmailSetter(data.email) !in st.db.accounts && ttlMinutes <= 0
    ensures SendOtpSpec(st, ttlMinutes, data, draw, now, delivered) == (st, None, Fail(StoreFailed))
  {
  }

  /** Without a live entry verification fails and changes nothing. */
  lemma VerifyWithoutLiveEntry(st: Store, data: VerifyOtpInput, now: int, salt: nat)
    requires KvGet(st.kv, StagingKey(data.email), now).None?
    ensures VerifySpec(st, data, now, salt) == (st, Err(OtpExpiredOrNotFound))
  {
  }

  /** A wrong code fails and leaves the entry and the accounts in place. */
  lemma VerifyWrongCode(st: Store, data: VerifyOtpInput, now: int, salt: nat)
    requires KvGet(st.kv, StagingKey(data.email), now).Some?
    requires KvGet(st.kv, StagingKey(data.email), now).value.otp != data.otp
    ensures VerifySpec(st, data, now, salt) == (st, Err(InvalidOtp))
  {
  }

  /** A successful verification creates one account from the staged name and
      password and the given email, the password hashed once, then deletes
      the entry and nothing else. */
  lemma VerifySucceeds(st: Store, data: VerifyOtpInput, now: int, salt: nat)
    requires VerifySpec(st, data, now, salt).1.Ok?
    ensures var (st', r) := VerifySpec(st, data, now, salt);
      var record := st.kv[StagingKey(data.email)].value;
      var key := EmailSetter(data.email);
      && StagingKey(data.email) in st.kv && record.otp == data.otp
      && key !in st.db.accounts
      && st'.db.accounts == st.db.accounts[key := st'.db.accounts[key]]
      && st'.db.accounts[key].name == Trim(record.name)
      && st'.db.accounts[key].password == Hash(Plain(record.password), salt)
      && st'.kv == st.kv - {StagingKey(data.email)}
      && r.value == SessionFor(st'.db.accounts[key].id, st'.db.accounts[key].name, key)
  {
    var record := st.kv[StagingKey(data.email)].value;
    CreateStoresNormalisedAccount(st.db, record.name, data.email, Plain(record.password), salt, now);
  }

  /** A code works once: verifying again after a success fails. */
  lemma ReplayAfterSuccessFails(st: Store, data: VerifyOtpInput, now: int, salt: nat, again: VerifyOtpInput, later: int, salt2: nat)
    requires VerifySpec(st, data, now, salt).1.Ok?
    requires again.email == data.email
    ensures var st' := VerifySpec(st, data, now, salt).0;
      VerifySpec(st', again, later, salt2) == (st', Err(OtpExpiredOrNotFound))
  {
  }

  /** Once its lifetime has passed a staged code no longer works. */
  lemma CodeExpires(st: Store, ttlMinutes: int, data: RequestOtpInput, draw: OtpDraw, now: int, delivered: bool, later: int, salt: nat)
    requires EmailSetter(data.email) !in st.db.accounts && ttlMinutes > 0
    requires later > now + ttlMinutes * 60000
    ensures var st' := SendOtpSpec(st, ttlMinutes, data, draw, now, delivered).0;
      VerifySpec(st', VerifyOtpInput(data.email, OtpCode(draw)), later, salt) == (st', Err(OtpExpiredOrNotFound))
  {
  }

  /** Asking for a second code replaces the first: the earlier code is then
      refused. */
  lemma OnlyLatestCodeWorks(st: Store, ttlMinutes: int, data: RequestOtpInput, d1: OtpDraw, d2: OtpDraw,
                            t1: int, t2: int, m1: bool, m2: bool, now: int, salt: nat)
    requires EmailSetter(data.email) !in st.db.accounts && ttlMinutes > 0
    requires d1 != d2 && t1 <= t2 <= now <= t2 + ttlMinutes * 60000
    ensures var st1 := SendOtpSpec(st, ttlMinutes, data, d1, t1, m1).0;
      var st2 := SendOtpSpec(st1, ttlMinutes, data, d2, t2, m2).0;
      VerifySpec(st2, VerifyOtpInput(data.email, OtpCode(d1)), now, salt) == (st2, Err(InvalidOtp))
  {
    OtpCodeInjective(d1, d2);
  }

  /** Login fails with the same error whether the email is unknown, the
      stored password is empty or the password does not match, and succeeds
      exactly when the password matches the stored hash. */
  lemma LoginOutcomes(st: Store, data: LoginInput)
    ensures var key := EmailSetter(data.email);
      && (LoginSpec(st, data).Ok?
          <==> key in st.db.accounts && Compare(data.password, Some(st.db.accounts[key].password)) == Ok(true))
      && (LoginSpec(st, data).Err? ==> LoginSpec(st, data).error == InvalidCredentials)
      && (LoginSpec(st, data).Ok? ==>
            LoginSpec(st, data).value == SessionFor(st.db.accounts[key].id, st.db.accounts[key].name, st.db.accounts[key].email))
  {
  }

  /** Signing up and then logging in: a code sent for an email without an
      account, entered before it expires, creates the account, and a login
      with the same password and an email that differs at most in case and
      surrounding spaces returns the same user. */
  lemma SignupThenLogin(st: Store, ttlMinutes: int, data: RequestOtpInput, draw: OtpDraw, t0: int, delivered: bool,
                        t1: int, salt: nat, login: LoginInput)
    requires ttlMinutes > 0 && t0 <= t1 <= t0 + ttlMinutes * 60000
    requires EmailSetter(data.email) !in st.db.accounts
    requires NameMinLength <= JsLength(NameSetter(data.name)) <= NameMaxLength
    requires MatchesEmailPattern(EmailSetter(data.email))
    requires JsLength(data.password) >= PasswordMinLength
    requires EmailSetter(login.email) == EmailSetter(data.email) && login.password == data.password
    ensures var st1 := SendOtpSpec(st, ttlMinutes, data, draw, t0, delivered).0;
      var (st2, r) := VerifySpec(st1, VerifyOtpInput(data.email, OtpCode(draw)), t1, salt);
      && r.Ok?
      && LoginSpec(st2, login) == Ok(r.value)
  {
    ValidIff(NameSetter(data.name), EmailSetter(data.email), Plain(data.password));
    var st1 := SendOtpSpec(st, ttlMinutes, data, draw, t0, delivered).0;
    assert StagingKey(data.email) in st1.kv;
    var (st2, r) := VerifySpec(st1, VerifyOtpInput(data.email, OtpCode(draw)), t1, salt);
    assert r.Ok?;
    VerifySucceeds(st1, VerifyOtpInput(data.email, OtpCode(draw)), t1, salt);
    CompareAcceptsOwnHash(data.password, salt);
  }

  // ---------------------------------------------------------------------
  // The phases of an email
  // ---------------------------------------------------------------------

  function PhaseAt(st: Store, email: string, now: int): Phase {
    if EmailSetter(email) in st.db.accounts then Active
    else if KvGet(st.kv, StagingKey(email), now).Some? then Pending
    else NoAccount
  }

  /** Sending a code moves an email without an account to Pending, and an
      account stays Active. */
  lemma SendOtpPhase(st: Store, ttlMinutes: int, data: RequestOtpInput, draw: OtpDraw, now: int, delivered: bool)
    requires ttlMinutes > 0
    ensures PhaseAt(SendOtpSpec(st, ttlMinutes, data, draw, now, delivered).0, data.email, now)
        == if PhaseAt(st, data.email, now) == Active then Active else Pending
  {
  }

  /** A successful verification moves the email from Pending to Active; a
      failed one never creates an account. */
  lemma VerifyPhase(st: Store, data: VerifyOtpInput, now: int, salt: nat)
    ensures var (st', r) := VerifySpec(st, data, now, salt);
      && (r.Ok? ==> PhaseAt(st, data.email, now) == Pending && PhaseAt(st', data.email, now) == Active)
      && (r.Err? ==> st' == st)
  {
    if VerifySpec(st, data, now, salt).1.Ok? {
      VerifySucceeds(st, data, now, salt);
    }
  }

  /** Every operation keeps the account collection's invariant. */
  lemma OperationsKeepValidDb(st: Store, ttlMinutes: int, send: RequestOtpInput, draw: OtpDraw, delivered: bool,
                              verify: VerifyOtpInput, now: int, salt: nat)
    requires ValidDb(st.db)
    ensures ValidDb(SendOtpSpec(st, ttlMinutes, send, draw, now, delivered).0.db)
    ensures ValidDb(VerifySpec(st, verify, now, salt).0.db)
  {
    var key := StagingKey(verify.email);
    if key in st.kv {
      var record := st.kv[key].value;
      CreateKeepsValid(st.db, record.name, verify.email, Plain(record.password), salt, now);
    }
  }
}
