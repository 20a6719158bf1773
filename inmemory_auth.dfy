/**
 * The signup service of backend/src/modules/auth/service.ts: staged signups
 * live in a process-local map with an explicit expiry time, a timer removes
 * an entry once it has expired, and the account is saved through the user
 * model that sits beside it (backend/src/modules/auth/model.ts).
 *
 * That model hashes a modified password before saving it and hides the
 * password from default reads. The service hashes the password itself before
 * handing it to the model, and its login reads the user without asking for
 * the password; both are modelled as written.
 */
module InMemoryAuth {
  import opened Wrappers
  import opened JsStrings
  import opened Bcrypt
  import opened Accounts
  import opened RequestSchema
  import opened Signup

  /** `OTP_EXPIRES_IN_MIN * 60 * 1000`: five minutes, in milliseconds. */
  const OtpLifetime: int := 5 * 60 * 1000

  /** A staged signup: the code, the name and password typed at signup, and
      the time (in milliseconds) after which it no longer counts. */
  datatype OtpRecord = OtpRecord(otp: string, name: string, password: string, expiresAt: int)

  /** The cleanup `setTimeout` schedules: for which email, and when it is due. */
  datatype Timer = Timer(email: string, dueAt: int)

  /** Both stores the service works on: the staging map and the accounts. */
  datatype Store = Store(otps: map<string, OtpRecord>, db: Db)

  // ---------------------------------------------------------------------
  // The operations, on values
  // ---------------------------------------------------------------------

  /** `sendOtp`: refuse an email that has an account, otherwise stage the code
      with the name and password, overwriting any earlier entry, and schedule
      the cleanup for when the entry expires. */
  function SendOtpSpec(st: Store, data: RequestOtpInput, draw: OtpDraw, now: int): (Store, Result<Timer, AuthError>) {
    if FindOne(st.db, data.email, false).Some? then
      (st, Err(UserAlreadyExists))
    else
      var record := OtpRecord(OtpCode(draw), data.name, data.password, now + OtpLifetime);
      (Store(st.otps[data.email := record], st.db), Ok(Timer(data.email, now + OtpLifetime)))
  }

  /** The timer's callback: delete the entry only if it has expired by now. */
  function CleanupSpec(st: Store, email: string, now: int): Store {
    if email in st.otps && st.otps[email].expiresAt < now then Store(st.otps - {email}, st.db) else st
  }

  /** `verifyOtpAndSignup`: look the entry up, drop it if it has expired,
      compare the code, hash the password, save the account, then drop the
      entry and sign a token. */
  function VerifySpec(st: Store, data: VerifyOtpInput, now: int, salt1: nat, salt2: nat): (Store, Result<Session, AuthError>) {
    if data.email !in st.otps then
      (st, Err(NoOtpRequested))
    else
      var record := st.otps[data.email];
      if record.expiresAt < now then
        (Store(st.otps - {data.email}, st.db), Err(OtpExpired))
      else if record.otp != data.otp then
        (st, Err(InvalidOtp))
      else if record.password == "" then
        (st, Err(PasswordMissing))
      else
        var (db', saved) := CreateSpec(st.db, record.name, data.email, Hash(Plain(record.password), salt1), salt2, now);
        if saved.Err? then
          (st, Err(SaveFailed(saved.error)))
        else
          (Store(st.otps - {data.email}, db'), Ok(SessionFor(saved.value.id, saved.value.name, saved.value.email)))
  }

  /** `login`: find the user by email, without the password, and compare. */
  function LoginSpec(st: Store, data: LoginInput): Result<Session, AuthError> {
    match FindOne(st.db, data.email, false)
    case None => Err(InvalidCredentials)
    case Some(user) =>
      match Compare(data.password, user.password)
      case Err(e) => Err(CompareFailed(e))
      case Ok(false) => Err(InvalidCredentials)
      case Ok(true) => Ok(SessionFor(user.id, user.name, user.email))
  }

  // ---------------------------------------------------------------------
  // The service
  // ---------------------------------------------------------------------

  class InMemoryAuthService {
    var otpStore: map<string, OtpRecord>
    var db: Db

    function Current(): Store
      reads this
    {
      Store(otpStore, db)
    }

    /** The module starts with an empty staging map, over whatever accounts
        the database holds. */
    constructor (accounts: Db)
      ensures otpStore == map[] && db == accounts
    {
      otpStore := map[];
      db := accounts;
    }

    method SendOtp(data: RequestOtpInput, draw: OtpDraw, now: int) returns (r: Result<Timer, AuthError>)
      modifies this
      ensures (Current(), r) == SendOtpSpec(old(Current()), data, draw, now)
    {
      var existing := FindOne(db, data.email, false);
      if existing.Some? {
        return Err(UserAlreadyExists);
      }
      var otp := OtpCode(draw);
      otpStore := otpStore[data.email := OtpRecord(otp, data.name, data.password, now + OtpLifetime)];
      r := Ok(Timer(data.email, now + OtpLifetime));
    }

    /** The scheduled callback, running at time `now`. */
    method FireCleanup(timer: Timer, now: int)
      modifies this`otpStore
      ensures Current() == CleanupSpec(old(Current()), timer.email, now)
    {
      if timer.email in otpStore && otpStore[timer.email].expiresAt < now {
        otpStore := otpStore - {timer.email};
      }
    }

    method VerifyOtpAndSignup(data: VerifyOtpInput, now: int, salt1: nat, salt2: nat) returns (r: Result<Session, AuthError>)
      modifies this
      ensures (Current(), r) == VerifySpec(old(Current()), data, now, salt1, salt2)
    {
      if data.email !in otpStore {
        return Err(NoOtpRequested);
      }
      var record := otpStore[data.email];
      if record.expiresAt < now {
        otpStore := otpStore - {data.email};
        return Err(OtpExpired);
      }
      if record.otp != data.otp {
        return Err(InvalidOtp);
      }
      if record.password == "" {
        return Err(PasswordMissing);
      }
      var hashed := Hash(Plain(record.password), salt1);
      var db', saved := Create(db, record.name, data.email, hashed, salt2, now);
      if saved.Err? {
        return Err(SaveFailed(saved.error));
      }
      db := db';
      otpStore := otpStore - {data.email};
      r := Ok(SessionFor(saved.value.id, saved.value.name, saved.value.email));
    }

    method Login(data: LoginInput) returns (r: Result<Session, AuthError>)
      ensures r == LoginSpec(Current(), data)
    {
      var found := FindOne(db, data.email, false);
      match found
      case None =>
        r := Err(InvalidCredentials);
      case Some(user) =>
        var isMatch := Compare(data.password, user.password);
        match isMatch
        case Err(e) =>
          r := Err(CompareFailed(e));
        case Ok(matched) =>
          r := if matched then Ok(SessionFor(user.id, user.name, user.email)) else Err(InvalidCredentials);
    }
  }

  // ---------------------------------------------------------------------
  // Properties
  // ---------------------------------------------------------------------

  /** An email with an account is refused before anything is staged. */
  lemma SendOtpRejectsExistingAccount(st: Store, data: RequestOtpInput, draw: OtpDraw, now: int)
    requires EmailSetter(data.email) in st.db.accounts
    ensures SendOtpSpec(st, data, draw, now) == (st, Err(UserAlreadyExists))
  {
  }

  /** Otherwise the entry for the email is replaced by the new code, name and
      password expiring five minutes from now, every other entry and every
      account stay as they were, and the cleanup is due at the expiry. */
  lemma SendOtpStagesEntry(st: Store, data: RequestOtpInput, draw: OtpDraw, now: int)
    requires EmailSetter(data.email) !in st.db.accounts
    ensures var (st', r) := SendOtpSpec(st, data, draw, now);
      && r == Ok(Timer(data.email, now + 300000))
      && data.email in st'.otps
      && st'.otps[data.email] == OtpRecord(OtpCode(draw), data.name, data.password, now + 300000)
      && SixDigits(st'.otps[data.email].otp)
      && (forall e :: e != data.email ==> (e in st'.otps <==> e in st.otps))
      && (forall e :: e != data.email && e in st.otps ==> st'.otps[e] == st.otps[e])
      && st'.db == st.db
  {
    OtpCodeIsSixDigits(draw);
  }

  /** The cleanup removes an entry only when it has expired at the moment the
      timer fires, and touches nothing else. */
  lemma CleanupDeletesOnlyExpired(st: Store, email: string, now: int)
    ensures var st' := CleanupSpec(st, email, now);
      && st'.db == st.db
      && (email in st'.otps <==> email in st.otps && st.otps[email].expiresAt >= now)
      && (forall e :: e in st'.otps ==> e in st.otps && st'.otps[e] == st.otps[e])
      && (forall e :: e != email && e in st.otps ==> e in st'.otps)
  {
  }

  /** The comparison is strict, so a timer firing exactly when it is due
      leaves its own entry in place. */
  lemma TimerOnTimeSparesOwnEntry(st: Store, data: RequestOtpInput, draw: OtpDraw, now: int)
    requires EmailSetter(data.email) !in st.db.accounts
    ensures var (st', r) := SendOtpSpec(st, data, draw, now);
      CleanupSpec(st', r.value.email, r.value.dueAt) == st'
  {
  }

  /** An entry staged again after an earlier one survives the earlier
      entry's timer. */
  lemma RestagedEntrySurvivesOlderTimer(st: Store, data: RequestOtpInput, d1: OtpDraw, d2: OtpDraw, t1: int, t2: int, fired: int)
    requires EmailSetter(data.email) !in st.db.accounts
    requires t1 <= t2 && fired <= t2 + OtpLifetime
    ensures var (st1, r1) := SendOtpSpec(st, data, d1, t1);
      var (st2, _) := SendOtpSpec(st1, data, d2, t2);
      && r1 == Ok(Timer(data.email, t1 + OtpLifetime))
      && CleanupSpec(st2, r1.value.email, fired) == st2
      && st2.otps[data.email].otp == OtpCode(d2)
  {
  }

  /** Without a staged entry verification fails and changes nothing. */
  lemma VerifyWithoutEntry(st: Store, data: VerifyOtpInput, now: int, salt1: nat, salt2: nat)
    requires data.email !in st.otps
    ensures VerifySpec(st, data, now, salt1, salt2) == (st, Err(NoOtpRequested))
  {
  }

  /** An expired entry is deleted and the verification fails; the accounts
      stay as they were. */
  lemma VerifyExpiredEntry(st: Store, data: VerifyOtpInput, now: int, salt1: nat, salt2: nat)
    requires data.email in st.otps && st.otps[data.email].expiresAt < now
    ensures VerifySpec(st, data, now, salt1, salt2) == (Store(st.otps - {data.email}, st.db), Err(OtpExpired))
  {
  }

  /** At exactly its expiry time the entry still counts: verification goes on
      past the expiry check. */
  lemma VerifyAtExpiryIsNotExpired(st: Store, data: VerifyOtpInput, salt1: nat, salt2: nat)
    requires data.email in st.otps
    ensures VerifySpec(st, data, st.otps[data.email].expiresAt, salt1, salt2).1 != Err(OtpExpired)
  {
  }

  /** A wrong code fails and leaves the entry and the accounts in place. */
  lemma VerifyWrongCode(st: Store, data: VerifyOtpInput, now: int, salt1: nat, salt2: nat)
    requires data.email in st.otps && now <= st.otps[data.email].expiresAt
    requires st.otps[data.email].otp != data.otp
    ensures VerifySpec(st, data, now, salt1, salt2) == (st, Err(InvalidOtp))
  {
  }

  /** A successful verification saves one account from the staged name and
      password under the given email, with the password hashed by the service
      and then again by the save hook, drops the entry and nothing else, and
      signs a token for the new account. */
  lemma VerifySucceeds(st: Store, data: VerifyOtpInput, now: int, salt1: nat, salt2: nat)
    requires VerifySpec(st, data, now, salt1, salt2).1.Ok?
    ensures var (st', r) := VerifySpec(st, data, now, salt1, salt2);
      var record := st.otps[data.email];
      var key := EmailSetter(data.email);
      && data.email in st.otps && record.otp == data.otp && now <= record.expiresAt
      && key !in st.db.accounts
      && st'.db.accounts == st.db.accounts[key := st'.db.accounts[key]]
      && st'.db.accounts[key].name == Trim(record.name)
      && st'.db.accounts[key].password == Hash(Hash(Plain(record.password), salt1), salt2)
      && st'.otps == st.otps - {data.email}
      && r.value.token == SessionToken(st'.db.accounts[key].id)
  {
    var record := st.otps[data.email];
    CreateStoresNormalisedAccount(st.db, record.name, data.email, Hash(Plain(record.password), salt1), salt2, now);
  }

  /** A code works once: verifying again after a success fails, whatever the
      code and the time. */
  lemma ReplayAfterSuccessFails(st: Store, data: VerifyOtpInput, now: int, salt1: nat, salt2: nat,
                                again: VerifyOtpInput, later: int, salt3: nat, salt4: nat)
    requires VerifySpec(st, data, now, salt1, salt2).1.Ok?
    requires again.email == data.email
    ensures var st' := VerifySpec(st, data, now, salt1, salt2).0;
      VerifySpec(st', again, later, salt3, salt4) == (st', Err(NoOtpRequested))
  {
  }

  /** The password the service saves is a hash of a hash, so the password
      typed at signup never matches it, even where it is read back. */
  lemma SignupStoresDoubleHash(st: Store, data: VerifyOtpInput, now: int, salt1: nat, salt2: nat)
    requires VerifySpec(st, data, now, salt1, salt2).1.Ok?
    ensures var st' := VerifySpec(st, data, now, salt1, salt2).0;
      var key := EmailSetter(data.email);
      && key in st'.db.accounts
      && Compare(st.otps[data.email].password, Some(st'.db.accounts[key].password)) == Ok(false)
  {
    VerifySucceeds(st, data, now, salt1, salt2);
  }

  /** Login never succeeds: an unknown email gives "Invalid credentials", and
      a known one makes bcrypt reject the missing password. */
  lemma LoginNeverSucceeds(st: Store, data: LoginInput)
    ensures LoginSpec(st, data).Err?
    ensures LoginSpec(st, data).error
        == if EmailSetter(data.email) in st.db.accounts then CompareFailed(IllegalArguments) else InvalidCredentials
  {
  }

  // ---------------------------------------------------------------------
  // The phases of an email
  // ---------------------------------------------------------------------

  function PhaseOf(st: Store, email: string): Phase {
    if EmailSetter(email) in st.db.accounts then Active
    else if email in st.otps then Pending
    else NoAccount
  }

  /** Sending a code moves an email without an account to Pending and leaves
      an account Active. */
  lemma SendOtpPhase(st: Store, data: RequestOtpInput, draw: OtpDraw, now: int)
    ensures PhaseOf(SendOtpSpec(st, data, draw, now).0, data.email)
        == if PhaseOf(st, data.email) == Active then Active else Pending
  {
  }

  /** A successful verification moves the email from Pending to Active; a
      failed one never creates an account. */
  lemma VerifyPhase(st: Store, data: VerifyOtpInput, now: int, salt1: nat, salt2: nat)
    ensures var (st', r) := VerifySpec(st, data, now, salt1, salt2);
      && (r.Ok? ==> PhaseOf(st, data.email) == Pending && PhaseOf(st', data.email) == Active)
      && (r.Err? ==> st'.db == st.db)
  {
    if VerifySpec(st, data, now, salt1, salt2).1.Ok? {
      VerifySucceeds(st, data, now, salt1, salt2);
    }
  }

  /** Every operation keeps the account collection's invariant. */
  lemma OperationsKeepValidDb(st: Store, send: RequestOtpInput, draw: OtpDraw, verify: VerifyOtpInput,
                              email: string, now: int, salt1: nat, salt2: nat)
    requires ValidDb(st.db)
    ensures ValidDb(SendOtpSpec(st, send, draw, now).0.db)
    ensures ValidDb(CleanupSpec(st, email, now).db)
    ensures ValidDb(VerifySpec(st, verify, now, salt1, salt2).0.db)
  {
    if verify.email in st.otps {
      var record := st.otps[verify.email];
      CreateKeepsValid(st.db, record.name, verify.email, Hash(Plain(record.password), salt1), salt2, now);
    }
  }
}
