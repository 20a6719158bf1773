/**
 * The account store: the rules of the Mongoose user schema shared by
 * backend/src/modules/user/user.model.ts and its near-duplicate
 * backend/src/modules/auth/model.ts. Field setters normalise, validators
 * reject, a pre-save hook hashes a modified password, a unique index keeps
 * emails distinct, `password` is left out of default reads, and `toJSON`
 * strips it.
 */
module Accounts {
  import opened Wrappers
  import opened JsStrings
  import opened Bcrypt

  // ---------------------------------------------------------------------
  // Field rules
  // ---------------------------------------------------------------------

  /** The `trim: true` setter of `name`. */
  function NameSetter(raw: string): string {
    Trim(raw)
  }

  /** The `lowercase: true, trim: true` setters of `email`. Mongoose applies
      them on assignment and also to the email of a query filter. */
  function EmailSetter(raw: string): string {
    Trim(ToLower(raw))
  }

  /** `/^\S+@\S+\.\S+$/`: no whitespace anywhere, an `@` with something
      before it, and after it a `.` with something on each side. */
  predicate MatchesEmailPattern(s: string) {
    && NoWhitespace(s)
    && exists i, j | 0 < i < |s| && 0 < j < |s| :: i + 1 < j < |s| - 1 && s[i] == '@' && s[j] == '.'
  }

  /** The pattern accepts every string made of three non-empty runs of
      non-whitespace joined by `@` and `.`. */
  lemma EmailPatternShape(a: string, b: string, c: string)
    requires a != [] && b != [] && c != []
    requires NoWhitespace(a) && NoWhitespace(b) && NoWhitespace(c)
    ensures MatchesEmailPattern(a + "@" + b + "." + c)
  {
    var s := a + "@" + b + "." + c;
    var i, j := |a|, |a| + 1 + |b|;
    assert s[i] == '@' && s[j] == '.';
    forall k | 0 <= k < |s| ensures !IsWhitespace(s[k]) {
      if k < i { assert s[k] == a[k]; }
      else if i < k < j { assert s[k] == b[k - i - 1]; }
      else if j < k { assert s[k] == c[k - j - 1]; }
    }
  }

  /** A validator that failed, as `ValidationError.errors[path]` reports it. */
  datatype Violation =
    | Required(message: string)
    | TooShort(minLength: nat)
    | TooLong(maxLength: nat)
    | Mismatch(message: string)

  const NameMinLength: nat := 2
  const NameMaxLength: nat := 100
  const PasswordMinLength: nat := 6

  /** The first failing validator of `name`: required, then minlength, then maxlength. */
  function NameViolation(name: string): Option<Violation> {
    if name == "" then Some(Required("Name is required"))
    else if JsLength(name) < NameMinLength then Some(TooShort(NameMinLength))
    else if JsLength(name) > NameMaxLength then Some(TooLong(NameMaxLength))
    else None
  }

  /** The first failing validator of `email`: required, then match. */
  function EmailViolation(email: string): Option<Violation> {
    if email == "" then Some(Required("Email is required"))
    else if !MatchesEmailPattern(email) then Some(Mismatch("Invalid email format"))
    else None
  }

  /** The first failing validator of `password`: required, then minlength. */
  function PasswordViolation(password: Secret): Option<Violation> {
    if !Truthy(password) then Some(Required("Password is required"))
    else if Length(password) < PasswordMinLength then Some(TooShort(PasswordMinLength))
    else None
  }

  function AddViolation(m: map<string, Violation>, path: string, v: Option<Violation>): map<string, Violation> {
    if v.Some? then m[path := v.value] else m
  }

  /** The paths that fail validation, one violation per path. */
  function Violations(name: string, email: string, password: Secret): (m: map<string, Violation>)
    ensures m.Keys <= {"name", "email", "password"}
    ensures "name" in m <==> NameViolation(name).Some?
    ensures "email" in m <==> EmailViolation(email).Some?
    ensures "password" in m <==> PasswordViolation(password).Some?
  {
    AddViolation(AddViolation(AddViolation(map[], "name", NameViolation(name)),
      "email", EmailViolation(email)), "password", PasswordViolation(password))
  }

  /** A document passes validation exactly when name has 2 to 100 characters,
      email matches the pattern and the password has at least 6. */
  lemma ValidIff(name: string, email: string, password: Secret)
    ensures Violations(name, email, password) == map[]
        <==> (NameMinLength <= JsLength(name) <= NameMaxLength
              && MatchesEmailPattern(email)
              && Length(password) >= PasswordMinLength)
  {
    var m := Violations(name, email, password);
    if m == map[] {
      assert "name" !in m && "email" !in m && "password" !in m;
      assert email != "";
    } else {
      assert "name" in m || "email" in m || "password" in m;
    }
  }

  // ---------------------------------------------------------------------
  // Stored accounts
  // ---------------------------------------------------------------------

  /** A saved user; `_id` is assigned by the store and both timestamps are
      set on creation (`timestamps: true`; `versionKey: false` means no `__v`). */
  datatype Account = Account(id: nat, name: string, email: string, password: Secret, createdAt: int, updatedAt: int)

  /** The user collection: accounts by email (the unique index) and the next
      id to hand out. */
  datatype Db = Db(accounts: map<string, Account>, nextId: nat)

  /** What a stored account looks like: normalised, validated fields and a
      hashed password. */
  predicate WellFormed(a: Account) {
    && a.name == Trim(a.name) && NameViolation(a.name).None?
    && a.email == EmailSetter(a.email) && EmailViolation(a.email).None?
    && a.password.Hashed?
  }

  /** The collection's invariant: every account is filed under its own email,
      ids are below `nextId` and pairwise distinct. */
  predicate ValidDb(db: Db) {
    && (forall e :: e in db.accounts ==> db.accounts[e].email == e && db.accounts[e].id < db.nextId && WellFormed(db.accounts[e]))
    && (forall e1, e2 :: e1 in db.accounts && e2 in db.accounts && e1 != e2 ==> db.accounts[e1].id != db.accounts[e2].id)
  }

  const EmptyDb := Db(map[], 0)

  datatype SaveError =
    | ValidationFailed(violations: map<string, Violation>)
    | DuplicateKey(email: string)

  /** `UserModel.create(...)` / `new UserModel(...).save()`: setters, then
      validation, then the pre-save hook (a new document's password counts as
      modified), then the insert that the unique index may refuse. */
  function CreateSpec(db: Db, rawName: string, rawEmail: string, password: Secret, salt: nat, now: int): (Db, Result<Account, SaveError>)
  {
    var name := NameSetter(rawName);
    var email := EmailSetter(rawEmail);
    var violations := Violations(name, email, password);
    if violations != map[] then
      (db, Err(ValidationFailed(violations)))
    else if email in db.accounts then
      (db, Err(DuplicateKey(email)))
    else
      var account := Account(db.nextId, name, email, Hash(password, salt), now, now);
      (Db(db.accounts[email := account], db.nextId + 1), Ok(account))
  }

  /** A new document as `new UserModel({name, email, password})` builds it: the
      setters have run and every field counts as modified. */
  class UserDocument {
    var name: string
    var email: string
    var password: Secret
    var passwordModified: bool

    constructor (rawName: string, rawEmail: string, rawPassword: Secret)
      ensures name == NameSetter(rawName) && email == EmailSetter(rawEmail)
      ensures password == rawPassword && passwordModified
    {
      name := NameSetter(rawName);
      email := EmailSetter(rawEmail);
      password := rawPassword;
      passwordModified := true;
    }

    /** `doc.password = p`, which marks the path as modified. */
    method AssignPassword(p: Secret)
      modifies this
      ensures name == old(name) && email == old(email)
      ensures password == p && passwordModified
    {
      password := p;
      passwordModified := true;
    }

    /** After a save Mongoose no longer reports any path as modified. */
    method MarkSaved()
      modifies this`passwordModified
      ensures !passwordModified
    {
      passwordModified := false;
    }

    /** The pre-save hook: hash the password in place, but only when it was
      modified; otherwise leave it as it is. */
    method HashPasswordIfModified(salt: nat)
      modifies this`password
      ensures password == if passwordModified then Hash(old(password), salt) else old(password)
    {
      if !passwordModified {
        return;
      }
      password := Hash(password, salt);
    }
  }

  /** `UserModel.create(...)`, step by step on a document. */
  method Create(db: Db, rawName: string, rawEmail: string, password: Secret, salt: nat, now: int)
    returns (db': Db, r: Result<Account, SaveError>)
    ensures (db', r) == CreateSpec(db, rawName, rawEmail, password, salt, now)
  {
    var doc := new UserDocument(rawName, rawEmail, password);
    var violations := Violations(doc.name, doc.email, doc.password);
    if violations != map[] {
      return db, Err(ValidationFailed(violations));
    }
    doc.HashPasswordIfModified(salt);
    if doc.email in db.accounts {
      return db, Err(DuplicateKey(doc.email));
    }
    var account := Account(db.nextId, doc.name, doc.email, doc.password, now, now);
    doc.MarkSaved();
    db' := Db(db.accounts[doc.email := account], db.nextId + 1);
    r := Ok(account);
  }

  /** Assigning an already hashed password marks it modified, so the hook
      hashes it a second time and the typed password no longer matches. */
  method AssignedHashIsHashedAgain(p: string, salt1: nat, salt2: nat) returns (stored: Secret)
    ensures stored == Hash(Hash(Plain(p), salt1), salt2)
    ensures Compare(p, Some(stored)) == Ok(false)
  {
    var doc := new UserDocument("", "", Plain(p));
    doc.MarkSaved();
    doc.AssignPassword(Hash(Plain(p), salt1));
    doc.HashPasswordIfModified(salt2);
    stored := doc.password;
  }

  /** A saved document whose password was not touched keeps its hash through
      another save. */
  method UnmodifiedPasswordIsKept(p: string, salt1: nat, salt2: nat) returns (stored: Secret)
    ensures stored == Hash(Plain(p), salt1)
    ensures Compare(p, Some(stored)) == Ok(true)
  {
    var doc := new UserDocument("", "", Plain(p));
    doc.HashPasswordIfModified(salt1);
    doc.MarkSaved();
    doc.HashPasswordIfModified(salt2);
    stored := doc.password;
  }

  /** A successful creation stores the normalised, validated fields, hashes
      the password once and files the account under its email. */
  lemma CreateStoresNormalisedAccount(db: Db, rawName: string, rawEmail: string, password: Secret, salt: nat, now: int)
    requires CreateSpec(db, rawName, rawEmail, password, salt, now).1.Ok?
    ensures var (db', r) := CreateSpec(db, rawName, rawEmail, password, salt, now);
      && r.value.name == Trim(rawName) && IsTrimmed(r.value.name)
      && NameMinLength <= JsLength(r.value.name) <= NameMaxLength
      && r.value.email == Trim(ToLower(rawEmail)) && IsTrimmed(r.value.email) && IsLowerCase(r.value.email)
      && MatchesEmailPattern(r.value.email)
      && Length(password) >= PasswordMinLength
      && r.value.password == Hash(password, salt)
      && r.value.email !in db.accounts
      && db'.accounts == db.accounts[r.value.email := r.value]
  {
    var v := Violations(NameSetter(rawName), EmailSetter(rawEmail), password);
    ValidIff(NameSetter(rawName), EmailSetter(rawEmail), password);
    ToLowerTrimCommute(rawEmail);
    ToLowerIdempotent(Trim(rawEmail));
  }

  /** The unique index: a second account whose email normalises to one that
      is already present is refused and the collection is unchanged. */
  lemma CreateRejectsDuplicateEmail(db: Db, rawName: string, rawEmail: string, password: Secret, salt: nat, now: int)
    requires EmailSetter(rawEmail) in db.accounts
    ensures var (db', r) := CreateSpec(db, rawName, rawEmail, password, salt, now);
      db' == db && r.Err?
      && (Violations(NameSetter(rawName), EmailSetter(rawEmail), password) == map[]
          ==> r.error == DuplicateKey(EmailSetter(rawEmail)))
  {
  }

  /** Normalising an email that is already normalised changes nothing. */
  lemma EmailSetterIdempotent(raw: string)
    ensures EmailSetter(EmailSetter(raw)) == EmailSetter(raw)
  {
    var e := EmailSetter(raw);
    ToLowerTrimCommute(raw);
    ToLowerIdempotent(Trim(raw));
    ToLowerTrimCommute(e);
    TrimIdempotent(ToLower(Trim(raw)));
  }

  /** Creation keeps the collection's invariant. */
  lemma CreateKeepsValid(db: Db, rawName: string, rawEmail: string, password: Secret, salt: nat, now: int)
    requires ValidDb(db)
    ensures ValidDb(CreateSpec(db, rawName, rawEmail, password, salt, now).0)
  {
    var (db', r) := CreateSpec(db, rawName, rawEmail, password, salt, now);
    if r.Ok? {
      EmailSetterIdempotent(rawEmail);
      TrimIdempotent(rawName);
      assert WellFormed(r.value);
      forall e1, e2 | e1 in db'.accounts && e2 in db'.accounts && e1 != e2
        ensures db'.accounts[e1].id != db'.accounts[e2].id
      {
        if e1 != r.value.email && e2 != r.value.email {
          assert db'.accounts[e1] == db.accounts[e1] && db'.accounts[e2] == db.accounts[e2];
        }
      }
    }
  }

  // ---------------------------------------------------------------------
  // Reads
  // ---------------------------------------------------------------------

  /** A document as a query returns it; `password` is absent unless the
      query asked for `+password` (`select: false`). */
  datatype Loaded = Loaded(id: nat, name: string, email: string, password: Option<Secret>, createdAt: int, updatedAt: int)

  function Load(a: Account, selectPassword: bool): Loaded {
    Loaded(a.id, a.name, a.email, if selectPassword then Some(a.password) else None, a.createdAt, a.updatedAt)
  }

  /** `UserModel.findOne({email})`, optionally with `.select("+password")`.
      The filter's email goes through the same setters as a stored one. */
  function FindOne(db: Db, email: string, selectPassword: bool): (r: Option<Loaded>)
    ensures r.Some? <==> EmailSetter(email) in db.accounts
    ensures r.Some? ==> r.value.email == db.accounts[EmailSetter(email)].email
    ensures r.Some? ==> (r.value.password.Some? <==> selectPassword)
  {
    var key := EmailSetter(email);
    if key in db.accounts then Some(Load(db.accounts[key], selectPassword)) else None
  }

  /** `findByCredentials(email, password)`: null for an unknown email and for a
      wrong password, the user (read with its password) otherwise. */
  function FindByCredentials(db: Db, email: string, password: string): (r: Option<Loaded>)
    ensures r.Some? <==> (EmailSetter(email) in db.accounts
                         && Compare(password, Some(db.accounts[EmailSetter(email)].password)) == Ok(true))
    ensures r.Some? ==> r == Some(Load(db.accounts[EmailSetter(email)], true))
  {
    match FindOne(db, email, true)
    case None => None
    case Some(user) =>
      if ComparePassword(user, password) == Ok(true) then Some(user) else None
  }

  /** A model's `comparePassword` on a loaded document. */
  function ComparePassword(doc: Loaded, candidate: string): Result<bool, CompareError> {
    Compare(candidate, doc.password)
  }

  /** An account created with a password is found again by its credentials,
      through an email that differs only by case and surrounding spaces. */
  lemma FindByCredentialsAfterCreate(db: Db, rawName: string, rawEmail: string, p: string, salt: nat, now: int, loginEmail: string)
    requires CreateSpec(db, rawName, rawEmail, Plain(p), salt, now).1.Ok?
    requires EmailSetter(loginEmail) == EmailSetter(rawEmail)
    ensures var (db', r) := CreateSpec(db, rawName, rawEmail, Plain(p), salt, now);
      FindByCredentials(db', loginEmail, p) == Some(Load(r.value, true))
  {
  }

  // ---------------------------------------------------------------------
  // toJSON
  // ---------------------------------------------------------------------

  /** The keys of a user object: `_id`, `name`, `email`, `password`,
      `createdAt`, `updatedAt` and the version key `__v`. */
  datatype Key = IdKey | NameKey | EmailKey | PasswordKey | CreatedAtKey | UpdatedAtKey | VersionKey

  datatype FieldValue = IdValue(id: nat) | TextValue(text: string) | SecretValue(secret: Secret) | DateValue(time: int)

  /** `doc.toObject()`: the document's fields by key. There is no `__v`
      because the schema sets `versionKey: false`. */
  function ToObject(doc: Loaded): (obj: map<Key, FieldValue>)
    ensures VersionKey !in obj
    ensures PasswordKey in obj <==> doc.password.Some?
  {
    var base := map[IdKey := IdValue(doc.id), NameKey := TextValue(doc.name), EmailKey := TextValue(doc.email),
                    CreatedAtKey := DateValue(doc.createdAt), UpdatedAtKey := DateValue(doc.updatedAt)];
    if doc.password.Some? then base[PasswordKey := SecretValue(doc.password.value)] else base
  }

  /** user.model.ts `toJSON`: copy the object, then delete `password`. */
  method UserModelToJson(doc: Loaded) returns (obj: map<Key, FieldValue>)
    ensures PasswordKey !in obj
    ensures obj.Keys == ToObject(doc).Keys - {PasswordKey}
    ensures forall k :: k in obj ==> obj[k] == ToObject(doc)[k]
  {
    obj := ToObject(doc);
    obj := obj - {PasswordKey};
  }

  /** auth/model.ts `toJSON`: copy the object, then delete `password` and `__v`.
      With `versionKey: false` the second deletion removes nothing. */
  method AuthModelToJson(doc: Loaded) returns (obj: map<Key, FieldValue>)
    ensures PasswordKey !in obj && VersionKey !in obj
    ensures obj.Keys == ToObject(doc).Keys - {PasswordKey}
    ensures forall k :: k in obj ==> obj[k] == ToObject(doc)[k]
  {
    obj := ToObject(doc);
    obj := obj - {PasswordKey};
    obj := obj - {VersionKey};
  }
}
