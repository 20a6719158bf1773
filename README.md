# OTP-gated signup and login, modelled in Dafny

This project models the authentication core of a small web application. It covers the backend (Express, Mongoose, zod, bcrypt, JSON Web Tokens) and the two Redux slices of its frontend:

- **Signup by emailed code, in-memory variant** (`backend/src/modules/auth/service.ts`). `sendOtp` refuses an email that already has an account. Otherwise it stages a six-digit code together with the name and password typed at signup, in a process-local map with a five-minute expiry, and schedules a timer that removes the entry once it has expired. `verifyOtpAndSignup` checks four things in order:
  1. an entry exists;
  2. it has not expired;
  3. the code matches;
  4. a password is present.

  It then hashes the password, saves the account, drops the entry and signs a seven-day token. `login` looks the user up and compares the password.
- **Signup by emailed code, key-value variant** (`backend/src/modules/auth/auth.service.ts`). The same flow, with the staged signup stored under `otp:<email>` with a time to live (`SETEX`) and a mail sent after staging. Verification reads the live entry, compares the code, creates the account with the staged password, deletes the entry and signs a token. Login reads the password back and refuses a missing one.
- **The account store** (`backend/src/modules/user/user.model.ts` and its near-copy `backend/src/modules/auth/model.ts`). The name is trimmed. The email is trimmed and lower-cased. Validators check that fields are present, the name's length is within 2 to 100, the email matches `^\S+@\S+\.\S+$`, and the password has at least 6 characters. A pre-save hook hashes a modified password. A unique index on email refuses duplicates. `password` is left out of default reads, `findByCredentials` finds a user by email and password, and `toJSON` strips the password.
- **Request schemas** (`backend/src/modules/auth/schema.ts`). zod string chains: every check of a field runs and reports its message, transforms replace the value, and an object schema collects the issues of all fields.
- **Bearer-token middleware** (`backend/src/middleware/auth.middleware.ts`). It takes the second space-separated field of a `Bearer ` header, verifies it, looks up the token's `id`, then admits the request with the user attached or answers 401 with one of five messages.
- **Error middleware** (`backend/src/middleware/error.middleware.ts`). Validation, duplicate-key and token errors get fixed answers. Any other error is answered with its own status code (500 when it has none) and its own message. A stack trace is included only in development.
- **Frontend auth slice** (`frontend/src/features/auth/authSlice.ts`). It holds the user, the token and an `isAuthenticated` flag, mirrored into local storage under `token` and `user` (the user serialised as JSON) and read back from there on load.
- **Frontend user slice** (`frontend/src/features/users/userSlice.ts`). A list that starts empty and to which `addUser` appends.

## How it is modelled

State that the source changes in place is a Dafny `class`:

- the staging map and the account collection of each service;
- the Mongoose document's password and its modified flag;
- the request the middleware writes an answer or a user to;
- the auth slice with its local storage;
- the user list.

Each method is proved equal to a function on values of the old state (`SendOtpSpec`, `VerifySpec`, `LoginSpec`, `CreateSpec`, `SetCredentialsSpec`, …). The lemmas state the source's promises about those functions.

Code that only computes a value is kept as functions: the schemas, the middleware's decision chain, the error mapping, and JSON encoding and parsing.

Collaborators appear as parameters or as symbolic values:

- the clock is a parameter `now`, in milliseconds;
- `Math.random()` is an integer draw in `[0, 900000)`;
- bcrypt salts are parameters;
- the mail transport's answer is a parameter `delivered`;
- `jwt.verify` and `findById` are function parameters;
- zod's email pattern is a parameter `isEmail`;
- a bcrypt hash is the term `Hashed(input, salt)`, so `compare(p, hash(q))` holds exactly when `p == q`;
- a signed token is the term `Signed(id, "7d")`.

Two behaviours of the in-memory service are modelled as written:

- It hashes the password before handing it to a model whose save hook hashes a modified password again, so the stored password is a hash of a hash (`InMemoryAuth.SignupStoresDoubleHash`).
- Its login reads the user without `+password`, so bcrypt is handed `undefined` and rejects the call (`InMemoryAuth.LoginNeverSucceeds`).

Under this model a signup through that service can never be followed by a successful login. The key-value service does not have either problem: `RedisAuth.SignupThenLogin` proves the round trip for it.

The in-memory service imports its model from `./authModel.js`, and the key-value service imports its schemas from `./auth.schema.js`. Neither file is part of this model. They are taken to be `backend/src/modules/auth/model.ts` and `backend/src/modules/auth/schema.ts`, and both model files follow the same rules.

## Model

| member | source | states |
|---|---|---|
| Bcrypt.Compare | backend/src/modules/user/user.model.ts:46-50 | `bcrypt.compare(candidate, stored)` fails exactly when the stored password was not loaded. It is true exactly when the stored value is a hash of that very candidate; plain text never matches. |
| Bcrypt.CompareAcceptsOwnHash | backend/src/modules/user/user.model.ts:38-43 | A password matches its own hash, whatever the salt. |
| Bcrypt.CompareRejectsOtherPassword | backend/src/modules/user/user.model.ts:46-50 | A hash of one password does not accept a different one. |
| Bcrypt.CompareRejectsDoubleHash | backend/src/modules/user/user.model.ts:38-43 | A hash of a hash never accepts a typed password. |
| Accounts.NameSetter | backend/src/modules/user/user.model.ts:12 | The name's `trim: true` setter: the name is stored trimmed. |
| Accounts.EmailSetter | backend/src/modules/user/user.model.ts:20-21 | The email's `lowercase: true, trim: true` setters, applied on assignment and to a query's email. |
| Accounts.MatchesEmailPattern | backend/src/modules/user/user.model.ts:22 | `/^\S+@\S+\.\S+$/`: no whitespace, an `@` with text before it, and after it a `.` with text on each side. |
| Accounts.EmailPatternShape | backend/src/modules/user/user.model.ts:22 | Three non-empty runs without whitespace, joined by `@` and `.`, match the email pattern. |
| Accounts.NameViolation | backend/src/modules/user/user.model.ts:9-15 | The first failing name validator: required, then minlength 2, then maxlength 100. |
| Accounts.EmailViolation | backend/src/modules/user/user.model.ts:16-23 | The first failing email validator: required, then the pattern. |
| Accounts.PasswordViolation | backend/src/modules/user/user.model.ts:24-29 | The first failing password validator: required, then minlength 6. |
| Accounts.Violations | backend/src/modules/user/user.model.ts:9-29 | Only the paths name, email and password can fail. Each fails exactly when its own validator chain (required, then min/max length or match) fails. |
| Accounts.ValidIff | backend/src/modules/auth/model.ts:28-48 | A document validates exactly when the name has 2 to 100 UTF-16 units, the email matches the pattern and the password has at least 6. |
| Accounts.CreateSpec | backend/src/modules/user/user.model.ts:7-43 | Creation on values: setters, then validation (refused with every violation), then the unique email (refused as a duplicate key), then a hash of the password and an insert under a fresh id with both timestamps set. |
| Accounts.UserDocument.constructor | backend/src/modules/user/user.model.ts:9-23 | A new document has the setters applied (name trimmed; email lower-cased and trimmed), and its password path counts as modified. |
| Accounts.UserDocument.AssignPassword | backend/src/modules/user/user.model.ts:38-39 | Assigning a password marks the path modified and changes no other field. |
| Accounts.UserDocument.MarkSaved | backend/src/modules/user/user.model.ts:38-39 | After a save no path counts as modified. |
| Accounts.UserDocument.HashPasswordIfModified | backend/src/modules/user/user.model.ts:38-43 | The pre-save hook replaces the password by its hash when it was modified, and leaves it alone otherwise. |
| Accounts.Create | backend/src/modules/auth/model.ts:56-61 | Creating an account runs the setters, the validators, the hook and the unique insert, in that order. The outcome equals `CreateSpec`. |
| Accounts.AssignedHashIsHashedAgain | backend/src/modules/auth/model.ts:56-61 | Assigning an already hashed password makes the hook hash it again, after which the typed password no longer matches. |
| Accounts.UnmodifiedPasswordIsKept | backend/src/modules/user/user.model.ts:39 | Saving a second time without touching the password keeps the first hash, which still matches. |
| Accounts.CreateStoresNormalisedAccount | backend/src/modules/user/user.model.ts:9-29 | A successful creation stores a trimmed, valid name and a trimmed, lower-case email that matches the pattern. The password is hashed exactly once, the email was new, and the account is filed under it. |
| Accounts.CreateRejectsDuplicateEmail | backend/src/modules/user/user.model.ts:74 | An email that normalises to a stored one is refused, with DuplicateKey once validation passes, and the collection is unchanged. |
| Accounts.EmailSetterIdempotent | backend/src/modules/user/user.model.ts:20-21 | Normalising an already normalised email changes nothing. |
| Accounts.CreateKeepsValid | backend/src/modules/auth/model.ts:87 | Creation keeps the collection's invariant: accounts are filed under their own well-formed emails, and ids are distinct and below the next id. |
| Accounts.FindOne | backend/src/modules/user/user.model.ts:28 | `findOne({email})` finds the account filed under the normalised filter email. The password is loaded exactly when `+password` is selected. |
| Accounts.FindByCredentials | backend/src/modules/user/user.model.ts:53-64 | Returns null for an unknown email or a wrong password. Otherwise it returns the user, loaded with its password. |
| Accounts.ComparePassword | backend/src/modules/user/user.model.ts:46-50 | The instance method `comparePassword`: bcrypt's comparison of the candidate with the document's loaded password. |
| Accounts.FindByCredentialsAfterCreate | backend/src/modules/auth/model.ts:69-78 | An account created with a password is found by that password, through any email that normalises to the same one. |
| Accounts.ToObject | backend/src/modules/auth/model.ts:50-53 | `toObject()` has no `__v` (`versionKey: false`), and has `password` exactly when it was loaded. |
| Accounts.UserModelToJson | backend/src/modules/user/user.model.ts:67-71 | `toJSON` is the object without `password`, with every other field unchanged. |
| Accounts.AuthModelToJson | backend/src/modules/auth/model.ts:80-85 | `toJSON` is the object without `password` and `__v`, with every other field unchanged. |
| RequestSchema.Step | backend/src/modules/auth/schema.ts:4-8 | One link of a chain: `trim`/`toLowerCase` replace the value; `min`, `max`, `length`, `email` and `regex` add their message when they fail. |
| RequestSchema.RunChecks | backend/src/modules/auth/schema.ts:4-8 | A chain runs left to right, each link seeing the value the previous one produced, and all failure messages are collected in order. |
| RequestSchema.Field | backend/src/modules/auth/schema.ts:3-16 | A field fails with at least one issue, every issue carrying the field's path. It passes exactly when the value is a string on which no check of the chain fails. |
| RequestSchema.Issues | backend/src/modules/auth/schema.ts:3-16 | One issue per failed check, in chain order, each with the field's path. |
| RequestSchema.RunChecksCons | backend/src/modules/auth/schema.ts:4-8 | A chain runs its first link on the input and the rest on that link's output, concatenating the failures. |
| RequestSchema.ParseRequestOtp | backend/src/modules/auth/schema.ts:3-16 | A rejected body has at least one issue. |
| RequestSchema.ParseVerifyOtp | backend/src/modules/auth/schema.ts:18-25 | A rejected body has at least one issue. |
| RequestSchema.ParseLogin | backend/src/modules/auth/schema.ts:28-37 | A rejected body has at least one issue. |
| RequestSchema.SignupNameChain | backend/src/modules/auth/schema.ts:4-8 | The name is trimmed, then rejected with "Name must be at least 2 characters" below 2 and with "Name too long" above 100. |
| RequestSchema.EmailChain | backend/src/modules/auth/schema.ts:10 | The email pattern is tested on the trimmed string, and the value comes out trimmed and lower-cased. |
| RequestSchema.SignupPasswordChain | backend/src/modules/auth/schema.ts:12-15 | The password is not trimmed. It is rejected below 6 and above 64 with the two messages. |
| RequestSchema.OtpChain | backend/src/modules/auth/schema.ts:21-24 | A wrong length and a non-numeric code are reported separately, and both when both apply. |
| RequestSchema.LoginEmailChain | backend/src/modules/auth/schema.ts:29-34 | The login email is trimmed, then checked to be non-empty, then checked against the pattern, then lower-cased. An empty one collects both messages. |
| RequestSchema.LoginPasswordChain | backend/src/modules/auth/schema.ts:36 | The login password is only required to be non-empty. |
| RequestSchema.RequestOtpAccepts | backend/src/modules/auth/schema.ts:3-16 | The signup body is accepted exactly when the trimmed name has 2 to 100 units, the trimmed email passes and the password has 6 to 64. It then yields the trimmed name, the normalised email and the password untouched. |
| RequestSchema.VerifyOtpAccepts | backend/src/modules/auth/schema.ts:18-25 | The verify body is accepted exactly when the trimmed email passes and the otp is six ASCII digits. It yields the normalised email and the otp. |
| RequestSchema.LoginAccepts | backend/src/modules/auth/schema.ts:28-37 | The login body is accepted exactly when the trimmed email is non-empty and passes, and the password is non-empty. |
| RequestSchema.DigitsAreBasicPlane | backend/src/modules/auth/schema.ts:23 | For a digit string, the UTF-16 length used by `.length(6)` is its character count. |
| RequestSchema.NormalEmailIsNormal | backend/src/modules/auth/schema.ts:10 | An accepted email is already trimmed and lower-case, so the model's own setters leave it unchanged. |
| RequestSchema.NormalEmailIgnoresCaseAndSpaces | backend/src/modules/auth/schema.ts:19 | Emails differing only in letter case and surrounding whitespace normalise to the same email. |
| Signup.OtpCode | backend/src/modules/auth/service.ts:23 | The code is the decimal string of 100000 plus the random draw. |
| Signup.SessionFor | backend/src/modules/auth/service.ts:71-76 | A session holds a token signed with the user's id and `expiresIn` "7d", together with the user. |
| Signup.OtpCodeIsSixDigits | backend/src/modules/auth/service.ts:23 | `Math.floor(100000 + Math.random() * 900000).toString()` is always six digits, never starts with 0, denotes 100000..999999 and passes the otp schema. |
| Signup.OtpCodeInjective | backend/src/modules/auth/auth.service.ts:25 | Different draws give different codes. |
| Signup.Message | backend/src/modules/auth/service.ts:20-57 | Each error the services throw themselves has its fixed non-empty message. Exactly the collaborator errors have none of their own. |
| InMemoryAuth.SendOtpSpec | backend/src/modules/auth/service.ts:18-37 | `sendOtp` on values: refuse an email with an account; otherwise overwrite its entry with the new code, name, password and an expiry five minutes ahead, and schedule the cleanup for then. |
| InMemoryAuth.CleanupSpec | backend/src/modules/auth/service.ts:35-36 | The timer's callback on values: delete the email's entry if its expiry lies before now. |
| InMemoryAuth.VerifySpec | backend/src/modules/auth/service.ts:44-77 | `verifyOtpAndSignup` on values: no entry; expired (entry deleted); wrong code; empty password; then save the hashed password through the model, drop the entry and return a session, or fail with the save error and change nothing. |
| InMemoryAuth.LoginSpec | backend/src/modules/auth/service.ts:80-95 | `login` on values: unknown email is "Invalid credentials"; otherwise bcrypt compares with the unselected password, its error is passed on, and a mismatch is "Invalid credentials". |
| InMemoryAuth.PhaseOf | backend/src/modules/auth/service.ts:19-31 | An email is Active once it has an account, Pending while it has a staged entry, and NoAccount otherwise. |
| InMemoryAuth.InMemoryAuthService.constructor | backend/src/modules/auth/service.ts:11-14 | The staging map starts empty. |
| InMemoryAuth.InMemoryAuthService.SendOtp | backend/src/modules/auth/service.ts:18-31 | Equals `SendOtpSpec`: an existing account is refused; otherwise the entry is staged and a cleanup timer is returned. |
| InMemoryAuth.InMemoryAuthService.FireCleanup | backend/src/modules/auth/service.ts:34-37 | Equals `CleanupSpec`: the entry is deleted only if it has expired when the timer fires. |
| InMemoryAuth.InMemoryAuthService.VerifyOtpAndSignup | backend/src/modules/auth/service.ts:44-77 | Equals `VerifySpec`. The checks run in order: no entry, expired (the entry is dropped), wrong code, missing password. Then hash, save, drop the entry and sign. |
| InMemoryAuth.InMemoryAuthService.Login | backend/src/modules/auth/service.ts:80-95 | Equals `LoginSpec` and changes nothing: an unknown user, then bcrypt's verdict on the unselected password. |
| InMemoryAuth.SendOtpRejectsExistingAccount | backend/src/modules/auth/service.ts:19-20 | An email with an account is refused with "User already exists", and nothing changes. |
| InMemoryAuth.SendOtpStagesEntry | backend/src/modules/auth/service.ts:26-31 | The email's entry becomes the new six-digit code, name and password, expiring 300000 ms from now. Other entries and the accounts are unchanged, and the cleanup is due at the expiry. |
| InMemoryAuth.CleanupDeletesOnlyExpired | backend/src/modules/auth/service.ts:35-36 | The cleanup removes the email's entry exactly when it has expired by then, and touches nothing else. |
| InMemoryAuth.TimerOnTimeSparesOwnEntry | backend/src/modules/auth/service.ts:34-37 | Because the comparison is strict, a timer firing exactly at the expiry leaves its own entry. |
| InMemoryAuth.RestagedEntrySurvivesOlderTimer | backend/src/modules/auth/service.ts:26-37 | Requesting a code again replaces the entry, and the earlier timer does not remove the new one. |
| InMemoryAuth.VerifyWithoutEntry | backend/src/modules/auth/service.ts:47-48 | No entry gives "No OTP requested for this email", and the state is unchanged. |
| InMemoryAuth.VerifyExpiredEntry | backend/src/modules/auth/service.ts:50-53 | An expired entry is deleted, the call fails with "OTP expired", and the accounts are unchanged. |
| InMemoryAuth.VerifyAtExpiryIsNotExpired | backend/src/modules/auth/service.ts:50 | At exactly its expiry time an entry still counts. |
| InMemoryAuth.VerifyWrongCode | backend/src/modules/auth/service.ts:55 | A wrong code gives "Invalid OTP" and leaves everything in place. |
| InMemoryAuth.VerifySucceeds | backend/src/modules/auth/service.ts:60-76 | A success adds exactly one account: the trimmed staged name under the normalised email, with the password hashed twice. The entry is dropped and a token is signed for the new id. |
| InMemoryAuth.ReplayAfterSuccessFails | backend/src/modules/auth/service.ts:69 | After a success the same email cannot verify again. |
| InMemoryAuth.SignupStoresDoubleHash | backend/src/modules/auth/service.ts:60-66 | The saved password never matches the password typed at signup. |
| InMemoryAuth.LoginNeverSucceeds | backend/src/modules/auth/service.ts:83-87 | Login fails for every input: "Invalid credentials" for an unknown email, bcrypt's illegal-arguments error for a known one. |
| InMemoryAuth.SendOtpPhase | backend/src/modules/auth/service.ts:18-31 | Sending a code moves an email without an account to Pending. An account stays Active. |
| InMemoryAuth.VerifyPhase | backend/src/modules/auth/service.ts:44-77 | A success moves an email from Pending to Active. A failure creates no account. |
| InMemoryAuth.OperationsKeepValidDb | backend/src/modules/auth/service.ts:61-66 | Sending, cleaning up and verifying all keep the account collection's invariant. |
| RedisAuth.StagingKey | backend/src/modules/auth/auth.service.ts:26 | The staged signup of an email lives under `otp:<email>`. |
| RedisAuth.KvDel | backend/src/modules/auth/auth.service.ts:60 | `DEL key` removes the key. |
| RedisAuth.KvGet | backend/src/modules/auth/auth.service.ts:46 | `GET` finds a value exactly when the key is present and its expiry has not passed. |
| RedisAuth.KvSetEx | backend/src/modules/auth/auth.service.ts:28-36 | `SETEX` succeeds exactly when the time to live is positive. |
| RedisAuth.KvSetExThenGet | backend/src/modules/auth/auth.service.ts:28-36 | A value written with N seconds to live is read back until N seconds have passed, and not after. |
| RedisAuth.StagingKeyInjective | backend/src/modules/auth/auth.service.ts:26 | Different emails never share an `otp:<email>` key. |
| RedisAuth.SendOtpSpec | backend/src/modules/auth/auth.service.ts:20-39 | `sendOtp` on values: refuse an email with an account; otherwise `SETEX otp:<email>` for the configured minutes (refused for a non-positive lifetime), then the mail with the code, whose failure fails the call. |
| RedisAuth.VerifySpec | backend/src/modules/auth/auth.service.ts:42-68 | `verifyOtpAndSignup` on values: no live entry; wrong code; then create the account with the staged password, delete the key and return a session, or fail with the save error and change nothing. |
| RedisAuth.LoginSpec | backend/src/modules/auth/auth.service.ts:71-86 | `login` on values: find the user with `+password`; no user or an empty password is "Invalid credentials"; then bcrypt decides. |
| RedisAuth.PhaseAt | backend/src/modules/auth/auth.service.ts:21-36 | An email is Active once it has an account, Pending while its staging key is live, and NoAccount otherwise. |
| RedisAuth.RedisAuthService.constructor | backend/src/modules/auth/auth.service.ts:16 | The service reads its lifetime setting once. |
| RedisAuth.RedisAuthService.SendOtp | backend/src/modules/auth/auth.service.ts:20-39 | Equals `SendOtpSpec`. An existing account is refused; otherwise the signup is staged with a TTL and the mail is asked for. |
| RedisAuth.RedisAuthService.VerifyOtpAndSignup | backend/src/modules/auth/auth.service.ts:42-68 | Equals `VerifySpec`. Reading and comparing come first, then the account is created, then the entry is deleted and the token signed. |
| RedisAuth.RedisAuthService.Login | backend/src/modules/auth/auth.service.ts:71-86 | Equals `LoginSpec` and changes nothing. |
| RedisAuth.SendOtpRejectsExistingAccount | backend/src/modules/auth/auth.service.ts:21-22 | An email with an account is refused before anything is staged or mailed. |
| RedisAuth.SendOtpStagesEntry | backend/src/modules/auth/auth.service.ts:25-38 | `otp:<email>` holds the new code, name and password for the configured minutes, and the mail carries that code. The call succeeds exactly when the mail is delivered, but the entry stays staged either way. |
| RedisAuth.DefaultLifetimeIsTenMinutes | backend/src/modules/auth/auth.service.ts:16 | With the default setting the entry lives 600000 ms. |
| RedisAuth.SendOtpWithoutLifetime | backend/src/modules/auth/auth.service.ts:28-30 | A non-positive lifetime makes the store refuse the write: nothing is staged or mailed. |
| RedisAuth.VerifyWithoutLiveEntry | backend/src/modules/auth/auth.service.ts:45-48 | No live entry gives "OTP expired or not found", and the state is unchanged. |
| RedisAuth.VerifyWrongCode | backend/src/modules/auth/auth.service.ts:50-51 | A wrong code gives "Invalid OTP" and leaves everything in place. |
| RedisAuth.VerifySucceeds | backend/src/modules/auth/auth.service.ts:53-67 | A success adds exactly one account: the staged name under the normalised email, with the password hashed once. Only the entry is deleted, and the session belongs to the new account. |
| RedisAuth.ReplayAfterSuccessFails | backend/src/modules/auth/auth.service.ts:60 | After a success the same email cannot verify again. |
| RedisAuth.CodeExpires | backend/src/modules/auth/auth.service.ts:28-36 | A correct code entered after its lifetime is refused. |
| RedisAuth.OnlyLatestCodeWorks | backend/src/modules/auth/auth.service.ts:28-36 | Requesting a second code makes the first one fail. |
| RedisAuth.LoginOutcomes | backend/src/modules/auth/auth.service.ts:71-86 | Login succeeds exactly when the account exists and the password matches its hash, and it then returns that account's session. Every failure is "Invalid credentials". |
| RedisAuth.SignupThenLogin | backend/src/modules/auth/auth.service.ts:20-86 | Sending a code, entering it in time and logging in with the same password and an equivalent email returns the session the signup returned. |
| RedisAuth.SendOtpPhase | backend/src/modules/auth/auth.service.ts:20-39 | Sending a code moves an email without an account to Pending. An account stays Active. |
| RedisAuth.VerifyPhase | backend/src/modules/auth/auth.service.ts:42-68 | A success moves an email from Pending to Active. A failure changes nothing. |
| RedisAuth.OperationsKeepValidDb | backend/src/modules/auth/auth.service.ts:53-58 | Sending and verifying keep the account collection's invariant. |
| AuthMiddleware.Request.constructor | backend/src/middleware/auth.middleware.ts:13 | A request starts with no user, no answer and `next` not called. |
| AuthMiddleware.Request.Authenticate | backend/src/middleware/auth.middleware.ts:12-45 | On admission the found user is attached and `next` is called, with no answer sent. On rejection exactly the decided answer is sent and the request is left alone. Any answer sent is a 401. |
| AuthMiddleware.SecondField | backend/src/middleware/auth.middleware.ts:19 | `authHeader.split(" ")[1]`, absent when there is no second field. |
| AuthMiddleware.Decide | backend/src/middleware/auth.middleware.ts:13-45 | The decision of `authenticate`: each failing check in order gives its 401 message, otherwise the found user is admitted. Every rejection is a 401 with one of the five messages. |
| AuthMiddleware.FirstFieldEmpty | backend/src/middleware/auth.middleware.ts:19 | The first field of `split(" ")` is empty exactly when the string is empty or starts with a space. |
| AuthMiddleware.TokenAfterPrefix | backend/src/middleware/auth.middleware.ts:19 | After `Bearer `, the token is the text up to the next space. |
| AuthMiddleware.NoTokenIff | backend/src/middleware/auth.middleware.ts:15-17 | "No token provided" is answered exactly when the header is missing or lacks the exact prefix `Bearer `. |
| AuthMiddleware.TokenMissingIff | backend/src/middleware/auth.middleware.ts:19-22 | With the prefix, "Token missing" is answered exactly when nothing follows it or another space does. |
| AuthMiddleware.TrailingFieldsIgnored | backend/src/middleware/auth.middleware.ts:19 | Text after a space following the token does not change the decision. |
| AuthMiddleware.AdmitIff | backend/src/middleware/auth.middleware.ts:24-41 | A request is admitted with user u exactly when every check passes and the lookup of the payload's `id` finds u. |
| AuthMiddleware.LaterRejections | backend/src/middleware/auth.middleware.ts:24-44 | A throwing verification or lookup gives "Invalid or expired token". A string payload, or an object without `id`, gives "Invalid token payload". No user gives "User not found or deactivated". |
| ErrorMiddleware.StatusCodeOf | backend/src/middleware/error.middleware.ts:12 | `err.statusCode \|\| 500`. |
| ErrorMiddleware.StatusOf | backend/src/middleware/error.middleware.ts:13 | "fail" when the code's decimal text starts with 4, "error" otherwise. |
| ErrorMiddleware.MessageOf | backend/src/middleware/error.middleware.ts:14-15 | The error's message, or the default text when it is absent or empty. |
| ErrorMiddleware.ValidationDetails | backend/src/middleware/error.middleware.ts:33 | `err.errors \|\| err.message`. |
| ErrorMiddleware.Handle | backend/src/middleware/error.middleware.ts:5-69 | The whole answer: the four known kinds in order with their fixed bodies, otherwise the error's code, status and message, with the stack only in development. No answer says success, and the status is "fail" or "error". |
| ErrorMiddleware.ConfiguredNodeEnv | backend/src/config/index.ts:7 | After configuration has loaded, an unset or empty `NODE_ENV` reads as "development"; any other value is kept. |
| ErrorMiddleware.UnsetNodeEnvSendsStack | backend/src/middleware/error.middleware.ts:67 | With the configuration loaded, a server started without `NODE_ENV` (or with it empty) sends an unknown error's stack, and a production one does not. |
| ErrorMiddleware.StatusCodeDefaults | backend/src/middleware/error.middleware.ts:12 | The status code is 500 exactly when the error's code is absent or 0, and is never 0. |
| ErrorMiddleware.StatusFailIffClientError | backend/src/middleware/error.middleware.ts:13 | For a three-digit code, the status is "fail" exactly for 400..499. |
| ErrorMiddleware.NegativeStatusIsError | backend/src/middleware/error.middleware.ts:13 | A negative code reads as "error". |
| ErrorMiddleware.MessageDefaults | backend/src/middleware/error.middleware.ts:14-15 | The default message is used exactly when the error's message is absent or empty, or is that very text. |
| ErrorMiddleware.ValidationErrorIs400 | backend/src/middleware/error.middleware.ts:28-35 | A validation error is a 400 "Validation Error" whatever status code it carries. |
| ErrorMiddleware.MongoDuplicateOnly11000 | backend/src/middleware/error.middleware.ts:37-44 | A Mongo server error is a 409 "Duplicate key error" when its code is 11000. With any other code it is answered as an unknown error. |
| ErrorMiddleware.TokenErrorsAre401 | backend/src/middleware/error.middleware.ts:46-60 | The two token errors are 401s with exactly their fixed bodies. |
| ErrorMiddleware.NeverSuccessStackOnlyInDevelopment | backend/src/middleware/error.middleware.ts:62-68 | No answer says success. A stack appears only for an unknown error in development, and then it is the error's own stack. |
| ErrorMiddleware.UnknownErrorAnswer | backend/src/middleware/error.middleware.ts:62-68 | An unknown error is answered with its status code (or 500), the matching status and its message (or the default), and without details. |
| UserJson.Escape | frontend/src/features/auth/authSlice.ts:39 | `JSON.stringify` of a string's characters: quote, backslash and the control characters are escaped. |
| UserJson.ParseChars | frontend/src/features/auth/authSlice.ts:9 | `JSON.parse` of a string literal's contents: the escapes are decoded, a raw control character or a lone surrogate is refused. |
| UserJson.ParseEscapedChar | frontend/src/features/auth/authSlice.ts:39 | Each character as `JSON.stringify` escapes it is read back as that character. |
| UserJson.ParseCharsEscape | frontend/src/features/auth/authSlice.ts:39 | An escaped string followed by a closing quote is read back together with what follows. |
| UserJson.ParseQuote | frontend/src/features/auth/authSlice.ts:9 | Parsing a quoted string gives the string and the rest. |
| UserJson.DecodeTailEncode | frontend/src/types/auth.types.ts:45-46 | The optional timestamps are read back as written, present or absent. |
| UserJson.Encode | frontend/src/features/auth/authSlice.ts:39 | `JSON.stringify(user)`: the members in the `User` type's order, with absent timestamps left out. |
| UserJson.Decode | frontend/src/features/auth/authSlice.ts:9 | `JSON.parse` of a stored user: the four string members and the optional timestamps, in that order, and nothing after the closing brace. |
| UserJson.DecodeEncode | frontend/src/features/auth/authSlice.ts:9 | `JSON.parse(JSON.stringify(user))` gives the user back. |
| UserJson.EncodeNotEmpty | frontend/src/features/auth/authSlice.ts:8 | The stored user text is never empty, so it counts as present on reload. |
| AuthSlice.InitialAuthState | frontend/src/features/auth/authSlice.ts:5-20 | `getInitialAuthState`: empty without a window; otherwise the token as stored, the flag as its truthiness, and the user parsed from a non-empty stored text (a parse failure throws). |
| AuthSlice.Merge | frontend/src/features/auth/authSlice.ts:54 | `{ ...state.user, ...action.payload }`: each field from the patch when it sets it, else from the user. |
| AuthSlice.MergeFields | frontend/src/features/auth/authSlice.ts:54 | Each of the six fields of the merged user is the patch's when set and the old user's otherwise; an empty patch changes nothing. |
| AuthSlice.SetCredentialsSpec | frontend/src/features/auth/authSlice.ts:30-41 | `setCredentials` on values: user and token set, flag raised, `token` and the serialised `user` stored. |
| AuthSlice.LogoutSpec | frontend/src/features/auth/authSlice.ts:44-51 | `logout` on values: state cleared, `token` and `user` removed from storage. |
| AuthSlice.UpdateProfileSpec | frontend/src/features/auth/authSlice.ts:52-57 | `updateProfile` on values: nothing without a user; otherwise the merged user, also written to storage. |
| AuthSlice.AuthStore.constructor | frontend/src/features/auth/authSlice.ts:22 | The slice starts from the given initial state and storage. |
| AuthSlice.AuthStore.SetCredentials | frontend/src/features/auth/authSlice.ts:30-41 | Equals `SetCredentialsSpec`: the user and token are set and the flag raised, and `token` and the serialised `user` are stored. |
| AuthSlice.AuthStore.Logout | frontend/src/features/auth/authSlice.ts:44-51 | Equals `LogoutSpec`: the state is cleared and both keys are removed. |
| AuthSlice.AuthStore.UpdateProfile | frontend/src/features/auth/authSlice.ts:52-57 | Equals `UpdateProfileSpec`: without a user nothing changes; otherwise the patch is merged and the user stored. |
| AuthSlice.InitialState | frontend/src/features/auth/authSlice.ts:5-20 | Without a window the state is empty. With one: authenticated exactly when a non-empty token is stored, the token is the stored one, and there is a user exactly when a non-empty user text is stored. |
| AuthSlice.InitialStateConsistentIff | frontend/src/features/auth/authSlice.ts:11-12 | The loaded state has "authenticated iff token" exactly unless the stored token is the empty string. |
| AuthSlice.ReducersKeepConsistent | frontend/src/features/auth/authSlice.ts:30-57 | `setCredentials` and `logout` establish "authenticated iff token", and `updateProfile` keeps it. |
| AuthSlice.SetCredentialsThenReload | frontend/src/features/auth/authSlice.ts:30-41 | After `setCredentials` the other keys are untouched, and a reload gives back the same user and token, authenticated when the token is non-empty. |
| AuthSlice.LogoutThenReload | frontend/src/features/auth/authSlice.ts:44-51 | After `logout` both keys are gone and a reload starts signed out. |
| AuthSlice.UpdateProfileEffect | frontend/src/features/auth/authSlice.ts:52-57 | Without a user nothing happens. With one, the patched fields are replaced and the rest kept, an empty patch changes nothing, the token and flag are untouched, and the stored text reads back as the new user. |
| UserSlice.CountId | frontend/src/features/users/userSlice.ts:14 | How many listed users carry a given id. |
| UserSlice.UserList.constructor | frontend/src/features/users/userSlice.ts:17-19 | The list starts empty. |
| UserSlice.UserList.AddUser | frontend/src/features/users/userSlice.ts:25-27 | `addUser` appends the payload at the end, keeping the earlier users in place, and an id already listed is then listed once more (no deduplication). |
| UserSlice.AddUserKeepsDuplicates | frontend/src/features/users/userSlice.ts:26 | There is no deduplication: an id that is already listed is listed once more. |
| JsStrings.Trim | backend/src/modules/auth/schema.ts:6 | `trim()` leaves no whitespace at either end and never lengthens a string. |
| JsStrings.TrimIdempotent | backend/src/modules/user/user.model.ts:12 | Trimming twice is trimming once. |
| JsStrings.ToLowerTrimCommute | backend/src/modules/user/user.model.ts:20-21 | Lower-casing and trimming commute, so the order of the two setters does not matter. |
| JsStrings.JsLength | backend/src/modules/auth/schema.ts:7 | `length` counts UTF-16 units: at least one per character and at most two. |
| JsStrings.Split | backend/src/middleware/auth.middleware.ts:19 | `split(" ")` gives at least one field, none containing a space, and joining the fields gives the string back. |
| JsStrings.SplitJoin | backend/src/middleware/auth.middleware.ts:19 | Splitting undoes joining for fields without spaces. |
| JsStrings.DecimalRoundTrip | backend/src/modules/auth/service.ts:23 | Reading back a number's decimal string gives the number. |
| JsStrings.IntToString | backend/src/middleware/error.middleware.ts:13 | `${code}` is non-empty and starts with `-` exactly for negative codes. |

## Left out

- Input and output: HTTP, sockets, email delivery, console output and logging are not modelled. The mail transport's answer is a parameter, and the logger calls of the error middleware are dropped because they do not affect the answer.
- The clock, `Math.random()`, bcrypt salts and `jwt.sign`/`jwt.verify` are parameters or symbolic terms. Real hashing, real signatures, bcrypt's 72-byte input limit and the salt rounds (10 in the model, 12 in the service) are not modelled.
- Concurrency: two requests interleaving their reads and writes of the staging store is not modelled. Each operation runs to completion.
- The timer of the in-memory service is an explicit `FireCleanup` call; the scheduling itself is not modelled.
- Redis expiry: a key is modelled as live up to and including its expiry millisecond. Redis's own second granularity and lazy eviction are not modelled.
- RedisAuth.SendOtpSpec: the lifetime setting is an integer parameter. A setting that is not a whole number, whether non-numeric (NaN) or fractional (`0.01` gives `setEx(key, 0.6, …)`, which Redis refuses as not an integer), is not modelled. A non-positive whole setting is modelled, as a refused write.
- RedisAuth.VerifySpec: the JSON round trip of the staged record is taken to be the identity, and a hand-written foreign value under an `otp:` key is not modelled.
- JsStrings.ToLower: only ASCII letters are lower-cased. Unicode case mapping is not modelled.
- RequestSchema.Field: zod's email pattern is the parameter `isEmail`, not its regular expression. A body that is not an object is not modelled.
- UserJson.Decode: only text in the shape `JSON.stringify` gives a user is parsed. Other valid JSON (for example `null`) is treated as a parse error rather than as another value. Key order follows the `User` type's declaration order.
- AuthSlice.UpdateProfileSpec: a patch with an explicit `undefined` field is not modelled. An absent field keeps the old value.
- ErrorMiddleware.Handle: `nodeEnv` is the value of `NODE_ENV` after the configuration has loaded, which replaces an unset or empty value by "development" (`ErrorMiddleware.ConfiguredNodeEnv`). A handler running before that is not modelled.
- `res.status` with a code outside the HTTP range (which Express rejects) is not modelled. The chosen code is the answer.
- The identical-error property of the in-memory login (unknown email vs. wrong password) is not stated. That login can never reach the password comparison: `InMemoryAuth.LoginNeverSucceeds` shows bcrypt rejecting the missing password. For the key-value login, `RedisAuth.LoginOutcomes` states it.
- The controllers, routes, configuration loading, dependency injection and the RTK Query API slices are outside this core.
- `backend/src/modules/auth/authModel.js` and `backend/src/modules/auth/auth.schema.js` are not part of this model. They are taken to be `auth/model.ts` and `auth/schema.ts`.
