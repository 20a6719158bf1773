/**
 * The bearer-token gate of backend/src/middleware/auth.middleware.ts: read
 * the `Authorization` header, take the second space-separated field as the
 * token, verify it, look the user up by the token's `id`, and either admit
 * the request with the user attached or answer 401. Verification and the
 * lookup are collaborators, passed in as functions.
 */
module AuthMiddleware {
  import opened Wrappers
  import opened JsStrings
  import opened Accounts

  /** A value of the verified token's payload. */
  datatype Claim = ClaimString(s: string) | ClaimNumber(n: int) | ClaimOther

  /** What `jwt.verify` returns: the decoded payload, a string or an object. */
  datatype Payload = StringPayload(text: string) | ObjectPayload(claims: map<string, Claim>)

  /** `jwt.verify(token, secret)`: the payload, or an exception (bad
      signature, malformed token, expired token). */
  datatype Verified = VerifyThrew | Decoded(payload: Payload)

  /** `UserModel.findById(id)`: the user, no user, or an exception (an id that
      is no valid object id). */
  datatype Lookup = Found(user: Loaded) | NotFound | LookupThrew

  /** How the middleware ends: a 401 with a message, or `next()` with the user. */
  datatype Decision = Reject(status: int, message: string) | Admit(user: Loaded)

  const BearerPrefix := "Bearer "

  const NoToken := "No token provided"
  const TokenMissing := "Token missing"
  const InvalidPayload := "Invalid token payload"
  const UserNotFound := "User not found or deactivated"
  const InvalidOrExpired := "Invalid or expired token"

  /** `authHeader.split(" ")[1]`, absent when there is no second field. */
  function SecondField(h: string): Option<string> {
    var fields := Split(h);
    if |fields| > 1 then Some(fields[1]) else None
  }

  /** The decision chain of `authenticate`. */
  function Decide(header: Option<string>, verify: string -> Verified, findById: Claim -> Lookup): (d: Decision)
    ensures d.Reject? ==> d.status == 401
    ensures d.Reject? ==> d.message in {NoToken, TokenMissing, InvalidPayload, UserNotFound, InvalidOrExpired}
  {
    if header.None? || !StartsWith(header.value, BearerPrefix) then
      Reject(401, NoToken)
    else
      var token := SecondField(header.value);
      if token.None? || token.value == "" then
        Reject(401, TokenMissing)
      else
        match verify(token.value)
        case VerifyThrew => Reject(401, InvalidOrExpired)
        case Decoded(payload) =>
          if !payload.ObjectPayload? || "id" !in payload.claims then
            Reject(401, InvalidPayload)
          else
            match findById(payload.claims["id"])
            case LookupThrew => Reject(401, InvalidOrExpired)
            case NotFound => Reject(401, UserNotFound)
            case Found(user) => Admit(user)
  }

  /** The request as the middleware sees and changes it. */
  class Request {
    const authorization: Option<string>
    var user: Option<Loaded>
    var nextCalled: bool
    /** `res.status(status).json({ message })`, once it has been sent. */
    var reply: Option<(int, string)>

    constructor (authorization: Option<string>)
      ensures this.authorization == authorization
      ensures user.None? && !nextCalled && reply.None?
    {
      this.authorization := authorization;
      user := None;
      nextCalled := false;
      reply := None;
    }

    /** `authenticate(req, res, next)`: on success attach the user and call
        `next()`; otherwise send the 401 and leave the request alone. */
    method Authenticate(verify: string -> Verified, findById: Claim -> Lookup)
      modifies this
      ensures match Decide(authorization, verify, findById)
        case Admit(u) => user == Some(u) && nextCalled && reply == old(reply)
        case Reject(status, message) =>
          reply == Some((status, message)) && user == old(user) && nextCalled == old(nextCalled)
      ensures reply != old(reply) ==> reply.Some? && reply.value.0 == 401
    {
      var authHeader := authorization;
      if authHeader.None? || !StartsWith(authHeader.value, BearerPrefix) {
        reply := Some((401, NoToken));
        return;
      }
      var token := SecondField(authHeader.value);
      if token.None? || token.value == "" {
        reply := Some((401, TokenMissing));
        return;
      }
      var decoded := verify(token.value);
      if decoded.VerifyThrew? {
        reply := Some((401, InvalidOrExpired));
        return;
      }
      if !decoded.payload.ObjectPayload? || "id" !in decoded.payload.claims {
        reply := Some((401, InvalidPayload));
        return;
      }
      var found := findById(decoded.payload.claims["id"]);
      match found
      case LookupThrew =>
        reply := Some((401, InvalidOrExpired));
      case NotFound =>
        reply := Some((401, UserNotFound));
      case Found(u) =>
        user := Some(u);
        nextCalled := true;
    }
  }

  // ---------------------------------------------------------------------
  // Header parsing
  // ---------------------------------------------------------------------

  /** The first field of a split is empty exactly when the string is empty or
      starts with a space. */
  lemma FirstFieldEmpty(s: string)
    ensures Split(s)[0] == [] <==> (s == [] || s[0] == ' ')
  {
  }

  /** After the prefix, the token is the text up to the next space. */
  lemma {:induction false} TokenAfterPrefix(rest: string)
    ensures SecondField(BearerPrefix + rest) == Some(Split(rest)[0])
  {
    assert BearerPrefix + rest == "Bearer" + " " + rest;
    SplitAfterField("Bearer", rest);
  }

  /** "No token provided" exactly when the header is absent or does not start
      with the exact prefix `Bearer `. */
  lemma NoTokenIff(header: Option<string>, verify: string -> Verified, findById: Claim -> Lookup)
    ensures Decide(header, verify, findById) == Reject(401, NoToken)
        <==> header.None? || !StartsWith(header.value, BearerPrefix)
  {
  }

  /** A header with the prefix: "Token missing" exactly when nothing follows
      the prefix or another space does. */
  lemma {:induction false} TokenMissingIff(rest: string, verify: string -> Verified, findById: Claim -> Lookup)
    ensures Decide(Some(BearerPrefix + rest), verify, findById) == Reject(401, TokenMissing)
        <==> (rest == [] || rest[0] == ' ')
  {
    assert StartsWith(BearerPrefix + rest, BearerPrefix) by {
      assert (BearerPrefix + rest)[..|BearerPrefix|] == BearerPrefix;
    }
    TokenAfterPrefix(rest);
    FirstFieldEmpty(rest);
  }

  /** Text after the token is ignored: the header with a third field decides
      as the header with the token alone. */
  lemma {:induction false} TrailingFieldsIgnored(token: string, trailing: string, verify: string -> Verified, findById: Claim -> Lookup)
    requires ' ' !in token
    ensures Decide(Some(BearerPrefix + token + " " + trailing), verify, findById)
        == Decide(Some(BearerPrefix + token), verify, findById)
  {
    var long := BearerPrefix + token + " " + trailing;
    var short := BearerPrefix + token;
    assert long == BearerPrefix + (token + " " + trailing);
    assert long[..|BearerPrefix|] == BearerPrefix;
    assert short[..|BearerPrefix|] == BearerPrefix;
    TokenAfterPrefix(token + " " + trailing);
    TokenAfterPrefix(token);
    SplitAfterField(token, trailing);
    SplitSingleField(token);
  }

  // ---------------------------------------------------------------------
  // The check chain
  // ---------------------------------------------------------------------

  /** The request is admitted exactly when every check passes: a `Bearer `
      header whose second field is a non-empty token, a token that verifies
      to an object with an `id`, and a user with that id; the user attached
      is the one found. */
  lemma AdmitIff(header: Option<string>, verify: string -> Verified, findById: Claim -> Lookup, u: Loaded)
    ensures Decide(header, verify, findById) == Admit(u)
        <==> (&& header.Some? && StartsWith(header.value, BearerPrefix)
              && SecondField(header.value).Some? && SecondField(header.value).value != ""
              && verify(SecondField(header.value).value).Decoded?
              && verify(SecondField(header.value).value).payload.ObjectPayload?
              && "id" in verify(SecondField(header.value).value).payload.claims
              && findById(verify(SecondField(header.value).value).payload.claims["id"]) == Found(u))
  {
  }

  /** What each failing check answers once the earlier ones have passed. */
  lemma LaterRejections(token: string, verify: string -> Verified, findById: Claim -> Lookup)
    requires token != "" && ' ' !in token
    ensures var d := Decide(Some(BearerPrefix + token), verify, findById);
      && (verify(token).VerifyThrew? ==> d == Reject(401, InvalidOrExpired))
      && (verify(token).Decoded? && verify(token).payload.StringPayload? ==> d == Reject(401, InvalidPayload))
      && ((verify(token).Decoded? && verify(token).payload.ObjectPayload? && "id" !in verify(token).payload.claims)
            ==> d == Reject(401, InvalidPayload))
      && ((verify(token).Decoded? && verify(token).payload.ObjectPayload? && "id" in verify(token).payload.claims)
            ==> d == match findById(verify(token).payload.claims["id"])
                     case Found(u) => Admit(u)
                     case NotFound => Reject(401, UserNotFound)
                     case LookupThrew => Reject(401, InvalidOrExpired))
  {
    var h := BearerPrefix + token;
    assert h[..|BearerPrefix|] == BearerPrefix;
    TokenAfterPrefix(token);
    SplitSingleField(token);
  }
}
