/**
 * `JSON.stringify` and `JSON.parse` of the user record the frontend keeps in
 * local storage: an object of string members in the order the `User` type
 * declares them, with the two timestamps left out when absent. Strings are
 * escaped as `JSON.stringify` escapes them; the parser reads that format
 * back.
 */
module UserJson {
  import opened Wrappers
  import opened JsStrings

  /** The frontend's `User` (frontend/src/types/auth.types.ts). */
  datatype User = User(id: string, name: string, email: string, role: string,
                       createdAt: Option<string>, updatedAt: Option<string>)

  // ---------------------------------------------------------------------
  // Strings
  // ---------------------------------------------------------------------

  function HexDigit(n: nat): char
    requires n < 16
  {
    if n < 10 then ('0' as int + n) as char else ('a' as int + n - 10) as char
  }

  /** How `JSON.stringify` writes one character inside a string literal. */
  function EscapeChar(c: char): string {
    if c == '"' then "\\\""
    else if c == '\\' then "\\\\"
    else if c == '\U{8}' then "\\b"
    else if c == '\U{C}' then "\\f"
    else if c == '\n' then "\\n"
    else if c == '\r' then "\\r"
    else if c == '\t' then "\\t"
    else if c < ' ' then "\\u00" + [HexDigit(c as int / 16), HexDigit(c as int % 16)]
    else [c]
  }

  function Escape(s: string): string {
    if s == [] then [] else EscapeChar(s[0]) + Escape(s[1..])
  }

  function Quote(s: string): string {
    "\"" + Escape(s) + "\""
  }

  function HexValue(c: char): Option<nat> {
    if '0' <= c <= '9' then Some(c as int - '0' as int)
    else if 'a' <= c <= 'f' then Some(c as int - 'a' as int + 10)
    else if 'A' <= c <= 'F' then Some(c as int - 'A' as int + 10)
    else None
  }

  /** The character a `\uXXXX` escape stands for; a lone surrogate half has
      no character of its own and is refused. */
  function UnicodeEscape(h: string): Option<char>
    requires |h| == 4
  {
    var a, b, c, d := HexValue(h[0]), HexValue(h[1]), HexValue(h[2]), HexValue(h[3]);
    if a.None? || b.None? || c.None? || d.None? then None
    else
      var v := a.value * 4096 + b.value * 256 + c.value * 16 + d.value;
      if 0xD800 <= v <= 0xDFFF then None else Some(v as char)
  }

  function Prepend(c: char, r: Option<(string, string)>): Option<(string, string)> {
    match r
    case None => None
    case Some((text, rest)) => Some(([c] + text, rest))
  }

  /** Reads the inside of a string literal up to its closing quote: the text
      and what follows the quote. */
  function ParseChars(s: string): Option<(string, string)>
    decreases |s|
  {
    if s == [] then None
    else if s[0] == '"' then Some(([], s[1..]))
    else if s[0] == '\\' then
      if |s| < 2 then None
      else if s[1] == '"' then Prepend('"', ParseChars(s[2..]))
      else if s[1] == '\\' then Prepend('\\', ParseChars(s[2..]))
      else if s[1] == '/' then Prepend('/', ParseChars(s[2..]))
      else if s[1] == 'b' then Prepend('\U{8}', ParseChars(s[2..]))
      else if s[1] == 'f' then Prepend('\U{C}', ParseChars(s[2..]))
      else if s[1] == 'n' then Prepend('\n', ParseChars(s[2..]))
      else if s[1] == 'r' then Prepend('\r', ParseChars(s[2..]))
      else if s[1] == 't' then Prepend('\t', ParseChars(s[2..]))
      else if s[1] == 'u' && |s| >= 6 then
        var c := UnicodeEscape(s[2..6]);
        if c.None? then None else Prepend(c.value, ParseChars(s[6..]))
      else None
    else if s[0] < ' ' then None
    else Prepend(s[0], ParseChars(s[1..]))
  }

  function ParseString(s: string): Option<(string, string)> {
    if s != [] && s[0] == '"' then ParseChars(s[1..]) else None
  }

  /** One escaped character is read back as that character. */
  lemma ParseEscapedChar(c: char, t: string)
    ensures ParseChars(EscapeChar(c) + t) == Prepend(c, ParseChars(t))
  {
    var s := EscapeChar(c) + t;
    if c == '"' || c == '\\' || c == '\U{8}' || c == '\U{C}' || c == '\n' || c == '\r' || c == '\t' {
      assert s[2..] == t;
    } else if c < ' ' {
      var hi, lo := c as int / 16, c as int % 16;
      assert s[2..6] == ['0', '0', HexDigit(hi), HexDigit(lo)];
      assert HexValue(HexDigit(hi)) == Some(hi);
      assert HexValue(HexDigit(lo)) == Some(lo);
      assert s[6..] == t;
    } else {
      assert s[1..] == t;
    }
  }

  /** Reading back an escaped string gives the string and what follows it. */
  lemma {:induction false} ParseCharsEscape(s: string, rest: string)
    ensures ParseChars(Escape(s) + "\"" + rest) == Some((s, rest))
    decreases |s|
  {
    if s == [] {
      assert Escape(s) + "\"" + rest == "\"" + rest;
      assert ("\"" + rest)[1..] == rest;
    } else {
      assert Escape(s) + "\"" + rest == EscapeChar(s[0]) + (Escape(s[1..]) + "\"" + rest);
      ParseEscapedChar(s[0], Escape(s[1..]) + "\"" + rest);
      ParseCharsEscape(s[1..], rest);
      assert [s[0]] + s[1..] == s;
    }
  }

  lemma ParseQuote(s: string, rest: string)
    ensures ParseString(Quote(s) + rest) == Some((s, rest))
  {
    assert (Quote(s) + rest)[1..] == Escape(s) + "\"" + rest;
    ParseCharsEscape(s, rest);
  }

  // ---------------------------------------------------------------------
  // The user object
  // ---------------------------------------------------------------------

  /** `,"key":` (or `{"key":` for the first member). */
  function MemberPrefix(first: bool, key: string): string {
    (if first then "{" else ",") + Quote(key) + ":"
  }

  /** A member written after `prefix`, followed by `rest`. */
  function WithMember(prefix: string, value: string, rest: string): string {
    prefix + Quote(value) + rest
  }

  function OptionalMember(key: string, value: Option<string>, rest: string): string {
    if value.Some? then WithMember(MemberPrefix(false, key), value.value, rest) else rest
  }

  /** What follows the `role` member: the timestamps that are present, and
      the closing brace. */
  function EncodeTail(createdAt: Option<string>, updatedAt: Option<string>): string {
    OptionalMember("createdAt", createdAt, OptionalMember("updatedAt", updatedAt, "}"))
  }

  /** `JSON.stringify(user)`. */
  function Encode(u: User): string {
    WithMember(MemberPrefix(true, "_id"), u.id,
      WithMember(MemberPrefix(false, "name"), u.name,
        WithMember(MemberPrefix(false, "email"), u.email,
          WithMember(MemberPrefix(false, "role"), u.role,
            EncodeTail(u.createdAt, u.updatedAt)))))
  }

  /** Reads `prefix` followed by a string literal. */
  function Member(prefix: string, s: string): Option<(string, string)> {
    if StartsWith(s, prefix) then ParseString(s[|prefix|..]) else None
  }

  /** Reads an optional member: absent when the text does not start with its
      prefix. */
  function Optional(prefix: string, s: string): Option<(Option<string>, string)> {
    if StartsWith(s, prefix) then
      match ParseString(s[|prefix|..])
      case None => None
      case Some((v, rest)) => Some((Some(v), rest))
    else Some((None, s))
  }

  /** Reads the optional timestamps and the closing brace. */
  function DecodeTail(s: string): Option<(Option<string>, Option<string>)> {
    match Optional(MemberPrefix(false, "createdAt"), s)
    case None => None
    case Some((createdAt, s1)) =>
      match Optional(MemberPrefix(false, "updatedAt"), s1)
      case None => None
      case Some((updatedAt, s2)) =>
        if s2 == "}" then Some((createdAt, updatedAt)) else None
  }

  /** `JSON.parse(text)` of a stored user. */
  function Decode(s: string): Option<User> {
    match Member(MemberPrefix(true, "_id"), s)
    case None => None
    case Some((id, s1)) =>
      match Member(MemberPrefix(false, "name"), s1)
      case None => None
      case Some((name, s2)) =>
        match Member(MemberPrefix(false, "email"), s2)
        case None => None
        case Some((email, s3)) =>
          match Member(MemberPrefix(false, "role"), s3)
          case None => None
          case Some((role, s4)) =>
            match DecodeTail(s4)
            case None => None
            case Some((createdAt, updatedAt)) => Some(User(id, name, email, role, createdAt, updatedAt))
  }

  lemma ReadMember(prefix: string, v: string, rest: string)
    ensures Member(prefix, WithMember(prefix, v, rest)) == Some((v, rest))
  {
    var s := prefix + Quote(v) + rest;
    assert s[..|prefix|] == prefix;
    assert s[|prefix|..] == Quote(v) + rest;
    ParseQuote(v, rest);
  }

  lemma ReadOptionalPresent(prefix: string, v: string, rest: string)
    ensures Optional(prefix, WithMember(prefix, v, rest)) == Some((Some(v), rest))
  {
    var s := prefix + Quote(v) + rest;
    assert s[..|prefix|] == prefix;
    assert s[|prefix|..] == Quote(v) + rest;
    ParseQuote(v, rest);
  }

  lemma ReadOptionalAbsent(prefix: string, rest: string)
    requires !StartsWith(rest, prefix)
    ensures Optional(prefix, rest) == Some((None, rest))
  {
  }

  /** The timestamps are read back as they were written. */
  lemma DecodeTailEncode(createdAt: Option<string>, updatedAt: Option<string>)
    ensures DecodeTail(EncodeTail(createdAt, updatedAt)) == Some((createdAt, updatedAt))
  {
    var pc, pu := MemberPrefix(false, "createdAt"), MemberPrefix(false, "updatedAt");
    var s1 := OptionalMember("updatedAt", updatedAt, "}");
    assert pc[2] == 'c' && pu[2] == 'u';
    if updatedAt.Some? {
      ReadOptionalPresent(pu, updatedAt.value, "}");
      assert s1[2] == 'u';
    } else {
      ReadOptionalAbsent(pu, "}");
    }
    if createdAt.Some? {
      ReadOptionalPresent(pc, createdAt.value, s1);
    } else {
      ReadOptionalAbsent(pc, s1);
    }
  }

  /** Parsing what `JSON.stringify` wrote gives the user back. */
  lemma DecodeEncode(u: User)
    ensures Decode(Encode(u)) == Some(u)
  {
    var tail := EncodeTail(u.createdAt, u.updatedAt);
    var s3 := WithMember(MemberPrefix(false, "role"), u.role, tail);
    var s2 := WithMember(MemberPrefix(false, "email"), u.email, s3);
    var s1 := WithMember(MemberPrefix(false, "name"), u.name, s2);
    ReadMember(MemberPrefix(true, "_id"), u.id, s1);
    ReadMember(MemberPrefix(false, "name"), u.name, s2);
    ReadMember(MemberPrefix(false, "email"), u.email, s3);
    ReadMember(MemberPrefix(false, "role"), u.role, tail);
    DecodeTailEncode(u.createdAt, u.updatedAt);
  }

  /** What `JSON.stringify` writes is never the empty string, so it counts as
      present when read back from storage. */
  lemma EncodeNotEmpty(u: User)
    ensures Encode(u) != "" && Encode(u)[0] == '{'
  {
  }
}
