/** The text form of the records the sign-in flow keeps in browser storage: what
    `JSON.stringify` writes for them, and a reader for that text standing in for
    `JSON.parse`. Only the canonical form the writer produces is read back; any other
    text reads as "does not parse". */
module JsonText {
  import opened Base

  /** The user record kept under `cognito_user`. */
  datatype Attributes = Attributes(name: string, email: string)
  datatype User = User(attributes: Attributes, username: string, authCode: string)

  // ---------------------------------------------------------------------------
  // String literals

  function HexDigit(n: nat): char
    requires n < 16
  {
    "0123456789abcdef"[n]
  }

  function HexValue(c: char): Option<nat> {
    if '0' <= c <= '9' then Some(c as nat - '0' as nat)
    else if 'a' <= c <= 'f' then Some(c as nat - 'a' as nat + 10)
    else if 'A' <= c <= 'F' then Some(c as nat - 'A' as nat + 10)
    else None
  }

  /** How `JSON.stringify` writes one character inside a string literal. */
  function EscapeChar(c: char): (r: string)
    ensures r != []
  {
    if c == '"' then ['\\', '"']
    else if c == '\\' then ['\\', '\\']
    else if c == '\U{8}' then ['\\', 'b']
    else if c == '\t' then ['\\', 't']
    else if c == '\n' then ['\\', 'n']
    else if c == '\U{C}' then ['\\', 'f']
    else if c == '\r' then ['\\', 'r']
    else if c < ' ' then ['\\', 'u', '0', '0', HexDigit(c as nat / 16), HexDigit(c as nat % 16)]
    else [c]
  }

  function Escape(v: string): string
    decreases |v|
  {
    if v == [] then [] else EscapeChar(v[0]) + Escape(v[1..])
  }

  /** A JSON string literal for `v`. */
  function Quote(v: string): string {
    ['"'] + Escape(v) + ['"']
  }

  /** Reads the escape sequence that follows a backslash: the character it stands for
      and how many characters it spans. */
  function Unescape(s: string): (r: Option<(char, nat)>)
    ensures r.Some? ==> 1 <= r.value.1 <= |s|
  {
    if s == [] then None
    else if s[0] == '"' then Some(('"', 1))
    else if s[0] == '\\' then Some(('\\', 1))
    else if s[0] == '/' then Some(('/', 1))
    else if s[0] == 'b' then Some(('\U{8}', 1))
    else if s[0] == 'f' then Some(('\U{C}', 1))
    else if s[0] == 'n' then Some(('\n', 1))
    else if s[0] == 'r' then Some(('\r', 1))
    else if s[0] == 't' then Some(('\t', 1))
    else if s[0] == 'u' && |s| >= 5 then
      var d1, d2, d3, d4 := HexValue(s[1]), HexValue(s[2]), HexValue(s[3]), HexValue(s[4]);
      if d1.None? || d2.None? || d3.None? || d4.None? then None
      else
        var code := ((d1.value * 16 + d2.value) * 16 + d3.value) * 16 + d4.value;
        if code < 0xD800 || 0xE000 <= code < 0x11_0000 then Some((code as char, 5)) else None
    else None
  }

  /** Reads the body of a string literal up to its closing quote: the value and the
      text after the quote. */
  function ParseStringBody(s: string): Option<(string, string)>
    decreases |s|
  {
    if s == [] then None
    else if s[0] == '"' then Some(([], s[1..]))
    else if s[0] == '\\' then
      var e :- Unescape(s[1..]);
      var tail :- ParseStringBody(s[1 + e.1..]);
      Some(([e.0] + tail.0, tail.1))
    else if s[0] < ' ' then None
    else
      var tail :- ParseStringBody(s[1..]);
      Some(([s[0]] + tail.0, tail.1))
  }

  /** Reads a string literal at the start of `s`. */
  function ParseString(s: string): Option<(string, string)> {
    if s != [] && s[0] == '"' then ParseStringBody(s[1..]) else None
  }

  /** Consumes the fixed text `lit` at the start of `s`. */
  function Expect(lit: string, s: string): Option<string> {
    if lit <= s then Some(s[|lit|..]) else None
  }

  lemma ExpectLiteral(lit: string, rest: string)
    ensures Expect(lit, lit + rest) == Some(rest)
  {
    assert lit <= lit + rest;
    assert (lit + rest)[|lit|..] == rest;
  }

  lemma HexRoundTrip(n: nat)
    requires n < 16
    ensures HexValue(HexDigit(n)) == Some(n)
  {
  }

  /** Reading back the escape sequence of an escaped character. */
  lemma UnescapeEscapeChar(c: char, t: string)
    requires EscapeChar(c)[0] == '\\'
    ensures |EscapeChar(c)| >= 2
    ensures Unescape(EscapeChar(c)[1..] + t) == Some((c, |EscapeChar(c)| - 1))
  {
    var s := EscapeChar(c)[1..] + t;
    if c < ' ' && c != '\U{8}' && c != '\t' && c != '\n' && c != '\U{C}' && c != '\r' {
      var hi, lo := c as nat / 16, c as nat % 16;
      HexRoundTrip(hi);
      HexRoundTrip(lo);
      assert s[0] == 'u' && s[1] == '0' && s[2] == '0' && s[3] == HexDigit(hi) && s[4] == HexDigit(lo);
      assert ((0 * 16 + 0) * 16 + hi) * 16 + lo == c as nat;
    } else {
      assert s[0] == EscapeChar(c)[1];
    }
  }

  /** Reading one written character: the reader gives back that character and then
      goes on exactly as it would on the text that follows. */
  lemma ParseEscapeCharStep(c: char, t: string)
    ensures ParseStringBody(EscapeChar(c) + t) ==
      match ParseStringBody(t)
      case None => None
      case Some(p) => Some(([c] + p.0, p.1))
  {
    var s := EscapeChar(c) + t;
    var n := |EscapeChar(c)|;
    if EscapeChar(c)[0] == '\\' {
      UnescapeEscapeChar(c, t);
      assert s[0] == '\\';
      assert s[1..] == EscapeChar(c)[1..] + t;
      assert s[1 + (n - 1)..] == t;
    } else {
      assert EscapeChar(c) == [c] && ' ' <= c && c != '"';
      assert s[0] == c && s[1..] == t;
    }
  }

  /** The reader inverts the writer on string bodies, whatever follows the closing quote. */
  lemma {:induction false} ParseStringBodyEscape(v: string, rest: string)
    ensures ParseStringBody(Escape(v) + ['"'] + rest) == Some((v, rest))
    decreases |v|
  {
    if v == [] {
      assert Escape(v) + ['"'] + rest == ['"'] + rest;
    } else {
      var t := Escape(v[1..]) + ['"'] + rest;
      assert Escape(v) + ['"'] + rest == EscapeChar(v[0]) + t;
      ParseEscapeCharStep(v[0], t);
      ParseStringBodyEscape(v[1..], rest);
      assert [v[0]] + v[1..] == v;
    }
  }

  lemma ParseStringQuote(v: string, rest: string)
    ensures ParseString(Quote(v) + rest) == Some((v, rest))
  {
    var s := Quote(v) + rest;
    assert s[0] == '"';
    assert s[1..] == Escape(v) + ['"'] + rest;
    ParseStringBodyEscape(v, rest);
  }

  // ---------------------------------------------------------------------------
  // The stored user record

  const NameField := "{\"attributes\":{\"name\":"
  const EmailField := ",\"email\":"
  const UsernameField := "},\"username\":"
  const AuthCodeField := ",\"authCode\":"
  const Close := "}"

  /** `JSON.stringify` of a user record, with its keys in insertion order. */
  function EncodeUser(u: User): (text: string)
    ensures text != [] && text[0] == '{'
  {
    NameField + (Quote(u.attributes.name) + (EmailField + (Quote(u.attributes.email) +
      (UsernameField + (Quote(u.username) + (AuthCodeField + (Quote(u.authCode) + Close)))))))
  }

  /** Reads a user record back; `None` for text that is not the canonical form of one. */
  function DecodeUser(text: string): (r: Option<User>)
    ensures r.Some? ==> NameField <= text
  {
    var t1 :- Expect(NameField, text);
    var name :- ParseString(t1);
    var t2 :- Expect(EmailField, name.1);
    var email :- ParseString(t2);
    var t3 :- Expect(UsernameField, email.1);
    var username :- ParseString(t3);
    var t4 :- Expect(AuthCodeField, username.1);
    var code :- ParseString(t4);
    var t5 :- Expect(Close, code.1);
    if t5 == [] then Some(User(Attributes(name.0, email.0), username.0, code.0)) else None
  }

  /** What is written reads back as the same record. */
  lemma DecodeEncodeUser(u: User)
    ensures DecodeUser(EncodeUser(u)) == Some(u)
  {
    var n, e, un, c := u.attributes.name, u.attributes.email, u.username, u.authCode;
    var r4 := Quote(c) + Close;
    var r3 := Quote(un) + (AuthCodeField + r4);
    var r2 := Quote(e) + (UsernameField + r3);
    var r1 := Quote(n) + (EmailField + r2);
    ExpectLiteral(NameField, r1);
    ParseStringQuote(n, EmailField + r2);
    ExpectLiteral(EmailField, r2);
    ParseStringQuote(e, UsernameField + r3);
    ExpectLiteral(UsernameField, r3);
    ParseStringQuote(un, AuthCodeField + r4);
    ExpectLiteral(AuthCodeField, r4);
    ParseStringQuote(c, Close);
    ExpectLiteral(Close, []);
    assert Close + [] == Close;
  }

  // ---------------------------------------------------------------------------
  // The record the local sign-in form keeps under `user`

  /** `JSON.stringify({ email, name })`. */
  function EncodeFormUser(email: string, name: string): (text: string)
    ensures text != [] && text[0] == '{'
  {
    "{\"email\":" + (Quote(email) + (",\"name\":" + (Quote(name) + Close)))
  }
}
