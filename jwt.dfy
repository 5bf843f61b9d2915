/**
 * The text of a token as jsonwebtoken writes it in compact form: the
 * base64url segments of the header and of the payload's JSON, over their
 * UTF-8 bytes, then the signature. The signature is an HMAC of the first two
 * segments and enters as a parameter, as does the text of an id.
 */
module Jwt {
  import opened Common
  import opened Crypto

  /** The UTF-8 encoding of one Unicode scalar value. */
  function CharUtf8(c: char): (r: seq<byte>)
    ensures 1 <= |r| <= 4
    ensures |r| == 1 <==> c as int < 0x80
    ensures |r| == 1 ==> r[0] == c as int
  {
    var n := c as int;
    if n < 0x80 then [n]
    else if n < 0x800 then [0xC0 + n / 0x40, 0x80 + n % 0x40]
    else if n < 0x1_0000 then [0xE0 + n / 0x1000, 0x80 + n / 0x40 % 0x40, 0x80 + n % 0x40]
    else [0xF0 + n / 0x4_0000, 0x80 + n / 0x1000 % 0x40, 0x80 + n / 0x40 % 0x40, 0x80 + n % 0x40]
  }

  /** The UTF-8 encoding of a string: at least one byte per character. */
  function Utf8(s: string): (r: seq<byte>)
    ensures |r| >= |s|
  {
    if s == [] then [] else CharUtf8(s[0]) + Utf8(s[1..])
  }

  lemma {:induction false} Utf8Append(a: string, b: string)
    ensures Utf8(a + b) == Utf8(a) + Utf8(b)
  {
    if a == [] {
      assert a + b == b;
    } else {
      assert (a + b)[0] == a[0] && (a + b)[1..] == a[1..] + b;
      Utf8Append(a[1..], b);
    }
  }

  /** The base64url alphabet: `A`-`Z`, `a`-`z`, `0`-`9`, `-` and `_`. */
  function Digit64(n: int): char
    requires 0 <= n < 64
  {
    if n < 26 then ('A' as int + n) as char
    else if n < 52 then ('a' as int + (n - 26)) as char
    else if n < 62 then ('0' as int + (n - 52)) as char
    else if n == 62 then '-'
    else '_'
  }

  /** Three bytes as four base64url characters. */
  function Group(x: byte, y: byte, z: byte): (r: string)
    ensures |r| == 4
  {
    [Digit64(x / 4), Digit64(x % 4 * 16 + y / 16), Digit64(y % 16 * 4 + z / 64), Digit64(z % 64)]
  }

  /** The last one or two bytes, without padding. */
  function Tail(bs: seq<byte>): (r: string)
    requires |bs| < 3
    ensures |r| == (4 * |bs| + 2) / 3
  {
    if |bs| == 2 then [Digit64(bs[0] / 4), Digit64(bs[0] % 4 * 16 + bs[1] / 16), Digit64(bs[1] % 16 * 4)]
    else if |bs| == 1 then [Digit64(bs[0] / 4), Digit64(bs[0] % 4 * 16)]
    else []
  }

  /**
   * Base64url without padding: every three bytes become four characters, and
   * a final one or two bytes become two or three.
   */
  function Base64Url(bs: seq<byte>): (r: string)
    ensures |r| == (4 * |bs| + 2) / 3
    decreases |bs|
  {
    if |bs| >= 3 then Group(bs[0], bs[1], bs[2]) + Base64Url(bs[3..]) else Tail(bs)
  }

  /** Encoding is piecewise on whole groups of three bytes. */
  lemma {:induction false} Base64UrlAppend(a: seq<byte>, b: seq<byte>)
    requires |a| % 3 == 0
    ensures Base64Url(a + b) == Base64Url(a) + Base64Url(b)
    decreases |a|
  {
    if a == [] {
      assert a + b == b;
    } else {
      var ab := a + b;
      assert ab[0] == a[0] && ab[1] == a[1] && ab[2] == a[2];
      assert ab[3..] == a[3..] + b;
      Base64UrlAppend(a[3..], b);
      calc {
        Base64Url(ab);
        Group(a[0], a[1], a[2]) + Base64Url(a[3..] + b);
        Group(a[0], a[1], a[2]) + (Base64Url(a[3..]) + Base64Url(b));
      }
    }
  }

  function DecimalDigits(n: nat): (r: string)
    ensures |r| >= 1
  {
    if n < 10 then [('0' as int + n) as char]
    else DecimalDigits(n / 10) + [('0' as int + n % 10) as char]
  }

  /** `JSON.stringify` of an integer. */
  function NumberText(i: int): string {
    if i < 0 then "-" + DecimalDigits(-i) else DecimalDigits(i)
  }

  function HexDigit(n: int): char
    requires 0 <= n < 16
  {
    "0123456789abcdef"[n]
  }

  /** How `JSON.stringify` writes one character inside a string literal. */
  function EscapedChar(c: char): string {
    if c == '"' then "\\\""
    else if c == '\\' then "\\\\"
    else if c == '\U{0008}' then "\\b"
    else if c == '\U{000C}' then "\\f"
    else if c == '\n' then "\\n"
    else if c == '\r' then "\\r"
    else if c == '\t' then "\\t"
    else if c as int < 0x20 then "\\u00" + [HexDigit(c as int / 16), HexDigit(c as int % 16)]
    else [c]
  }

  function Escaped(s: string): string {
    if s == [] then "" else EscapedChar(s[0]) + Escaped(s[1..])
  }

  /** `JSON.stringify` of a string. */
  function JsonString(s: string): (r: string)
    ensures |r| >= 2
  {
    "\"" + Escaped(s) + "\""
  }

  /**
   * The first segment of every token: the base64url encoding of the header
   * `{"alg":"HS256","typ":"JWT"}` that jsonwebtoken writes for HS256, its
   * default algorithm.
   */
  const HeaderSegment: string := "eyJhbGciOiJIUzI1NiIsInR5cCI6IkpXVCJ9"

  /**
   * The start of the payload text, which the claims alone fix: the keys of
   * `{ sub, username, role }` in that order, then the key of the `iat` the
   * library adds.
   */
  function ClaimsJson(c: Claims, subText: string): (r: string)
    ensures |r| >= 40
  {
    var r := "{\"sub\":" + JsonString(subText) + ",\"username\":" + JsonString(c.username)
      + ",\"role\":" + JsonString(RoleName(c.role)) + ",\"iat\":";
    assert |"{\"sub\":"| == 7 && |",\"username\":"| == 12 && |",\"role\":"| == 8 && |",\"iat\":"| == 7;
    r
  }

  /** The rest of the payload text: the issue time and the `exp` that `expiresIn` gives, in seconds. */
  function TimesJson(issuedAt: Timestamp, expiresIn: nat): string {
    NumberText(issuedAt) + ",\"exp\":" + NumberText(issuedAt + expiresIn) + "}"
  }

  /** The two segments the signature covers: header, a dot, payload. */
  function SigningInput(c: Claims, subText: string, issuedAt: Timestamp, expiresIn: nat): string {
    HeaderSegment + "." + Base64Url(Utf8(ClaimsJson(c, subText) + TimesJson(issuedAt, expiresIn)))
  }

  /**
   * The string a token is sent and stored as: for a signed token, the
   * signing input, a dot and `mac(secret, input)`; any other string as it is.
   */
  function TokenText(t: Token, subText: Uuid -> string, mac: (string, string) -> string): (r: string)
    ensures t.Garbage? ==> r == t.text
    ensures t.Signed? ==>
      var input := SigningInput(t.claims, subText(t.claims.sub), t.issuedAt, t.expiresIn);
      |r| > |input| && r[..|input|] == input && r[|input|] == '.'
  {
    match t
    case Garbage(text) => text
    case Signed(claims, secret, issuedAt, expiresIn) =>
      var input := SigningInput(claims, subText(claims.sub), issuedAt, expiresIn);
      var r := input + "." + mac(secret, input);
      assert r[..|input|] == input && r[|input|] == '.';
      r
  }

  /**
   * Two tokens over the same claims have the same first 72 bytes, whatever
   * their secrets, issue times and lifetimes: the header segment takes 36
   * characters, the dot one, and the next 36 encode the first 27 bytes of
   * the payload text, which the claims fix.
   */
  lemma SameClaimsSameFirst72Bytes(c: Claims, secret1: string, secret2: string, issued1: Timestamp,
                                   issued2: Timestamp, expires1: nat, expires2: nat,
                                   subText: Uuid -> string, mac: (string, string) -> string)
    ensures BcryptInput(Utf8(TokenText(Signed(c, secret1, issued1, expires1), subText, mac))) ==
            BcryptInput(Utf8(TokenText(Signed(c, secret2, issued2, expires2), subText, mac)))
  {
    var x := ClaimsJson(c, subText(c.sub));
    var in1 := SigningInput(c, subText(c.sub), issued1, expires1);
    var in2 := SigningInput(c, subText(c.sub), issued2, expires2);
    SharedStart(HeaderSegment, x, TimesJson(issued1, expires1), mac(secret1, in1));
    SharedStart(HeaderSegment, x, TimesJson(issued2, expires2), mac(secret2, in2));
  }

  /** The payload segment starts with the encoding of the first 27 bytes of its text. */
  lemma SegmentStart(x: string, y: string)
    requires |x| >= 27
    ensures Base64Url(Utf8(x + y)) == Base64Url(Utf8(x)[..27]) + Base64Url(Utf8(x)[27..] + Utf8(y))
  {
    var u := Utf8(x);
    Utf8Append(x, y);
    assert u + Utf8(y) == u[..27] + (u[27..] + Utf8(y));
    Base64UrlAppend(u[..27], u[27..] + Utf8(y));
  }

  /**
   * A header of 36 characters, a dot and a payload segment whose text starts
   * with `x`: the first 72 bytes depend on the header and `x` alone.
   */
  lemma SharedStart(h: string, x: string, y: string, m: string)
    requires |h| >= 36 && |x| >= 27
    ensures BcryptInput(Utf8(h + "." + Base64Url(Utf8(x + y)) + "." + m)) ==
            BcryptInput(Utf8(h + "." + Base64Url(Utf8(x)[..27])))
  {
    SegmentStart(x, y);
    var common := h + "." + Base64Url(Utf8(x)[..27]);
    var rest := Base64Url(Utf8(x)[27..] + Utf8(y));
    var tail := rest + "." + m;
    assert h + "." + Base64Url(Utf8(x + y)) + "." + m == common + tail;
    Utf8Append(common, tail);
    BcryptInputOfLonger(Utf8(common), Utf8(tail));
  }
}
