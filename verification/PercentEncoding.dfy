/** UTF-8 (RFC 3629) and percent-encoding (sections 2.1 and 2.3 of RFC 3986), both ways. */
module PercentEncoding {
  import opened Values

  type Byte = b: int | 0 <= b < 256

  // UTF-8

  function CharBytes(c: char): (r: seq<Byte>)
    ensures r != []
  {
    var n := c as int;
    if n < 0x80 then [n]
    else if n < 0x800 then [0xc0 + n / 64, 0x80 + n % 64]
    else if n < 0x1_0000 then [0xe0 + n / 4096, 0x80 + n / 64 % 64, 0x80 + n % 64]
    else [0xf0 + n / 262144, 0x80 + n / 4096 % 64, 0x80 + n / 64 % 64, 0x80 + n % 64]
  }

  /** `s.encode("utf-8")` */
  function Utf8(s: string): seq<Byte> {
    if s == "" then [] else CharBytes(s[0]) + Utf8(s[1..])
  }

  predicate Continuation(b: Byte) {
    0x80 <= b < 0xc0
  }

  /** The six bits a continuation byte carries. */
  function Bits(b: int): int {
    b - 0x80
  }

  predicate Scalar(n: int) {
    0 <= n < 0xd800 || 0xe000 <= n < 0x11_0000
  }

  datatype Read = Read(code: int, length: nat)

  /** The code point at the front of the bytes, and how many bytes it takes. */
  function FrontCode(bytes: seq<Byte>): (r: Option<Read>)
    requires bytes != []
    ensures r.Some? ==> Scalar(r.value.code) && 0 < r.value.length <= |bytes|
  {
    var b: int := bytes[0];
    if b < 0x80 then Some(Read(b, 1))
    else if 0xc0 <= b < 0xe0 && |bytes| >= 2 && Continuation(bytes[1]) then
      var n := (b - 0xc0) * 64 + Bits(bytes[1]);
      if n >= 0x80 then Some(Read(n, 2)) else None
    else if 0xe0 <= b < 0xf0 && |bytes| >= 3 && Continuation(bytes[1]) && Continuation(bytes[2]) then
      var n := (b - 0xe0) * 4096 + Bits(bytes[1]) * 64 + Bits(bytes[2]);
      if n >= 0x800 && Scalar(n) then Some(Read(n, 3)) else None
    else if 0xf0 <= b && |bytes| >= 4 && Continuation(bytes[1]) && Continuation(bytes[2]) && Continuation(bytes[3]) then
      var n := (b - 0xf0) * 262144 + Bits(bytes[1]) * 4096 + Bits(bytes[2]) * 64 + Bits(bytes[3]);
      if n >= 0x1_0000 && Scalar(n) then Some(Read(n, 4)) else None
    else None
  }

  /** The text the bytes encode, if they are well-formed UTF-8. */
  function FromUtf8(bytes: seq<Byte>): Option<string>
    decreases |bytes|
  {
    if bytes == [] then Some("")
    else
      var front := FrontCode(bytes);
      if front.None? then None
      else
        var rest := FromUtf8(bytes[front.value.length..]);
        if rest.None? then None else Some([front.value.code as char] + rest.value)
  }

  lemma FrontOfChar(c: char, rest: seq<Byte>)
    ensures FrontCode(CharBytes(c) + rest) == Some(Read(c as int, |CharBytes(c)|))
  {
    var n := c as int;
    assert Scalar(n);
    var bytes := CharBytes(c) + rest;
    assert forall i | 0 <= i < |CharBytes(c)| :: bytes[i] == CharBytes(c)[i];
    assert n == n / 64 * 64 + n % 64;
    assert n / 64 == n / 4096 * 64 + n / 64 % 64;
    assert n / 4096 == n / 262144 * 64 + n / 4096 % 64;
  }

  lemma {:induction false} Utf8RoundTrip(s: string)
    ensures FromUtf8(Utf8(s)) == Some(s)
  {
    if s != "" {
      Utf8RoundTrip(s[1..]);
      FrontOfChar(s[0], Utf8(s[1..]));
      assert Utf8(s)[|CharBytes(s[0])|..] == Utf8(s[1..]);
      assert s == [s[0]] + s[1..];
    }
  }

  // Percent-encoding

  /** Letters, digits, hyphen, period, underscore and tilde. */
  predicate Unreserved(b: Byte) {
    0x41 <= b <= 0x5a || 0x61 <= b <= 0x7a || 0x30 <= b <= 0x39 || b == 0x2d || b == 0x2e || b == 0x5f || b == 0x7e
  }

  function HexDigit(n: int): (c: char)
    requires 0 <= n < 16
    ensures '0' <= c <= '9' || 'A' <= c <= 'F'
  {
    if n < 10 then ('0' as int + n) as char else ('A' as int + n - 10) as char
  }

  function HexValue(c: char): (r: Option<int>)
    ensures r.Some? ==> 0 <= r.value < 16
  {
    if '0' <= c <= '9' then Some(c as int - '0' as int)
    else if 'A' <= c <= 'F' then Some(c as int - 'A' as int + 10)
    else if 'a' <= c <= 'f' then Some(c as int - 'a' as int + 10)
    else None
  }

  function QuoteByte(b: Byte): string {
    if Unreserved(b) then [b as char] else ['%', HexDigit(b / 16), HexDigit(b % 16)]
  }

  function QuoteBytes(bytes: seq<Byte>): string {
    if bytes == [] then "" else QuoteByte(bytes[0]) + QuoteBytes(bytes[1..])
  }

  /** `quote(s, safe="-_.~")` */
  function Quote(s: string): string {
    QuoteBytes(Utf8(s))
  }

  /** Percent-decoding: `%` and two hex digits are a byte, an unreserved character is itself. */
  function UnquoteBytes(s: string): Option<seq<Byte>>
    decreases |s|
  {
    if s == "" then Some([])
    else if s[0] == '%' then
      if |s| < 3 || HexValue(s[1]).None? || HexValue(s[2]).None? then None
      else
        var rest := UnquoteBytes(s[3..]);
        if rest.None? then None else Some([HexValue(s[1]).value * 16 + HexValue(s[2]).value] + rest.value)
    else if s[0] as int < 128 && Unreserved(s[0] as int) then
      var rest := UnquoteBytes(s[1..]);
      if rest.None? then None else Some([s[0] as int] + rest.value)
    else None
  }

  function Unquote(s: string): Option<string> {
    var bytes := UnquoteBytes(s);
    if bytes.None? then None else FromUtf8(bytes.value)
  }

  lemma HexRoundTrip(n: int)
    requires 0 <= n < 16
    ensures HexValue(HexDigit(n)) == Some(n)
  {
  }

  lemma {:induction false} UnquoteQuoteBytes(bytes: seq<Byte>)
    ensures UnquoteBytes(QuoteBytes(bytes)) == Some(bytes)
  {
    if bytes != [] {
      UnquoteQuoteBytes(bytes[1..]);
      var b, s := bytes[0], QuoteBytes(bytes);
      if Unreserved(b) {
        assert s[1..] == QuoteBytes(bytes[1..]);
      } else {
        HexRoundTrip(b / 16);
        HexRoundTrip(b % 16);
        assert s[0] == '%' && s[1] == HexDigit(b / 16) && s[2] == HexDigit(b % 16);
        assert s[3..] == QuoteBytes(bytes[1..]);
      }
      assert bytes == [bytes[0]] + bytes[1..];
    }
  }

  /** Quoting can be undone. */
  lemma UnquoteQuote(s: string)
    ensures Unquote(Quote(s)) == Some(s)
  {
    UnquoteQuoteBytes(Utf8(s));
    Utf8RoundTrip(s);
  }

  predicate QuotedChar(c: char) {
    c == '%' || (c as int < 128 && Unreserved(c as int))
  }

  predicate AllQuoted(s: string) {
    forall i | 0 <= i < |s| :: QuotedChar(s[i])
  }

  lemma {:induction false} QuotedChars(bytes: seq<Byte>)
    ensures AllQuoted(QuoteBytes(bytes))
  {
    if bytes != [] {
      QuotedChars(bytes[1..]);
    }
  }

  /** Only unreserved characters and percent signs come out. */
  lemma QuoteIsPlain(s: string)
    ensures AllQuoted(Quote(s))
  {
    QuotedChars(Utf8(s));
  }

  const HEX := "0123456789ABCDEF"

  /** An ASCII character that needs no quoting. */
  predicate Safe(c: char) {
    'A' <= c <= 'Z' || 'a' <= c <= 'z' || '0' <= c <= '9' || c in {'-', '_', '.', '~'}
  }

  lemma HexDigitIs(n: int)
    requires 0 <= n < 16
    ensures HexDigit(n) == HEX[n]
  {
    assert HEX[0] == '0' && HEX[1] == '1' && HEX[2] == '2' && HEX[3] == '3' && HEX[4] == '4' && HEX[5] == '5'
        && HEX[6] == '6' && HEX[7] == '7' && HEX[8] == '8' && HEX[9] == '9';
    assert HEX[10] == 'A' && HEX[11] == 'B' && HEX[12] == 'C' && HEX[13] == 'D' && HEX[14] == 'E' && HEX[15] == 'F';
  }

  /** A safe character stands for itself; any other byte is a percent sign and two upper-case digits. */
  lemma ByteQuotes(b: Byte)
    ensures QuoteByte(b) == if Safe(b as char) then [b as char] else ['%', HEX[b / 16], HEX[b % 16]]
  {
    HexDigitIs(b / 16);
    HexDigitIs(b % 16);
  }

  lemma Regrouped<T>(first: seq<T>, a: seq<T>, b: seq<T>)
    ensures first + (a + b) == first + a + b
  {
  }

  lemma {:induction false} QuoteBytesJoin(a: seq<Byte>, b: seq<Byte>)
    ensures QuoteBytes(a + b) == QuoteBytes(a) + QuoteBytes(b)
  {
    if a == [] {
      assert a + b == b;
    } else {
      QuoteBytesJoin(a[1..], b);
      assert (a + b)[1..] == a[1..] + b && (a + b)[0] == a[0];
      Regrouped(QuoteByte(a[0]), QuoteBytes(a[1..]), QuoteBytes(b));
    }
  }

  lemma {:induction false} Utf8Join(a: string, b: string)
    ensures Utf8(a + b) == Utf8(a) + Utf8(b)
  {
    if a == "" {
      assert a + b == b;
    } else {
      Utf8Join(a[1..], b);
      assert (a + b)[1..] == a[1..] + b && (a + b)[0] == a[0];
      Regrouped(CharBytes(a[0]), Utf8(a[1..]), Utf8(b));
    }
  }

  /** A text is quoted character by character, and an ASCII character as one byte. */
  lemma QuotesEach(a: string, b: string, c: char)
    ensures Quote(a + b) == Quote(a) + Quote(b)
    ensures c as int < 128 ==> Quote([c]) == if Safe(c) then [c] else ['%', HEX[c as int / 16], HEX[c as int % 16]]
  {
    Utf8Join(a, b);
    QuoteBytesJoin(Utf8(a), Utf8(b));
    if c as int < 128 {
      ByteQuotes(c as int);
      assert Utf8([c]) == [c as int];
      assert QuoteBytes([c as int]) == QuoteByte(c as int);
    }
  }
}
