/** The PHP runtime primitives the Direct API client relies on. PHP strings are
    byte strings, so every string of the client is a sequence of bytes here. */
module Php {

  newtype byte = x: int | 0 <= x < 256

  type Bytes = seq<byte>

  /** An ASCII literal of the PHP source as bytes, one byte per character.
      Only ASCII literals are written with it; the others are spelled out as
      their UTF-8 bytes. */
  function Ascii(s: string): (r: Bytes)
    ensures |r| == |s|
    ensures forall i :: 0 <= i < |s| && s[i] < 0x80 as char ==> r[i] as int == s[i] as int
  {
    seq(|s|, i requires 0 <= i < |s| => (s[i] as int % 0x100) as byte)
  }

  predicate IsAscii(s: Bytes) {
    forall i :: 0 <= i < |s| ==> s[i] < 0x80
  }

  /** One ISO-8859-1 byte as UTF-8: the byte is its own code point, so bytes
      below 0x80 stay as they are and the others become the two bytes
      0xC0 | (b >> 6) and 0x80 | (b & 0x3F). */
  function Latin1Char(b: byte): (r: Bytes)
  {
    if b < 0x80 then [b] else [(0xC0 + b as int / 0x40) as byte, (0x80 + b as int % 0x40) as byte]
  }

  /** PHP's utf8_encode: converts an ISO-8859-1 string to UTF-8, byte by byte. */
  function Utf8Encode(s: Bytes): (r: Bytes)
    ensures |s| <= |r| <= 2 * |s|
    ensures IsAscii(s) ==> r == s
  {
    if s == [] then [] else Latin1Char(s[0]) + Utf8Encode(s[1..])
  }

  /** Two different ISO-8859-1 strings never give the same UTF-8 string. */
  lemma {:induction false} Utf8EncodeInjective(s: Bytes, t: Bytes)
    requires Utf8Encode(s) == Utf8Encode(t)
    ensures s == t
  {
    if s == [] || t == [] {
      assert |Utf8Encode(s)| >= |s| && |Utf8Encode(t)| >= |t|;
    } else {
      var cs, ct := Latin1Char(s[0]), Latin1Char(t[0]);
      var u := Utf8Encode(s);
      assert u == cs + Utf8Encode(s[1..]) && u == ct + Utf8Encode(t[1..]);
      assert u[0] == cs[0] == ct[0];
      assert s[0] == t[0] by {
        if s[0] >= 0x80 {
          assert u[1] == cs[1] == ct[1];
        }
      }
      assert Utf8Encode(s[1..]) == u[|cs|..] == Utf8Encode(t[1..]);
      Utf8EncodeInjective(s[1..], t[1..]);
      assert s == [s[0]] + s[1..] && t == [t[0]] + t[1..];
    }
  }

  /** utf8_encode is not idempotent: a second application re-encodes the bytes
      the first one produced (0xE9 gives C3 A9, and that gives C3 83 C2 A9). */
  lemma Utf8EncodeNotIdempotent()
    ensures exists s :: Utf8Encode(Utf8Encode(s)) != Utf8Encode(s)
  {
    var s: Bytes := [0xE9];
    assert Utf8Encode(s) == [0xC3, 0xA9];
    assert |Utf8Encode(Utf8Encode(s))| == 4;
  }

  /** PHP's ucfirst (byte-wise, ASCII letters only): upper-cases the first byte
      when it is a lower-case ASCII letter and leaves the rest alone. */
  function Ucfirst(s: Bytes): (r: Bytes)
    ensures |r| == |s| && (s != [] ==> r[1..] == s[1..])
    ensures s != [] && 'a' as byte <= s[0] <= 'z' as byte ==> r[0] == s[0] - 0x20 && 'A' as byte <= r[0] <= 'Z' as byte
    ensures s != [] && !('a' as byte <= s[0] <= 'z' as byte) ==> r[0] == s[0]
  {
    if s != [] && 'a' as byte <= s[0] <= 'z' as byte then [s[0] - 0x20] + s[1..] else s
  }

  /** ucfirst leaves its own result unchanged. */
  lemma UcfirstIdempotent(s: Bytes)
    ensures Ucfirst(Ucfirst(s)) == Ucfirst(s)
  {
  }

  /** Truth value of a PHP string: only "" and "0" are false. */
  predicate StrTruthy(s: Bytes) {
    s != [] && s != ['0' as byte]
  }

  /** The string form of an integer is true exactly when the integer is: only
      0 prints as "0". */
  lemma {:induction false} DecimalStringTruthy(i: int)
    ensures StrTruthy(DecimalString(i)) <==> i != 0
  {
    if i < 0 {
      assert |DecimalString(i)| >= 2;
    } else if 0 < i < 10 {
      assert DecimalString(i) == [(0x30 + i) as byte];
    } else if i >= 10 {
      assert |Digits(i)| >= 2;
    }
  }

  /** The decimal digits of n, without leading zeros. */
  function Digits(n: nat): (r: Bytes)
    ensures |r| >= 1 && (|r| == 1 <==> n < 10)
    ensures forall i :: 0 <= i < |r| ==> '0' as byte <= r[i] <= '9' as byte
  {
    if n < 10 then [(0x30 + n) as byte] else Digits(n / 10) + [(0x30 + n % 10) as byte]
  }

  /** Different numbers have different digits. */
  lemma {:induction false} DigitsInjective(m: nat, n: nat)
    requires Digits(m) == Digits(n)
    ensures m == n
  {
    if m >= 10 && n >= 10 {
      var d := Digits(m);
      assert d[|d| - 1] == (0x30 + m % 10) as byte == (0x30 + n % 10) as byte;
      assert Digits(m / 10) == d[..|d| - 1] == Digits(n / 10);
      DigitsInjective(m / 10, n / 10);
    }
  }

  /** PHP's conversion of an integer to a string. */
  function DecimalString(i: int): (r: Bytes)
    ensures |r| >= 1 && (r[0] == '-' as byte <==> i < 0)
  {
    if i < 0 then ['-' as byte] + Digits(-i) else Digits(i)
  }

  /** Different integers have different decimal strings. */
  lemma DecimalStringInjective(i: int, j: int)
    requires DecimalString(i) == DecimalString(j)
    ensures i == j
  {
    if i < 0 {
      assert Digits(-i) == DecimalString(i)[1..] == Digits(-j);
      DigitsInjective(-i, -j);
    } else {
      DigitsInjective(i, j);
    }
  }

  predicate IsAlnum(b: byte) {
    ('0' as byte <= b <= '9' as byte) || ('A' as byte <= b <= 'Z' as byte) || ('a' as byte <= b <= 'z' as byte)
  }

  /** A byte that urlencode leaves as it is. */
  predicate Unreserved(b: byte) {
    IsAlnum(b) || b == '-' as byte || b == '_' as byte || b == '.' as byte
  }

  function HexDigit(n: int): (r: byte)
    requires 0 <= n < 16
    ensures IsAlnum(r)
  {
    if n < 10 then (0x30 + n) as byte else (0x41 + n - 10) as byte
  }

  function UrlEncodeByte(b: byte): (r: Bytes) {
    if Unreserved(b) then [b]
    else if b == ' ' as byte then ['+' as byte]
    else ['%' as byte, HexDigit(b as int / 16), HexDigit(b as int % 16)]
  }

  /** PHP's urlencode (the form http_build_query uses): letters, digits and
      "-_." stay, a space becomes "+", every other byte becomes "%" and two
      upper-case hexadecimal digits. */
  function UrlEncode(s: Bytes): (r: Bytes)
    ensures forall i :: 0 <= i < |r| ==> Unreserved(r[i]) || r[i] == '+' as byte || r[i] == '%' as byte
    ensures (forall i :: 0 <= i < |s| ==> Unreserved(s[i])) ==> r == s
  {
    if s == [] then [] else UrlEncodeByte(s[0]) + UrlEncode(s[1..])
  }

  /** Each byte's code starts with a byte that tells its length, so a code
      followed by anything gives back the byte and the rest. */
  lemma UrlEncodeByteUnique(b1: byte, rest1: Bytes, b2: byte, rest2: Bytes)
    requires UrlEncodeByte(b1) + rest1 == UrlEncodeByte(b2) + rest2
    ensures b1 == b2 && rest1 == rest2
  {
    var x, y := UrlEncodeByte(b1), UrlEncodeByte(b2);
    assert x[0] == (x + rest1)[0] == (y + rest2)[0] == y[0];
    if |x| == 3 && |y| == 3 {
      assert x[1] == (x + rest1)[1] == (y + rest2)[1] == y[1];
      assert x[2] == (x + rest1)[2] == (y + rest2)[2] == y[2];
      HexDigitInjective(b1 as int / 16, b2 as int / 16);
      HexDigitInjective(b1 as int % 16, b2 as int % 16);
    }
    assert x == y;
    assert rest1 == (x + rest1)[|x|..] == (y + rest2)[|y|..] == rest2;
  }

  lemma HexDigitInjective(m: int, n: int)
    requires 0 <= m < 16 && 0 <= n < 16 && HexDigit(m) == HexDigit(n)
    ensures m == n
  {
  }

  /** urlencode loses nothing: different strings have different encodings, so
      every value in the authorization link can be read back. */
  lemma {:induction false} UrlEncodeInjective(s: Bytes, t: Bytes)
    requires UrlEncode(s) == UrlEncode(t)
    ensures s == t
  {
    if s != [] && t != [] {
      UrlEncodeByteUnique(s[0], UrlEncode(s[1..]), t[0], UrlEncode(t[1..]));
      UrlEncodeInjective(s[1..], t[1..]);
      assert s == [s[0]] + s[1..];
      assert t == [t[0]] + t[1..];
    }
  }

  /** `needle` occurs in `hay` as a contiguous run of bytes. */
  predicate Contains(hay: Bytes, needle: Bytes) {
    exists i :: 0 <= i <= |hay| && needle <= hay[i..]
  }

  lemma ContainsItself(s: Bytes)
    ensures Contains(s, s)
  {
    assert s <= s[0..];
  }

  /** What a string contains, any string that starts with it contains too. */
  lemma ContainsInLeft(a: Bytes, b: Bytes, needle: Bytes)
    requires Contains(a, needle)
    ensures Contains(a + b, needle)
  {
    var i :| 0 <= i <= |a| && needle <= a[i..];
    assert needle <= (a + b)[i..];
  }

  /** What a string contains, any string that ends with it contains too. */
  lemma ContainsInRight(a: Bytes, b: Bytes, needle: Bytes)
    requires Contains(b, needle)
    ensures Contains(a + b, needle)
  {
    var i :| 0 <= i <= |b| && needle <= b[i..];
    assert (a + b)[|a| + i..] == b[i..];
  }

  /** What a part of a string contains, the string contains too. */
  lemma ContainsTransitive(a: Bytes, b: Bytes, c: Bytes)
    requires Contains(a, b) && Contains(b, c)
    ensures Contains(a, c)
  {
    var i :| 0 <= i <= |a| && b <= a[i..];
    var j :| 0 <= j <= |b| && c <= b[j..];
    forall k | 0 <= k < |c| ensures a[i + j + k] == c[k] {
      assert c[k] == b[j + k] == a[i + j + k];
    }
    assert c <= a[i + j..];
  }
}
