/** Go's fixed-width integers, text order, digests and decimal formatting. A Go string and a
    Go byte slice are both a `string` here, one `char` standing for one byte. */
module Primitives {

  datatype Option<+T> = None | Some(value: T)

  datatype Result<+T, +E> = Ok(value: T) | Err(error: E)

  const TWO8: int := 0x100
  const TWO16: int := 0x1_0000
  const TWO63: int := 0x8000_0000_0000_0000
  const TWO64: int := 0x1_0000_0000_0000_0000

  type uint8 = x: int | 0 <= x < TWO8
  type uint16 = x: int | 0 <= x < TWO16
  type uint64 = x: int | 0 <= x < TWO64

  // An instant, in nanoseconds after Go's zero time.
  type Time = int

  const ZERO_TIME: Time := 0
  const SECOND: int := 1_000_000_000

  /** The conversions `uint8(x)`, `uint16(x)` and `uint64(x)` keep the low bits. */
  function ToUint8(x: int): uint8 { x % TWO8 }

  function ToUint16(x: int): uint16 { x % TWO16 }

  function ToUint64(x: int): uint64 { x % TWO64 }

  /** Go's `a < b` on strings: bytewise lexicographic order. */
  predicate TextLess(a: string, b: string)
  {
    b != "" && (a == "" || a[0] < b[0] || (a[0] == b[0] && TextLess(a[1..], b[1..])))
  }

  lemma {:induction false} TextLessTransitive(a: string, b: string, c: string)
    requires TextLess(a, b) && TextLess(b, c)
    ensures TextLess(a, c)
  {
    if a == "" || a[0] != b[0] || b[0] != c[0] {
    } else {
      TextLessTransitive(a[1..], b[1..], c[1..]);
    }
  }

  lemma {:induction false} TextLessIrreflexive(a: string)
    ensures !TextLess(a, a)
  {
    if a == "" {
    } else {
      TextLessIrreflexive(a[1..]);
    }
  }

  // ----- SHA-256 digests as text -----

  const DIGEST_PREFIX := "sha256:"

  predicate IsByte(c: char) { c < '\U{0100}' }

  predicate IsByteString(s: string) { forall i | 0 <= i < |s| :: IsByte(s[i]) }

  // The 32 bytes a SHA-256 computation returns.
  type Sum = s: string | |s| == 32 && IsByteString(s) witness seq(32, i => 'a')

  // SHA-256 itself is never interpreted: every statement holds for any such function.
  type Sha256 = string -> Sum

  predicate IsHexDigit(c: char) { '0' <= c <= '9' || 'a' <= c <= 'f' }

  predicate ValidSHA256Digest(value: string)
  {
    && |value| == |DIGEST_PREFIX| + 64
    && value[..|DIGEST_PREFIX|] == DIGEST_PREFIX
    && forall i | |DIGEST_PREFIX| <= i < |value| :: IsHexDigit(value[i])
  }

  function HexDigit(n: nat): (c: char)
    requires n < 16
    ensures IsHexDigit(c)
  {
    if n < 10 then '0' + n as char else 'a' + (n - 10) as char
  }

  function HexEncode(s: string): (h: string)
    requires IsByteString(s)
    ensures |h| == 2 * |s| && forall i | 0 <= i < |h| :: IsHexDigit(h[i])
  {
    if s == "" then "" else [HexDigit(s[0] as int / 16), HexDigit(s[0] as int % 16)] + HexEncode(s[1..])
  }

  lemma {:induction false} HexEncodeInjective(s: string, t: string)
    requires IsByteString(s) && IsByteString(t)
    requires HexEncode(s) == HexEncode(t)
    ensures s == t
  {
    if s == "" || t == "" {
    } else {
      var hs, ht := HexEncode(s), HexEncode(t);
      assert hs[2..] == HexEncode(s[1..]) && ht[2..] == HexEncode(t[1..]);
      HexEncodeInjective(s[1..], t[1..]);
      assert hs[0] == ht[0] && hs[1] == ht[1];
      assert s[0] as int == 16 * (s[0] as int / 16) + s[0] as int % 16;
      assert t[0] as int == 16 * (t[0] as int / 16) + t[0] as int % 16;
      assert s == [s[0]] + s[1..] && t == [t[0]] + t[1..];
    }
  }

  function DigestText(sum: Sum): (d: string)
    ensures ValidSHA256Digest(d)
  {
    DIGEST_PREFIX + HexEncode(sum)
  }

  lemma DigestTextInjective(a: Sum, b: Sum)
    requires DigestText(a) == DigestText(b)
    ensures a == b
  {
    assert DigestText(a)[|DIGEST_PREFIX|..] == HexEncode(a);
    assert DigestText(b)[|DIGEST_PREFIX|..] == HexEncode(b);
    HexEncodeInjective(a, b);
  }

  // ----- decimal formatting (`%d`) -----

  predicate IsDigit(c: char) { '0' <= c <= '9' }

  function Decimal(n: nat): (s: string)
    ensures s != "" && forall i | 0 <= i < |s| :: IsDigit(s[i])
  {
    if n < 10 then ['0' + n as char] else Decimal(n / 10) + ['0' + (n % 10) as char]
  }

  lemma {:induction false} DecimalInjective(a: nat, b: nat)
    requires Decimal(a) == Decimal(b)
    ensures a == b
  {
    var s, t := Decimal(a), Decimal(b);
    assert s[|s| - 1] == '0' + (a % 10) as char;
    assert t[|t| - 1] == '0' + (b % 10) as char;
    if a < 10 || b < 10 {
    } else {
      assert s[..|s| - 1] == Decimal(a / 10) && t[..|t| - 1] == Decimal(b / 10);
      DecimalInjective(a / 10, b / 10);
    }
  }

  lemma ShorterHeadLeavesSeparator(s: string, x: string, t: string, y: string, separator: char)
    requires s + [separator] + x == t + [separator] + y
    requires |s| < |t|
    ensures separator in x
  {
    var whole := s + [separator] + x;
    assert whole[|t|] == (t + [separator] + y)[|t|] == separator;
    assert whole[|t|] == x[|t| - |s| - 1];
  }

  /** Two texts ending in a separator and a separator-free tail agree only when both pieces do. */
  lemma LastSeparator(s: string, x: string, t: string, y: string, separator: char)
    requires s + [separator] + x == t + [separator] + y
    requires separator !in x && separator !in y
    ensures s == t && x == y
  {
    if |s| < |t| {
      ShorterHeadLeavesSeparator(s, x, t, y, separator);
      assert false;
    } else if |t| < |s| {
      ShorterHeadLeavesSeparator(t, y, s, x, separator);
      assert false;
    } else {
      var whole := s + [separator] + x;
      assert s == whole[..|s|] && t == (t + [separator] + y)[..|t|];
      assert x == whole[|s| + 1..] && y == (t + [separator] + y)[|t| + 1..];
    }
  }
}
