/** What a text becomes when it is written as JSON and read back: UTF-8 passes unchanged, every byte that
    is not part of an encoded rune comes back as the replacement character U+FFFD. */
module JsonText {

  predicate ByteWithin(s: string, i: nat, low: int, high: int) { i < |s| && low <= s[i] as int <= high }

  /** The length of the encoded rune at the front (section 4 of RFC 3629); 0 when there is none. */
  function RuneWidth(s: string): (w: nat)
    requires s != ""
    ensures w <= |s|
  {
    var b := s[0] as int;
    if b < 0x80 then 1
    else if 0xC2 <= b < 0xE0 then
      if ByteWithin(s, 1, 0x80, 0xBF) then 2 else 0
    else if 0xE0 <= b < 0xF0 then
      if ByteWithin(s, 1, if b == 0xE0 then 0xA0 else 0x80, if b == 0xED then 0x9F else 0xBF)
         && ByteWithin(s, 2, 0x80, 0xBF) then 3 else 0
    else if 0xF0 <= b <= 0xF4 then
      if ByteWithin(s, 1, if b == 0xF0 then 0x90 else 0x80, if b == 0xF4 then 0x8F else 0xBF)
         && ByteWithin(s, 2, 0x80, 0xBF) && ByteWithin(s, 3, 0x80, 0xBF) then 4 else 0
    else 0
  }

  /** A Unicode scalar value: a code point that is not a surrogate. */
  predicate Scalar(c: int) { 0 <= c < 0xD800 || 0xE000 <= c <= 0x10FFFF }

  /** The UTF-8 encoding of a scalar value: six bits a continuation byte, high bits first. */
  function EncodeRune(c: int): (s: string)
    requires Scalar(c)
    ensures s != ""
  {
    if c < 0x80 then [c as char]
    else if c < 0x800 then [(0xC0 + c / 64) as char, (0x80 + c % 64) as char]
    else if c < 0x10000 then
      [(0xE0 + c / 4096) as char, (0x80 + c / 64 % 64) as char, (0x80 + c % 64) as char]
    else
      [(0xF0 + c / 262144) as char, (0x80 + c / 4096 % 64) as char, (0x80 + c / 64 % 64) as char,
       (0x80 + c % 64) as char]
  }

  lemma EncodedHasWidth(c: int, tail: string)
    requires Scalar(c)
    ensures RuneWidth(EncodeRune(c) + tail) == |EncodeRune(c)|
  {
    var s := EncodeRune(c) + tail;
    assert forall i | 0 <= i < |EncodeRune(c)| :: s[i] == EncodeRune(c)[i];
  }

  /** Continuation bytes hold six bits each. */
  lemma SixBits(high: nat, x: nat, y: nat, z: nat)
    requires x < 64 && y < 64 && z < 64
    ensures (high * 64 + z) / 64 == high && (high * 64 + z) % 64 == z
    ensures var c := high * 4096 + y * 64 + z;
            c / 4096 == high && c / 64 % 64 == y && c % 64 == z
    ensures var c := high * 262144 + x * 4096 + y * 64 + z;
            c / 262144 == high && c / 4096 % 64 == x && c / 64 % 64 == y && c % 64 == z
  {
    assert (high * 4096 + y * 64 + z) / 64 == high * 64 + y;
    assert (high * 262144 + x * 4096 + y * 64 + z) / 64 == high * 4096 + x * 64 + y;
    assert (high * 262144 + x * 4096 + y * 64 + z) / 4096 == high * 64 + x;
  }

  lemma WidthBytes(s: string)
    requires s != "" && RuneWidth(s) > 1
    ensures forall i | 1 <= i < RuneWidth(s) :: 0x80 <= s[i] as int <= 0xBF
    ensures var b, second, w := s[0] as int, s[1] as int, RuneWidth(s);
            || (w == 2 && 0xC2 <= b < 0xE0)
            || (w == 3 && 0xE0 <= b < 0xF0 && (b == 0xE0 ==> 0xA0 <= second) && (b == 0xED ==> second <= 0x9F))
            || (w == 4 && 0xF0 <= b <= 0xF4 && (b == 0xF0 ==> 0x90 <= second) && (b == 0xF4 ==> second <= 0x8F))
  {
  }

  lemma RuneIsEncoded(s: string) returns (c: int)
    requires s != "" && RuneWidth(s) > 0
    ensures Scalar(c) && s[..RuneWidth(s)] == EncodeRune(c)
  {
    var w, b := RuneWidth(s), s[0] as int;
    if w == 1 {
      assert b < 0x80;
      return b;
    }
    WidthBytes(s);
    hide RuneWidth;
    var second := s[1] as int - 0x80;
    if w == 2 {
      SixBits(b - 0xC0, 0, 0, second);
      c := (b - 0xC0) * 64 + second;
    } else if w == 3 {
      var third := s[2] as int - 0x80;
      SixBits(b - 0xE0, 0, second, third);
      c := (b - 0xE0) * 4096 + second * 64 + third;
    } else {
      var third, fourth := s[2] as int - 0x80, s[3] as int - 0x80;
      SixBits(b - 0xF0, second, third, fourth);
      c := (b - 0xF0) * 262144 + second * 4096 + third * 64 + fourth;
    }
  }

  /** A rune of this width is at the front exactly when the text starts with the encoding of a scalar value. */
  lemma RuneWidthExactly(s: string, w: nat)
    requires s != "" && 0 < w <= |s|
    ensures RuneWidth(s) == w <==> exists c :: Scalar(c) && s[..w] == EncodeRune(c)
  {
    hide RuneWidth, EncodeRune;
    if RuneWidth(s) == w {
      var c := RuneIsEncoded(s);
    }
    if c :| Scalar(c) && s[..w] == EncodeRune(c) {
      EncodedHasWidth(c, s[w..]);
      assert s == s[..w] + s[w..];
    }
  }

  predicate ValidUTF8(s: string)
  {
    s == "" || (RuneWidth(s) > 0 && ValidUTF8(s[RuneWidth(s)..]))
  }

  // U+FFFD in UTF-8.
  const REPLACEMENT := "\U{EF}\U{BF}\U{BD}"

  function Reread(s: string): (t: string)
    ensures t == "" <==> s == ""
  {
    if s == "" then ""
    else
      var w := RuneWidth(s);
      if w == 0 then REPLACEMENT + Reread(s[1..]) else s[..w] + Reread(s[w..])
  }

  lemma RuneWidthIsLocal(s: string, tail: string)
    requires s != "" && RuneWidth(s) > 0
    ensures s[..RuneWidth(s)] + tail != "" && RuneWidth(s[..RuneWidth(s)] + tail) == RuneWidth(s)
  {
  }

  lemma {:induction false} RereadIsValid(s: string)
    ensures ValidUTF8(Reread(s))
    decreases |s|
  {
    if s == "" {
    } else {
      var w := RuneWidth(s);
      if w == 0 {
        var t := Reread(s[1..]);
        RereadIsValid(s[1..]);
        assert (REPLACEMENT + t)[3..] == t;
      } else {
        var t := Reread(s[w..]);
        RereadIsValid(s[w..]);
        RuneWidthIsLocal(s, t);
        assert (s[..w] + t)[w..] == t;
      }
    }
  }

  lemma {:induction false} ValidIsReread(s: string)
    requires ValidUTF8(s)
    ensures Reread(s) == s
    decreases |s|
  {
    if s == "" {
    } else {
      ValidIsReread(s[RuneWidth(s)..]);
      assert s == s[..RuneWidth(s)] + s[RuneWidth(s)..];
    }
  }

  /** The texts that survive JSON are exactly the UTF-8 ones. */
  lemma SurvivesExactly(s: string)
    ensures Reread(s) == s <==> ValidUTF8(s)
  {
    hide Reread, ValidUTF8;
    RereadIsValid(s);
    if ValidUTF8(s) {
      ValidIsReread(s);
    }
  }

  lemma {:induction false} AsciiSurvives(s: string)
    requires forall i | 0 <= i < |s| :: s[i] as int < 0x80
    ensures Reread(s) == s
  {
    if s == "" {
    } else {
      AsciiSurvives(s[1..]);
      assert RuneWidth(s) == 1 && s == s[..1] + s[1..];
    }
  }

  /** A stray byte does not survive: it comes back as three. */
  lemma StrayByteIsReplaced(c: char)
    requires 0x80 <= c as int < 0x100
    ensures Reread("/" + [c]) == "/" + REPLACEMENT == "/" + EncodeRune(0xFFFD)
    ensures Reread("/" + [c]) != "/" + [c]
  {
    var s := "/" + [c];
    assert s[1..] == [c] && [c][1..] == "";
    assert Reread([c]) == REPLACEMENT;
  }
}
