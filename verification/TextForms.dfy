/** The constrained texts of the contract, each by its prefix, its length and its characters; and the digits of the
    texts the contract writes, read back. */
module TextForms {
  import opened Primitives
  import opened ContractTypes
  import opened DigestFraming

  const HEX_ALPHABET := "0123456789abcdef"

  predicate Over(s: string, alphabet: string) { forall i | 0 <= i < |s| :: s[i] in alphabet }

  lemma HexAlphabet(c: char)
    ensures c in HEX_ALPHABET <==> IsHexDigit(c)
  {
    if '0' <= c <= '9' {
      assert HEX_ALPHABET[c as int - '0' as int] == c;
    } else if 'a' <= c <= 'f' {
      assert HEX_ALPHABET[c as int - 'a' as int + 10] == c;
    }
  }

  lemma OverHex(s: string)
    ensures Over(s, HEX_ALPHABET) <==> AllHex(s)
  {
    hide HEX_ALPHABET, IsHexDigit;
    forall i | 0 <= i < |s| ensures s[i] in HEX_ALPHABET <==> IsHexDigit(s[i]) {
      HexAlphabet(s[i]);
    }
  }

  /** A digest is "sha256:" and 64 lower-case hexadecimal digits. */
  lemma DigestForm(value: string)
    ensures ValidSHA256Digest(value)
       <==> exists hex :: Over(hex, HEX_ALPHABET) && |hex| == 64 && value == "sha256:" + hex
  {
    hide HEX_ALPHABET, IsHexDigit, Over;
    if ValidSHA256Digest(value) {
      var hex := value[7..];
      assert forall i | 0 <= i < |hex| :: hex[i] == value[i + 7];
      OverHex(hex);
      assert value == "sha256:" + hex;
    }
    if hex :| Over(hex, HEX_ALPHABET) && |hex| == 64 && value == "sha256:" + hex {
      OverHex(hex);
      assert forall i | 7 <= i < |value| :: value[i] == hex[i - 7];
    }
  }

  /** An object ID is "sha1:" and 40 hexadecimal digits, or "sha256:" and 64. */
  lemma ObjectIDForm(value: string)
    ensures ValidSourceObjectID(value)
       <==> exists hex :: Over(hex, HEX_ALPHABET)
                          && ((|hex| == 40 && value == "sha1:" + hex) || (|hex| == 64 && value == "sha256:" + hex))
  {
    hide HEX_ALPHABET, AllHex, Over;
    if ValidSourceObjectID(value) {
      var hex := if |value| == 45 then value[5..] else value[7..];
      OverHex(hex);
      assert value == if |value| == 45 then "sha1:" + hex else "sha256:" + hex;
    }
    if hex :| Over(hex, HEX_ALPHABET)
              && ((|hex| == 40 && value == "sha1:" + hex) || (|hex| == 64 && value == "sha256:" + hex)) {
      OverHex(hex);
      assert value[|value| - |hex|..] == hex;
    }
  }

  predicate Letter(c: char) { 'a' <= c <= 'z' || 'A' <= c <= 'Z' }

  /** The prefix and then 1 to 256 letters, digits, hyphens, dots and underscores. */
  predicate Refers(value: string, prefix: string, suffix: string)
  {
    && value == prefix + suffix && 1 <= |suffix| <= 256
    && forall c | c in suffix :: Letter(c) || '0' <= c <= '9' || c == '-' || c == '.' || c == '_'
  }

  ghost predicate IsSafeReference(value: string) { exists suffix :: Refers(value, "safe:receipt:", suffix) }

  ghost predicate IsReplayReference(value: string) { exists suffix :: Refers(value, "replay:", suffix) }

  lemma SafeReferenceForm(value: string)
    ensures ValidSafeReference(value) <==> IsSafeReference(value)
  {
    if ValidSafeReference(value) {
      assert Refers(value, "safe:receipt:", value[13..]);
    }
    if suffix :| Refers(value, "safe:receipt:", suffix) {
      assert value[..13] == "safe:receipt:" && value[13..] == suffix;
      assert forall i | 0 <= i < |suffix| :: suffix[i] in suffix;
    }
  }

  lemma ReplayReferenceForm(value: string)
    ensures ValidReplayReference(value) <==> IsReplayReference(value)
  {
    if ValidReplayReference(value) {
      assert Refers(value, "replay:", value[7..]);
    }
    if suffix :| Refers(value, "replay:", suffix) {
      assert value[..7] == "replay:" && value[7..] == suffix;
      assert forall i | 0 <= i < |suffix| :: suffix[i] in suffix;
    }
  }

  /** A failure code is a lower-case letter and up to 63 further ones, digits, hyphens and dots. */
  lemma CodeForm(value: string)
    ensures ValidCode(value)
       <==> && 1 <= |value| <= 64 && 'a' <= value[0] <= 'z'
            && forall c | c in value :: 'a' <= c <= 'z' || '0' <= c <= '9' || c == '-' || c == '.'
  {
    assert forall i | 0 <= i < |value| :: value[i] in value;
  }

  // ----- text order -----

  /** After a common prefix the first text ends, or has the smaller byte. */
  predicate LessAt(a: string, b: string, k: nat)
  {
    k <= |a| && k < |b| && a[..k] == b[..k] && (k == |a| || a[k] < b[k])
  }

  lemma LaterDifferenceSharesHead(a: string, b: string, k: nat)
    requires k > 0 && LessAt(a, b, k)
    ensures a != "" && b != "" && a[0] == b[0]
  {
    assert a[..k][0] == b[..k][0];
  }

  lemma {:induction false} TextLessExactly(a: string, b: string)
    ensures TextLess(a, b) <==> exists k: nat :: LessAt(a, b, k)
  {
    if a == "" || b == "" || a[0] != b[0] {
      assert b != "" && (a == "" || a[0] < b[0]) ==> LessAt(a, b, 0);
      if k: nat :| k > 0 && LessAt(a, b, k) {
        LaterDifferenceSharesHead(a, b, k);
        assert false;
      }
    } else {
      TextLessExactly(a[1..], b[1..]);
      if k: nat :| LessAt(a[1..], b[1..], k) {
        assert a[..k + 1] == [a[0]] + a[1..][..k] && b[..k + 1] == [b[0]] + b[1..][..k];
        assert LessAt(a, b, k + 1);
      }
      if k: nat :| LessAt(a, b, k) {
        assert k > 0;
        assert a[1..][..k - 1] == a[..k][1..] && b[1..][..k - 1] == b[..k][1..];
        assert LessAt(a[1..], b[1..], k - 1);
      }
    }
  }

  // ----- digits, most significant first -----

  function HexValue(c: char): (n: nat)
    requires IsHexDigit(c)
    ensures n < 16
  {
    if c <= '9' then c as int - '0' as int else c as int - 'a' as int + 10
  }

  /** Reads two digits a byte, the high one first. */
  function HexDecode(h: string): string
    requires AllHex(h) && |h| % 2 == 0
  {
    if h == "" then "" else [(16 * HexValue(h[0]) + HexValue(h[1])) as char] + HexDecode(h[2..])
  }

  /** Reading the text back, high digit first, gives the bytes. */
  lemma {:induction false} HexDecodeEncode(s: string)
    requires IsByteString(s)
    ensures AllHex(HexEncode(s)) && HexDecode(HexEncode(s)) == s
  {
    if s == "" {
    } else {
      HexDecodeEncode(s[1..]);
      assert HexEncode(s)[2..] == HexEncode(s[1..]);
      assert s == [s[0]] + s[1..];
    }
  }

  lemma DigitOfValue(c: char)
    requires IsHexDigit(c)
    ensures HexDigit(HexValue(c)) == c
  {
  }

  /** Writing what was read gives the same digits, so each even number of digits is the text of some bytes. */
  lemma {:induction false} HexEncodeDecode(h: string)
    requires AllHex(h) && |h| % 2 == 0
    ensures IsByteString(HexDecode(h)) && HexEncode(HexDecode(h)) == h
  {
    hide HexDigit, HexValue;
    if h == "" {
    } else {
      var s, high, low := HexDecode(h), HexValue(h[0]), HexValue(h[1]);
      HexEncodeDecode(h[2..]);
      assert s[1..] == HexDecode(h[2..]) && s[0] as int == 16 * high + low;
      assert (16 * high + low) / 16 == high && (16 * high + low) % 16 == low;
      DigitOfValue(h[0]);
      DigitOfValue(h[1]);
      assert h == [h[0], h[1]] + h[2..];
    }
  }

  /** The text of a sum is its prefix and 64 digits, and the bytes are read back from the digits. */
  lemma DigestTextDecodes(sum: Sum)
    ensures var hex := DigestText(sum)[7..];
            && DigestText(sum) == "sha256:" + hex && |hex| == 64 && AllHex(hex) && HexDecode(hex) == sum
  {
    HexDecodeEncode(sum);
    assert DigestText(sum)[7..] == HexEncode(sum);
  }

  /** What a digest says: the prefix, and the digits of the sum of a stream that reads back as domain and parts. */
  lemma DigestRead(sha256: Sha256, domain: string, parts: seq<string>)
    requires Addressable([domain] + parts)
    ensures var text, stream := DigestOf(sha256, domain, parts), Frames([domain] + parts);
            && |text| == 71 && text[..7] == "sha256:" && AllHex(text[7..]) && HexDecode(text[7..]) == sha256(stream)
            && Parse(stream) == Some([domain] + parts)
  {
    hide Frames, HexDecode;
    DigestTextDecodes(sha256(Preimage(domain, parts)));
    ParseFrames([domain] + parts);
  }

  /** Reads a decimal text, the most significant digit first. */
  function FromDecimal(s: string): int
  {
    if s == "" then 0 else 10 * FromDecimal(s[..|s| - 1]) + (s[|s| - 1] as int - '0' as int)
  }

  /** Reading a decimal text gives the number, and there is no leading zero. */
  lemma {:induction false} DecimalDecodes(n: nat)
    ensures FromDecimal(Decimal(n)) == n && (Decimal(n)[0] == '0' ==> n == 0)
  {
    if n < 10 {
      assert Decimal(n)[..0] == "";
    } else {
      DecimalDecodes(n / 10);
      var s := Decimal(n);
      assert s[..|s| - 1] == Decimal(n / 10);
    }
  }
}
