/** The length-prefixed stream every digest of the contract is computed over. */
module DigestFraming {
  import opened Primitives

  /** The low `width` bytes of `n`, most significant first; `width == 8` is `PutUint64`. */
  function BigEndian(n: nat, width: nat): (s: string)
    ensures |s| == width && IsByteString(s)
  {
    if width == 0 then "" else BigEndian(n / 256, width - 1) + [(n % 256) as char]
  }

  function FromBigEndian(s: string): nat
  {
    if s == "" then 0 else 256 * FromBigEndian(s[..|s| - 1]) + s[|s| - 1] as int
  }

  function Pow256(k: nat): nat { if k == 0 then 1 else 256 * Pow256(k - 1) }

  lemma {:induction false} BigEndianDecodes(n: nat, width: nat)
    requires n < Pow256(width)
    ensures FromBigEndian(BigEndian(n, width)) == n
  {
    if width == 0 {
    } else {
      BigEndianDecodes(n / 256, width - 1);
      var s := BigEndian(n, width);
      assert s[..|s| - 1] == BigEndian(n / 256, width - 1);
    }
  }

  lemma {:induction false} BigEndianEncodes(s: string)
    requires IsByteString(s)
    ensures FromBigEndian(s) < Pow256(|s|) && BigEndian(FromBigEndian(s), |s|) == s
  {
    if s == "" {
    } else {
      var init, last := s[..|s| - 1], s[|s| - 1];
      BigEndianEncodes(init);
      var n := FromBigEndian(s);
      assert n / 256 == FromBigEndian(init) && n % 256 == last as int;
      assert s == init + [last];
    }
  }

  lemma Pow256Of8()
    ensures Pow256(8) == TWO64
  {
    assert Pow256(4) == 0x1_0000_0000;
    assert Pow256(8) == 256 * (256 * (256 * (256 * Pow256(4))));
  }

  /** One part: its length in eight bytes, then its bytes. */
  function Frame(part: string): string { BigEndian(ToUint64(|part|), 8) + part }

  function Frames(parts: seq<string>): string
  {
    if parts == [] then "" else Frame(parts[0]) + Frames(parts[1..])
  }

  /** Every Go slice is shorter than this. */
  predicate Addressable(parts: seq<string>) { forall i | 0 <= i < |parts| :: |parts[i]| < TWO64 }

  function Preimage(domain: string, parts: seq<string>): string { Frames([domain] + parts) }

  function DigestOf(sha256: Sha256, domain: string, parts: seq<string>): string
  {
    DigestText(sha256(Preimage(domain, parts)))
  }

  /** Reads the parts back from a stream; `None` when the stream is not a whole number of parts. */
  function Parse(stream: string): Option<seq<string>>
    decreases |stream|
  {
    if stream == "" then Some([])
    else if |stream| < 8 || !IsByteString(stream[..8]) then None
    else
      var end := 8 + FromBigEndian(stream[..8]);
      if |stream| < end then None
      else match Parse(stream[end..])
        case None => None
        case Some(rest) => Some([stream[8..end]] + rest)
  }

  lemma {:induction false} ParseFrames(parts: seq<string>)
    requires Addressable(parts)
    ensures Parse(Frames(parts)) == Some(parts)
  {
    hide BigEndian, FromBigEndian, Pow256;
    if parts == [] {
    } else {
      var part, rest := parts[0], parts[1..];
      var stream := Frames(parts);
      var header := BigEndian(|part|, 8);
      assert stream == header + (part + Frames(rest));
      assert stream[..8] == header;
      Pow256Of8();
      BigEndianDecodes(|part|, 8);
      assert stream[8..8 + |part|] == part;
      assert stream[8 + |part|..] == Frames(rest);
      ParseFrames(rest);
      assert parts == [part] + rest;
    }
  }

  lemma HeaderEncodes(header: string, part: string)
    requires |header| == 8 && IsByteString(header) && FromBigEndian(header) == |part|
    ensures |part| < TWO64 && Frame(part) == header + part
  {
    hide BigEndian, FromBigEndian, Pow256;
    BigEndianEncodes(header);
    Pow256Of8();
  }

  lemma {:induction false} FramesParse(stream: string)
    requires Parse(stream).Some?
    ensures Addressable(Parse(stream).value) && Frames(Parse(stream).value) == stream
    decreases |stream|
  {
    hide BigEndian, FromBigEndian, Frame;
    if stream == "" {
    } else {
      var header := stream[..8];
      var end := 8 + FromBigEndian(header);
      var part, tail := stream[8..end], stream[end..];
      HeaderEncodes(header, part);
      FramesParse(tail);
      var rest := Parse(tail).value;
      assert Parse(stream).value == [part] + rest;
      assert ([part] + rest)[1..] == rest;
      assert stream == header + part + tail;
    }
  }

  /** The decoder recovers exactly the part lists that produce a stream, and no other list. */
  lemma ParseInvertsFrames(stream: string, parts: seq<string>)
    ensures Parse(stream) == Some(parts) <==> Addressable(parts) && Frames(parts) == stream
  {
    if Parse(stream).Some? {
      FramesParse(stream);
    }
    if Addressable(parts) {
      ParseFrames(parts);
    }
  }

  /** Different domains, or different part lists, never share a preimage. */
  lemma PreimageDetermines(domain: string, parts: seq<string>, domain': string, parts': seq<string>)
    requires Addressable([domain] + parts) && Addressable([domain'] + parts')
    requires Preimage(domain, parts) == Preimage(domain', parts')
    ensures domain == domain' && parts == parts'
  {
    ParseFrames([domain] + parts);
    ParseFrames([domain'] + parts');
    assert ([domain] + parts)[1..] == parts && ([domain'] + parts')[1..] == parts';
    assert ([domain] + parts)[0] == domain && ([domain'] + parts')[0] == domain';
  }

  /** SHA-256 does not map these two preimages to one sum, unless they are the same preimage. */
  ghost predicate CollisionFree(sha256: Sha256, p: string, q: string) { sha256(p) == sha256(q) ==> p == q }

  /** Equal digests come from the same domain and the same parts, short of a SHA-256 collision. */
  lemma DigestDetermines(sha256: Sha256, domain: string, parts: seq<string>, domain': string, parts': seq<string>)
    requires Addressable([domain] + parts) && Addressable([domain'] + parts')
    requires CollisionFree(sha256, Preimage(domain, parts), Preimage(domain', parts'))
    ensures DigestOf(sha256, domain, parts) == DigestOf(sha256, domain', parts')
       <==> domain == domain' && parts == parts'
  {
    if DigestOf(sha256, domain, parts) == DigestOf(sha256, domain', parts') {
      DigestTextInjective(sha256(Preimage(domain, parts)), sha256(Preimage(domain', parts')));
      PreimageDetermines(domain, parts, domain', parts');
    }
  }

  lemma {:induction false} FramesAppend(parts: seq<string>, part: string)
    ensures Frames(parts + [part]) == Frames(parts) + Frame(part)
  {
    if parts == [] {
      assert Frames([part]) == Frame(part) + Frames([part][1..]);
    } else {
      assert (parts + [part])[1..] == parts[1..] + [part];
      FramesAppend(parts[1..], part);
    }
  }

  /** The hash being fed: all it remembers is what was written. */
  class DigestWriter {
    var stream: string

    constructor ()
      ensures stream == ""
    {
      stream := "";
    }

    method Write(value: string)
      modifies this
      ensures stream == old(stream) + value
    {
      stream := stream + value;
    }
  }

  method WriteDigestPart(w: DigestWriter, value: string)
    modifies w
    ensures w.stream == old(w.stream) + Frame(value)
  {
    var size := BigEndian(ToUint64(|value|), 8);
    w.Write(size);
    w.Write(value);
    assert w.stream == old(w.stream) + (size + value);
  }

  method DigestParts(sha256: Sha256, domain: string, parts: seq<string>) returns (digest: string)
    ensures ValidSHA256Digest(digest)
    ensures digest == DigestOf(sha256, domain, parts)
  {
    var w := new DigestWriter();
    WriteDigestPart(w, domain);
    ghost var written := [domain];
    assert Frames(written) == Frame(domain) + Frames(written[1..]);
    for i := 0 to |parts|
      invariant w.stream == Frames(written) && written == [domain] + parts[..i]
      invariant fresh(w)
    {
      FramesAppend(written, parts[i]);
      WriteDigestPart(w, parts[i]);
      written := written + [parts[i]];
    }
    assert written == [domain] + parts;
    digest := DigestText(sha256(w.stream));
  }
}
