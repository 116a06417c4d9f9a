/** Which source paths are canonical. Go's `path.Clean` is modelled by its documented rules:
    drop empty and "." elements, let ".." cancel the element before it, keep leading ".." only in
    a relative path. */
module CanonicalPath {
  /** The elements between slashes; the empty string has one, empty, element. */
  function Split(s: string): (elements: seq<string>)
    ensures elements != [] && forall i | 0 <= i < |elements| :: '/' !in elements[i]
  {
    if s == "" then [""]
    else
      var rest := Split(s[1..]);
      if s[0] == '/' then [""] + rest else [[s[0]] + rest[0]] + rest[1..]
  }

  function Join(elements: seq<string>): string
  {
    if elements == [] then ""
    else if |elements| == 1 then elements[0]
    else elements[0] + "/" + Join(elements[1..])
  }

  /** One element of a path read after the elements kept so far. */
  function Keep(kept: seq<string>, element: string, rooted: bool): seq<string>
  {
    if element == "" || element == "." then kept
    else if element != ".." then kept + [element]
    else if kept != [] && kept[|kept| - 1] != ".." then kept[..|kept| - 1]
    else if rooted then kept
    else kept + [".."]
  }

  function KeepAll(kept: seq<string>, elements: seq<string>, rooted: bool): seq<string>
    decreases |elements|
  {
    if elements == [] then kept else KeepAll(Keep(kept, elements[0], rooted), elements[1..], rooted)
  }

  predicate IsAbs(value: string) { value != "" && value[0] == '/' }

  function Clean(value: string): string
  {
    var body := Join(KeepAll([], Split(value), IsAbs(value)));
    if IsAbs(value) then "/" + body else if body == "" then "." else body
  }

  predicate HasPrefix(value: string, prefix: string) { |prefix| <= |value| && value[..|prefix|] == prefix }

  predicate AllowedChar(c: char) { '\U{001f}' < c && c != '\U{007f}' && c != '\\' }

  predicate ValidCanonicalSourcePath(value: string)
  {
    && !(value == "" || value == "." || IsAbs(value) || Clean(value) != value || '\\' in value
         || value == ".." || HasPrefix(value, "../"))
    && forall i | 0 <= i < |value| :: !(value[i] <= '\U{001f}' || value[i] == '\U{007f}')
  }

  /** An ordinary element: it names something below the directory before it. */
  predicate Ordinary(element: string) { element != "" && element != "." && element != ".." }

  predicate AllOrdinary(elements: seq<string>) { forall i | 0 <= i < |elements| :: Ordinary(elements[i]) }

  lemma {:induction false} JoinSplit(s: string)
    ensures Join(Split(s)) == s
  {
    if s == "" {
    } else {
      JoinSplit(s[1..]);
      var rest := Split(s[1..]);
      if s[0] == '/' {
        assert Split(s)[1..] == rest;
        assert Join(Split(s)) == "" + "/" + Join(rest);
      } else {
        assert Split(s)[1..] == rest[1..];
        assert Join(Split(s)) == [s[0]] + Join(rest);
      }
      assert s == [s[0]] + s[1..];
    }
  }

  lemma SplitCons(c: char, tail: string)
    ensures Split([c] + tail)
         == if c == '/' then [""] + Split(tail) else [[c] + Split(tail)[0]] + Split(tail)[1..]
  {
    assert ([c] + tail)[1..] == tail;
  }

  lemma HeadThenAppend<T>(x: T, s: seq<T>, t: seq<T>)
    requires s != []
    ensures (s + t)[0] == s[0]
    ensures [x] + (s + t)[1..] == [x] + s[1..] + t
    ensures [x] + (s + t) == [x] + s + t
  {
  }

  lemma SplitConsAppend(c: char, tail: string, joined: string, last: seq<string>)
    requires Split(joined) == Split(tail) + last
    ensures Split([c] + joined) == Split([c] + tail) + last
  {
    hide Split;
    SplitCons(c, tail);
    SplitCons(c, joined);
    HeadThenAppend(if c == '/' then "" else [c] + Split(tail)[0], Split(tail), last);
  }

  lemma {:induction false} SplitAtSlash(a: string, b: string)
    ensures Split(a + "/" + b) == Split(a) + Split(b)
  {
    if a == "" {
      SplitCons('/', b);
      assert a + "/" + b == ['/'] + b;
    } else {
      hide Split;
      var tail := a[1..];
      SplitAtSlash(tail, b);
      SplitConsAppend(a[0], tail, tail + "/" + b, Split(b));
      assert a == [a[0]] + tail;
      assert a + "/" + b == [a[0]] + (tail + "/" + b);
    }
  }

  lemma {:induction false} SplitWithoutSlash(s: string)
    requires '/' !in s
    ensures Split(s) == [s]
  {
    if s == "" {
    } else {
      assert forall c :: c in s[1..] ==> c in s;
      SplitWithoutSlash(s[1..]);
      assert s == [s[0]] + s[1..];
    }
  }

  lemma {:induction false} SplitJoin(elements: seq<string>)
    requires elements != [] && forall i | 0 <= i < |elements| :: '/' !in elements[i]
    ensures Split(Join(elements)) == elements
  {
    SplitWithoutSlash(elements[0]);
    if |elements| == 1 {
    } else {
      SplitJoin(elements[1..]);
      SplitAtSlash(elements[0], Join(elements[1..]));
    }
  }

  lemma {:induction false} KeepAllOrdinary(kept: seq<string>, elements: seq<string>, rooted: bool)
    requires AllOrdinary(elements)
    ensures KeepAll(kept, elements, rooted) == kept + elements
    decreases |elements|
  {
    if elements == [] {
    } else {
      assert Ordinary(elements[0]);
      KeepAllOrdinary(kept + [elements[0]], elements[1..], rooted);
    }
  }

  /** Kept elements have no "" or ".", and ".." only after "..". */
  predicate Resolved(kept: seq<string>)
  {
    && (forall i | 0 <= i < |kept| :: kept[i] != "" && kept[i] != "." && '/' !in kept[i])
    && (forall i | 0 < i < |kept| :: kept[i] == ".." ==> kept[i - 1] == "..")
  }

  lemma {:induction false} KeepAllResolves(kept: seq<string>, elements: seq<string>, rooted: bool)
    requires Resolved(kept) && forall i | 0 <= i < |elements| :: '/' !in elements[i]
    ensures Resolved(KeepAll(kept, elements, rooted))
    decreases |elements|
  {
    if elements == [] {
    } else {
      assert Resolved(Keep(kept, elements[0], rooted));
      KeepAllResolves(Keep(kept, elements[0], rooted), elements[1..], rooted);
    }
  }

  lemma {:induction false} ResolvedWithoutLeadingDots(kept: seq<string>, i: nat)
    requires Resolved(kept) && i < |kept| && kept[0] != ".."
    ensures Ordinary(kept[i])
  {
    if i == 0 {
    } else {
      ResolvedWithoutLeadingDots(kept, i - 1);
    }
  }

  lemma LeadingDotsJoin(kept: seq<string>)
    requires kept != [] && kept[0] == ".."
    ensures Join(kept) == ".." || HasPrefix(Join(kept), "../")
  {
    if |kept| > 1 {
      assert Join(kept)[..3] == "../";
    }
  }

  lemma LeadingDotsSplit(value: string)
    requires HasPrefix(value, "../")
    ensures Split(value)[0] == ".."
  {
    SplitWithoutSlash("..");
    assert value == ".." + "/" + value[3..];
    SplitAtSlash("..", value[3..]);
  }

  lemma CleanFixedPointIsOrdinary(value: string)
    requires value != "" && value != "." && !IsAbs(value) && Clean(value) == value
    requires value != ".." && !HasPrefix(value, "../")
    ensures AllOrdinary(Split(value))
  {
    var kept := KeepAll([], Split(value), false);
    KeepAllResolves([], Split(value), false);
    assert value == Join(kept) && kept != [];
    SplitJoin(kept);
    if kept[0] == ".." {
      LeadingDotsJoin(kept);
      assert false;
    }
    forall i | 0 <= i < |kept| ensures Ordinary(kept[i]) {
      ResolvedWithoutLeadingDots(kept, i);
    }
  }

  lemma OrdinaryIsCleanFixedPoint(value: string)
    requires AllOrdinary(Split(value))
    ensures value != "" && value != "." && !IsAbs(value) && Clean(value) == value
    ensures value != ".." && !HasPrefix(value, "../")
  {
    var elements := Split(value);
    assert Ordinary(elements[0]);
    JoinSplit(value);
    KeepAllOrdinary([], elements, false);
    assert [] + elements == elements;
    if '/' !in value {
      SplitWithoutSlash(value);
    }
    if HasPrefix(value, "../") {
      LeadingDotsSplit(value);
      assert false;
    }
  }

  /** The canonical paths are exactly the slash-joined ordinary elements over the allowed characters. */
  lemma CanonicalExactly(value: string)
    ensures ValidCanonicalSourcePath(value)
       <==> AllOrdinary(Split(value)) && forall i | 0 <= i < |value| :: AllowedChar(value[i])
  {
    if AllOrdinary(Split(value)) {
      OrdinaryIsCleanFixedPoint(value);
    }
    if ValidCanonicalSourcePath(value) {
      CleanFixedPointIsOrdinary(value);
    }
  }

  /** A joined path is canonical exactly when both pieces are. */
  lemma CanonicalJoin(a: string, b: string)
    ensures ValidCanonicalSourcePath(a + "/" + b)
       <==> ValidCanonicalSourcePath(a) && ValidCanonicalSourcePath(b)
  {
    var whole := a + "/" + b;
    CanonicalExactly(a);
    CanonicalExactly(b);
    CanonicalExactly(whole);
    SplitAtSlash(a, b);
    var ea, eb := Split(a), Split(b);
    assert forall i | 0 <= i < |ea| :: (ea + eb)[i] == ea[i];
    assert forall i | 0 <= i < |eb| :: (ea + eb)[|ea| + i] == eb[i];
    assert forall i | 0 <= i < |a| :: whole[i] == a[i];
    assert forall i | 0 <= i < |b| :: whole[|a| + 1 + i] == b[i];
    assert forall i | 0 <= i < |whole| ::
      whole[i] == if i < |a| then a[i] else if i == |a| then '/' else b[i - |a| - 1];
  }
}
