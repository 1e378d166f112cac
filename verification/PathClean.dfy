/** Slash-separated paths as lists of segments: cleaning and joining, as the `path` package does it. */
module PathClean {
  import opened ByteStrings
  import opened Text

  const SLASH: byte := 47
  const DOT: Bytes := [46]
  const DOTDOT: Bytes := [46, 46]

  predicate IsRooted(p: Bytes) {
    p != [] && p[0] == SLASH
  }

  function Segments(p: Bytes): seq<Bytes> {
    Split(p, SLASH)
  }

  /** The segments that are left of `segs` when they are walked down from `stack`. */
  function Walk(rooted: bool, segs: seq<Bytes>, stack: seq<Bytes>): seq<Bytes> {
    if segs == [] then stack else Walk(rooted, segs[1..], Step(rooted, segs[0], stack))
  }

  function Step(rooted: bool, s: Bytes, stack: seq<Bytes>): seq<Bytes> {
    if s == [] || s == DOT then stack
    else if s != DOTDOT then stack + [s]
    else if stack != [] && stack[|stack| - 1] != DOTDOT then stack[..|stack| - 1]
    else if rooted then stack
    else stack + [s]
  }

  function Render(rooted: bool, stack: seq<Bytes>): Bytes {
    if rooted then [SLASH] + Join(stack, SLASH)
    else if stack == [] then DOT
    else Join(stack, SLASH)
  }

  function Clean(p: Bytes): Bytes {
    Render(IsRooted(p), Walk(IsRooted(p), Segments(p), []))
  }

  function JoinPaths(a: Bytes, b: Bytes): Bytes {
    if a == [] && b == [] then [] else Clean(if a == [] then b else a + [SLASH] + b)
  }

  /** What cleaning leaves: no empty segment, no dot, and `..` only in front of a path that is not rooted. */
  predicate Canonical(rooted: bool, stack: seq<Bytes>) {
    && NoneContains(stack, SLASH)
    && (forall i :: 0 <= i < |stack| ==> stack[i] != [] && stack[i] != DOT)
    && (forall i :: 0 <= i < |stack| && stack[i] == DOTDOT ==> !rooted && (i > 0 ==> stack[i - 1] == DOTDOT))
  }

  lemma {:induction false} WalkIsCanonical(rooted: bool, segs: seq<Bytes>, stack: seq<Bytes>)
    requires Canonical(rooted, stack) && NoneContains(segs, SLASH)
    ensures Canonical(rooted, Walk(rooted, segs, stack))
  {
    if segs != [] {
      WalkIsCanonical(rooted, segs[1..], Step(rooted, segs[0], stack));
    }
  }

  lemma {:induction false} WalkConcat(rooted: bool, s: seq<Bytes>, t: seq<Bytes>, stack: seq<Bytes>)
    ensures Walk(rooted, s + t, stack) == Walk(rooted, t, Walk(rooted, s, stack))
  {
    if s == [] {
      assert s + t == t;
    } else {
      assert (s + t)[1..] == s[1..] + t;
      WalkConcat(rooted, s[1..], t, Step(rooted, s[0], stack));
    }
  }

  lemma {:induction false} WalkCanonical(rooted: bool, done: seq<Bytes>, rest: seq<Bytes>)
    requires Canonical(rooted, done + rest)
    ensures Walk(rooted, rest, done) == done + rest
    decreases |rest|
  {
    if rest == [] {
      assert done + rest == done;
    } else {
      assert (done + rest)[|done|] == rest[0];
      assert done != [] ==> (done + rest)[|done| - 1] == done[|done| - 1];
      assert done + [rest[0]] + rest[1..] == done + rest;
      WalkCanonical(rooted, done + [rest[0]], rest[1..]);
    }
  }

  function NonEmpty(segs: seq<Bytes>): (r: seq<Bytes>)
    ensures forall s :: s in r <==> s in segs && s != []
  {
    if segs == [] then []
    else if segs[0] == [] then NonEmpty(segs[1..])
    else [segs[0]] + NonEmpty(segs[1..])
  }

  predicate NoDots(segs: seq<Bytes>) {
    DOT !in segs && DOTDOT !in segs
  }

  lemma {:induction false} WalkDown(rooted: bool, segs: seq<Bytes>, stack: seq<Bytes>)
    requires NoDots(segs)
    ensures Walk(rooted, segs, stack) == stack + NonEmpty(segs)
  {
    if segs != [] {
      assert segs[0] in segs;
      WalkDown(rooted, segs[1..], Step(rooted, segs[0], stack));
    } else {
      assert stack + NonEmpty(segs) == stack;
    }
  }

  lemma RenderedIsRooted(rooted: bool, stack: seq<Bytes>)
    requires Canonical(rooted, stack)
    ensures Render(rooted, stack) != [] && IsRooted(Render(rooted, stack)) == rooted
  {
    if stack != [] {
      assert stack[0] != [] && stack[0][0] in stack[0];
      assert Join(stack, SLASH)[0] == stack[0][0];
    }
  }

  /** A canonical path reads back as the segments it was made from. */
  lemma SegmentsOfRendered(rooted: bool, stack: seq<Bytes>)
    requires Canonical(rooted, stack)
    ensures Segments(Render(rooted, stack))
         == if rooted then [[]] + (if stack == [] then [[]] else stack)
            else if stack == [] then [DOT] else stack
  {
    if rooted {
      var none: Bytes := [];
      assert none + [SLASH] + Join(stack, SLASH) == Render(rooted, stack);
      SplitFirst(none, SLASH, Join(stack, SLASH));
    } else if stack == [] {
      assert IndexOf(DOT, SLASH) == 1;
    }
    if stack != [] {
      SplitJoined(stack, SLASH);
    } else {
      assert Segments([]) == [[]];
    }
  }

  lemma WalkRendered(rooted: bool, stack: seq<Bytes>)
    requires Canonical(rooted, stack)
    ensures Walk(rooted, Segments(Render(rooted, stack)), []) == stack
  {
    SegmentsOfRendered(rooted, stack);
    WalkCanonical(rooted, [], stack);
    assert [] + stack == stack;
    if stack == [] {
      WalkNowhere(rooted, Segments(Render(rooted, stack)), []);
    } else if rooted {
      assert Segments(Render(rooted, stack))[1..] == stack;
    }
  }

  lemma CleanRendered(rooted: bool, stack: seq<Bytes>)
    requires Canonical(rooted, stack)
    ensures Clean(Render(rooted, stack)) == Render(rooted, stack)
  {
    RenderedIsRooted(rooted, stack);
    WalkRendered(rooted, stack);
  }

  lemma {:induction false} WalkNowhere(rooted: bool, segs: seq<Bytes>, stack: seq<Bytes>)
    requires forall i :: 0 <= i < |segs| ==> segs[i] == [] || segs[i] == DOT
    ensures Walk(rooted, segs, stack) == stack
  {
    if segs != [] {
      WalkNowhere(rooted, segs[1..], stack);
    }
  }

  lemma CleanIsIdempotent(p: Bytes)
    ensures Clean(Clean(p)) == Clean(p)
  {
    WalkIsCanonical(IsRooted(p), Segments(p), []);
    CleanRendered(IsRooted(p), Walk(IsRooted(p), Segments(p), []));
  }

  // The rules of cleaning

  lemma WalkParts(rooted: bool, p: Bytes, q: Bytes, stack: seq<Bytes>)
    ensures Walk(rooted, Segments(p + [SLASH] + q), stack)
         == Walk(rooted, Segments(q), Walk(rooted, Segments(p), stack))
  {
    SplitConcat(p, SLASH, q);
    WalkConcat(rooted, Segments(p), Segments(q), stack);
  }

  lemma WalkOne(rooted: bool, a: Bytes, stack: seq<Bytes>)
    requires SLASH !in a
    ensures Segments(a) == [a] && Walk(rooted, Segments(a), stack) == Step(rooted, a, stack)
  {
    assert IndexOf(a, SLASH) == |a|;
    assert |[a][1..]| == 0;
  }

  lemma CleanParts(p: Bytes, m: Bytes, q: Bytes)
    requires p != [] && SLASH !in m
    ensures var (rooted, before) := (IsRooted(p), Walk(IsRooted(p), Segments(p), []));
      && Clean(p + [SLASH] + q) == Render(rooted, Walk(rooted, Segments(q), before))
      && Clean(p + [SLASH] + (m + [SLASH] + q))
           == Render(rooted, Walk(rooted, Segments(q), Step(rooted, m, before)))
  {
    var rooted := IsRooted(p);
    var before := Walk(rooted, Segments(p), []);
    WalkParts(rooted, p, q, []);
    WalkParts(rooted, p, m + [SLASH] + q, []);
    WalkParts(rooted, m, q, before);
    WalkOne(rooted, m, before);
  }

  predicate IsName(a: Bytes) {
    a != [] && a != DOT && a != DOTDOT && SLASH !in a
  }

  /** A second slash and a dot are left out. */
  lemma EmptyAndDotAreSkipped(p: Bytes, q: Bytes)
    requires p != []
    ensures Clean(p + [SLASH] + ([] + [SLASH] + q)) == Clean(p + [SLASH] + q)
    ensures Clean(p + [SLASH] + (DOT + [SLASH] + q)) == Clean(p + [SLASH] + q)
  {
    CleanParts(p, [], q);
    CleanParts(p, DOT, q);
  }

  /** Two dots remove the name before them. */
  lemma DotsRemoveName(p: Bytes, a: Bytes, q: Bytes)
    requires p != [] && IsName(a)
    ensures Clean(p + [SLASH] + (a + [SLASH] + (DOTDOT + [SLASH] + q))) == Clean(p + [SLASH] + q)
  {
    var before := Walk(IsRooted(p), Segments(p), []);
    CleanParts(p, a, DOTDOT + [SLASH] + q);
    CleanParts(p, a, q);
    NameThenDots(IsRooted(p), before, a, q);
  }

  lemma NameThenDots(rooted: bool, before: seq<Bytes>, a: Bytes, q: Bytes)
    requires IsName(a)
    ensures Walk(rooted, Segments(DOTDOT + [SLASH] + q), Step(rooted, a, before)) == Walk(rooted, Segments(q), before)
  {
    WalkParts(rooted, DOTDOT, q, before + [a]);
    WalkOne(rooted, DOTDOT, before + [a]);
    assert (before + [a])[..|before|] == before;
  }

  /** Where there is no name left below the root of the file system, two dots do nothing. */
  lemma DotsStopAtRoot(p: Bytes, q: Bytes)
    requires IsRooted(p) && Walk(true, Segments(p), []) == []
    ensures Clean(p + [SLASH] + (DOTDOT + [SLASH] + q)) == Clean(p + [SLASH] + q)
  {
    CleanParts(p, DOTDOT, q);
  }

  /** A path that is not rooted keeps the dots that lead out of it. */
  lemma DotsLeadOut(q: Bytes)
    ensures Clean(DOTDOT + [SLASH] + q) == Render(false, Walk(false, Segments(q), [DOTDOT]))
  {
    var p := DOTDOT + [SLASH] + q;
    assert p[0] == 46;
    WalkParts(false, DOTDOT, q, []);
    WalkOne(false, DOTDOT, []);
    assert [] + [DOTDOT] == [DOTDOT];
  }

  /** A path that is in normal form already is left alone. */
  lemma CanonicalIsClean(rooted: bool, stack: seq<Bytes>)
    requires Canonical(rooted, stack)
    ensures Clean(Render(rooted, stack)) == Render(rooted, stack)
  {
    CleanRendered(rooted, stack);
  }
}
