/** Splitting, joining and replacing, as the `strings` package does it. */
module Text {
  import opened ByteStrings

  function Split(s: Bytes, sep: byte): (parts: seq<Bytes>)
    ensures parts != []
    ensures forall j :: 0 <= j < |parts| ==> sep !in parts[j]
    decreases |s|
  {
    var i := IndexOf(s, sep);
    if i == |s| then [s] else [s[..i]] + Split(s[i + 1..], sep)
  }

  function Join(parts: seq<Bytes>, sep: byte): Bytes {
    if parts == [] then []
    else if |parts| == 1 then parts[0]
    else parts[0] + [sep] + Join(parts[1..], sep)
  }

  predicate NoneContains(parts: seq<Bytes>, sep: byte) {
    forall j :: 0 <= j < |parts| ==> sep !in parts[j]
  }

  lemma {:induction false} SplitConcat(a: Bytes, sep: byte, b: Bytes)
    ensures Split(a + [sep] + b, sep) == Split(a, sep) + Split(b, sep)
    decreases |a|
  {
    var i := IndexOf(a, sep);
    if i == |a| {
      SplitFirst(a, sep, b);
    } else {
      var (first, rest) := (a[..i], a[i + 1..]);
      SplitConcat(rest, sep, b);
      Associate(first + [sep], rest, [sep], b);
      assert a == first + [sep] + rest;
      SplitFirst(first, sep, rest + [sep] + b);
      SplitFirst(first, sep, rest);
      Associate([first], Split(rest, sep), Split(b, sep), []);
    }
  }

  lemma Associate<T>(a: seq<T>, b: seq<T>, c: seq<T>, d: seq<T>)
    ensures a + (b + c) == a + b + c
    ensures a + (b + c + d) == a + b + c + d
  {
  }

  lemma SplitFirst(first: Bytes, sep: byte, rest: Bytes)
    requires sep !in first
    ensures Split(first + [sep] + rest, sep) == [first] + Split(rest, sep)
  {
    var s := first + [sep] + rest;
    IndexAfter(first, sep, rest);
    assert s[..|first|] == first && s[|first| + 1..] == rest;
  }

  lemma {:induction false} SplitJoined(parts: seq<Bytes>, sep: byte)
    requires parts != [] && NoneContains(parts, sep)
    ensures Split(Join(parts, sep), sep) == parts
  {
    if |parts| == 1 {
      assert IndexOf(parts[0], sep) == |parts[0]| && parts == [parts[0]];
    } else {
      SplitFirst(parts[0], sep, Join(parts[1..], sep));
      SplitJoined(parts[1..], sep);
      assert [parts[0]] + parts[1..] == parts;
    }
  }

  /** Joining can be undone exactly for non-empty lists of strings without the separator. */
  lemma SplitUndoesJoin(parts: seq<Bytes>, sep: byte)
    ensures Split(Join(parts, sep), sep) == parts <==> parts != [] && NoneContains(parts, sep)
  {
    if parts != [] && NoneContains(parts, sep) {
      SplitJoined(parts, sep);
    }
  }

  function ReplaceAll(s: Bytes, c: byte, sub: Bytes): Bytes {
    if s == [] then [] else (if s[0] == c then sub else s[..1]) + ReplaceAll(s[1..], c, sub)
  }

  lemma {:induction false} ReplaceConcat(s: Bytes, t: Bytes, c: byte, sub: Bytes)
    ensures ReplaceAll(s + t, c, sub) == ReplaceAll(s, c, sub) + ReplaceAll(t, c, sub)
  {
    if s == [] {
      assert s + t == t;
    } else {
      assert (s + t)[1..] == s[1..] + t && (s + t)[..1] == s[..1];
      ReplaceConcat(s[1..], t, c, sub);
      Associate(if s[0] == c then sub else s[..1], ReplaceAll(s[1..], c, sub), ReplaceAll(t, c, sub), []);
    }
  }

  lemma {:induction false} NothingToReplace(s: Bytes, c: byte, sub: Bytes)
    requires c !in s
    ensures ReplaceAll(s, c, sub) == s
  {
    if s != [] {
      NothingToReplace(s[1..], c, sub);
    }
  }

  /** A byte that can only stand in front. */
  lemma ReplaceInShort(s: Bytes, c: byte, sub: Bytes)
    requires s != [] && c !in s[1..]
    ensures ReplaceAll(s, c, sub) == (if s[0] == c then sub else s[..1]) + s[1..]
  {
    NothingToReplace(s[1..], c, sub);
  }

  // White space

  /** The length of the white-space character, in UTF-8, that `s` starts with; 0 if it starts with none. */
  function SpaceAt(s: Bytes): (n: nat)
    ensures n <= |s|
  {
    if |s| >= 1 && (9 <= s[0] <= 13 || s[0] == SPACE) then 1
    else if |s| >= 2 && s[0] == 0xC2 && (s[1] == 0x85 || s[1] == 0xA0) then 2
    else if |s| >= 3 && IsWideSpace(s[0], s[1], s[2]) then 3
    else 0
  }

  predicate IsWideSpace(a: byte, b: byte, c: byte) {
    || (a == 0xE1 && b == 0x9A && c == 0x80)
    || (a == 0xE2 && b == 0x80 && (0x80 <= c <= 0x8A || c == 0xA8 || c == 0xA9 || c == 0xAF))
    || (a == 0xE2 && b == 0x81 && c == 0x9F)
    || (a == 0xE3 && b == 0x80 && c == 0x80)
  }

  function TrimLeft(s: Bytes): Bytes
    decreases |s|
  {
    if SpaceAt(s) > 0 then TrimLeft(s[SpaceAt(s)..]) else s
  }

  /** The length of the white-space character that `s` ends with. */
  function SpaceBefore(s: Bytes): (n: nat)
    ensures n <= |s|
  {
    if |s| >= 1 && SpaceAt(s[|s| - 1..]) == 1 then 1
    else if |s| >= 2 && SpaceAt(s[|s| - 2..]) == 2 then 2
    else if |s| >= 3 && SpaceAt(s[|s| - 3..]) == 3 then 3
    else 0
  }

  function TrimRight(s: Bytes): Bytes
    decreases |s|
  {
    if SpaceBefore(s) > 0 then TrimRight(s[..|s| - SpaceBefore(s)]) else s
  }

  function TrimSpace(s: Bytes): Bytes {
    TrimRight(TrimLeft(s))
  }

  /** One white-space character. */
  predicate IsSpace(c: Bytes) {
    c != [] && SpaceAt(c) == |c|
  }

  lemma SpaceAtPrefix(p: Bytes, s: Bytes)
    requires p <= s && SpaceAt(p) > 0
    ensures SpaceAt(s) == SpaceAt(p)
  {
  }

  lemma SpaceInFront(c: Bytes, s: Bytes)
    requires IsSpace(c)
    ensures TrimLeft(c + s) == TrimLeft(s)
  {
    SpaceAtPrefix(c, c + s);
    assert (c + s)[|c|..] == s;
  }

  lemma Ending(s: Bytes, c: Bytes, n: nat)
    requires n <= |c|
    ensures (s + c)[|s + c| - n..] == c[|c| - n..]
  {
  }

  /** A character is as long seen from its end as seen from its start. */
  lemma SpaceBeforeEnd(s: Bytes, c: Bytes)
    requires IsSpace(c)
    ensures SpaceBefore(s + c) == |c|
  {
    EndIsNoSpace(c);
    Ending(s, c, 1);
    if |c| >= 2 {
      Ending(s, c, 2);
    }
    if |c| >= 3 {
      Ending(s, c, 3);
    }
    assert c[|c| - |c|..] == c;
  }

  lemma SpaceBehind(s: Bytes, c: Bytes)
    requires IsSpace(c)
    ensures TrimRight(s + c) == TrimRight(s)
  {
    SpaceBeforeEnd(s, c);
    assert (s + c)[..|s|] == s;
  }

  lemma EndIsNoSpace(c: Bytes)
    requires IsSpace(c)
    ensures |c| <= 3
    ensures |c| >= 2 ==> SpaceAt(c[|c| - 1..]) != 1
    ensures |c| == 3 ==> SpaceAt(c[1..]) != 2
  {
  }

  /** No character starts in a text and ends behind it. */
  lemma NoSpaceAcross(s: Bytes, c: Bytes)
    requires s != [] && IsSpace(c) && SpaceAt(s) == 0
    ensures SpaceAt(s + c) == 0
  {
  }

  lemma {:induction false} TrimLeftBefore(s: Bytes, c: Bytes)
    requires IsSpace(c)
    ensures TrimLeft(s + c) == if TrimLeft(s) == [] then [] else TrimLeft(s) + c
    decreases |s|
  {
    if s == [] {
      assert s + c == c && c[|c|..] == [];
    } else if SpaceAt(s) == 0 {
      NoSpaceAcross(s, c);
    } else {
      SpaceAtPrefix(s, s + c);
      assert (s + c)[SpaceAt(s)..] == s[SpaceAt(s)..] + c;
      TrimLeftBefore(s[SpaceAt(s)..], c);
    }
  }

  /** White space around a text does not change what is left of it. */
  lemma TrimIgnoresSpaces(s: Bytes, c: Bytes)
    requires IsSpace(c)
    ensures TrimSpace(c + s) == TrimSpace(s) && TrimSpace(s + c) == TrimSpace(s)
  {
    SpaceInFront(c, s);
    TrimLeftBefore(s, c);
    if TrimLeft(s) != [] {
      SpaceBehind(TrimLeft(s), c);
    }
  }

  lemma {:induction false} TrimRightEnds(s: Bytes)
    ensures TrimRight(s) <= s && SpaceBefore(TrimRight(s)) == 0
    decreases |s|
  {
    if SpaceBefore(s) > 0 {
      TrimRightEnds(s[..|s| - SpaceBefore(s)]);
    }
  }

  lemma {:induction false} TrimLeftStarts(s: Bytes)
    ensures SpaceAt(TrimLeft(s)) == 0
    decreases |s|
  {
    if SpaceAt(s) > 0 {
      TrimLeftStarts(s[SpaceAt(s)..]);
    }
  }

  /** What is left has white space at neither end; a text without is left alone. */
  lemma TrimmedHasNoSpaces(s: Bytes)
    ensures SpaceAt(TrimSpace(s)) == 0 && SpaceBefore(TrimSpace(s)) == 0
    ensures SpaceAt(s) == 0 && SpaceBefore(s) == 0 ==> TrimSpace(s) == s
  {
    TrimLeftStarts(s);
    TrimRightEnds(TrimLeft(s));
    if SpaceAt(TrimSpace(s)) > 0 {
      SpaceAtPrefix(TrimSpace(s), TrimLeft(s));
    }
  }

  /** The white space of ASCII and the no-break space. */
  lemma SomeSpaces()
    ensures IsSpace([32]) && IsSpace([9]) && IsSpace([10]) && IsSpace([13]) && IsSpace([0xC2, 0xA0])
    ensures !IsSpace([46]) && !IsSpace([47]) && !IsSpace([65])
  {
  }
}
