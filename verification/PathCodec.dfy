/** How the access control table stores a list of paths in one column. */
module PathCodec {
  import opened ByteStrings
  import opened Text

  const COLON: byte := 58

  const ESCAPED_PERCENT: Bytes := [PERCENT, 50, 53] // %25
  const ESCAPED_COLON: Bytes := [PERCENT, 51, 65]   // %3A

  /** The two passes, `%` before `:`. */
  function Escape(p: Bytes): Bytes {
    ReplaceAll(ReplaceAll(p, PERCENT, ESCAPED_PERCENT), COLON, ESCAPED_COLON)
  }

  function EscapeByte(b: byte): Bytes {
    if b == PERCENT then ESCAPED_PERCENT else if b == COLON then ESCAPED_COLON else [b]
  }

  /** `url.QueryUnescape`: percent-decoding, and a plus sign stands for a space. */
  function Unescape(s: Bytes): Option<Bytes> {
    if s == [] then Some([])
    else if s[0] == PERCENT then
      if |s| < 3 || !IsHex(s[1]) || !IsHex(s[2]) then None
      else Cons(16 * HexValue(s[1]) + HexValue(s[2]), Unescape(s[3..]))
    else Cons(if s[0] == PLUS then SPACE else s[0], Unescape(s[1..]))
  }

  function Cons(b: byte, rest: Option<Bytes>): Option<Bytes> {
    match rest
    case None => None
    case Some(r) => Some([b] + r)
  }

  predicate IsHex(b: byte) {
    48 <= b <= 57 || 65 <= b <= 70 || 97 <= b <= 102
  }

  function HexValue(b: byte): (v: nat)
    requires IsHex(b)
    ensures v < 16
  {
    if b <= 57 then b - 48 else if b <= 70 then b - 55 else b - 87
  }

  /** What is left of a path's plus signs after a round trip. */
  function PlusToSpace(p: Bytes): Bytes {
    seq(|p|, i requires 0 <= i < |p| => if p[i] == PLUS then SPACE else p[i])
  }

  lemma EscapeFirst(p: Bytes)
    requires p != []
    ensures Escape(p) == EscapeByte(p[0]) + Escape(p[1..])
  {
    var first := if p[0] == PERCENT then ESCAPED_PERCENT else p[..1];
    ReplaceConcat(first, ReplaceAll(p[1..], PERCENT, ESCAPED_PERCENT), COLON, ESCAPED_COLON);
    ReplaceInShort(first, COLON, ESCAPED_COLON);
  }

  lemma {:induction false} EscapedHasNoColon(p: Bytes)
    ensures COLON !in Escape(p)
    ensures |p| <= |Escape(p)|
    ensures |p| == |Escape(p)| <==> PERCENT !in p && COLON !in p
    ensures PERCENT !in p && COLON !in p ==> Escape(p) == p
  {
    if p != [] {
      EscapeFirst(p);
      EscapedHasNoColon(p[1..]);
      assert p == [p[0]] + p[1..];
    }
  }

  /** Decoding an escaped path gives it back, except that plus signs have become spaces. */
  lemma {:induction false} UnescapeEscaped(p: Bytes)
    ensures Unescape(Escape(p)) == Some(PlusToSpace(p))
  {
    if p == [] {
      assert PlusToSpace(p) == [];
    } else {
      EscapeFirst(p);
      UnescapeEscaped(p[1..]);
      UnescapeEscapedByte(p[0], Escape(p[1..]), PlusToSpace(p[1..]));
      assert PlusToSpace(p) == [if p[0] == PLUS then SPACE else p[0]] + PlusToSpace(p[1..]);
    }
  }

  lemma UnescapeEscapedByte(b: byte, s: Bytes, t: Bytes)
    requires Unescape(s) == Some(t)
    ensures Unescape(EscapeByte(b) + s) == Some([if b == PLUS then SPACE else b] + t)
  {
    var e := EscapeByte(b) + s;
    if b == PERCENT || b == COLON {
      assert e[3..] == s && e[0] == PERCENT;
    } else {
      assert e[1..] == s;
    }
  }

  lemma PlusToSpaceIsIdentity(p: Bytes)
    ensures PlusToSpace(p) == p <==> PLUS !in p
  {
    if PlusToSpace(p) == p {
      forall i | 0 <= i < |p|
        ensures p[i] != PLUS
      {
        assert PlusToSpace(p)[i] == p[i];
      }
    }
  }

  lemma PathRoundTrip(p: Bytes)
    ensures Unescape(Escape(p)) == Some(p) <==> PLUS !in p
  {
    UnescapeEscaped(p);
    PlusToSpaceIsIdentity(p);
  }

  // The passes the other way round

  function EscapeSwapped(p: Bytes): Bytes {
    ReplaceAll(ReplaceAll(p, COLON, ESCAPED_COLON), PERCENT, ESCAPED_PERCENT)
  }

  /** What decoding would make of a path: the percent sign brought in for a colon was escaped again. */
  function Mangled(p: Bytes): Bytes {
    if p == [] then [] else MangledByte(p[0]) + Mangled(p[1..])
  }

  function MangledByte(b: byte): Bytes {
    if b == COLON then ESCAPED_COLON else if b == PLUS then [SPACE] else [b]
  }

  function SwappedByte(b: byte): Bytes {
    if b == COLON then ESCAPED_PERCENT + ESCAPED_COLON[1..] else EscapeByte(b)
  }

  lemma SwappedFirst(p: Bytes)
    requires p != []
    ensures EscapeSwapped(p) == SwappedByte(p[0]) + EscapeSwapped(p[1..])
  {
    var first := if p[0] == COLON then ESCAPED_COLON else p[..1];
    ReplaceConcat(first, ReplaceAll(p[1..], COLON, ESCAPED_COLON), PERCENT, ESCAPED_PERCENT);
    ReplaceInShort(first, PERCENT, ESCAPED_PERCENT);
  }

  lemma {:induction false} UnescapeSwapped(p: Bytes)
    ensures Unescape(EscapeSwapped(p)) == Some(Mangled(p))
  {
    if p != [] {
      SwappedFirst(p);
      UnescapeSwapped(p[1..]);
      UnescapeSwappedByte(p[0], EscapeSwapped(p[1..]), Mangled(p[1..]));
    }
  }

  lemma UnescapeSwappedByte(b: byte, s: Bytes, t: Bytes)
    requires Unescape(s) == Some(t)
    ensures Unescape(SwappedByte(b) + s) == Some(MangledByte(b) + t)
  {
    if b == COLON {
      UnescapeSwappedColon(s, t);
    } else {
      UnescapeEscapedByte(b, s, t);
    }
  }

  lemma UnescapeSwappedColon(s: Bytes, t: Bytes)
    requires Unescape(s) == Some(t)
    ensures Unescape(SwappedByte(COLON) + s) == Some(ESCAPED_COLON + t)
  {
    assert SwappedByte(COLON) + s == EscapeByte(PERCENT) + (EscapeByte(51) + (EscapeByte(65) + s));
    UnescapeEscapedByte(65, s, t);
    UnescapeEscapedByte(51, EscapeByte(65) + s, [65] + t);
    UnescapeEscapedByte(PERCENT, EscapeByte(51) + (EscapeByte(65) + s), [51] + ([65] + t));
    assert [PERCENT] + ([51] + ([65] + t)) == ESCAPED_COLON + t;
  }

  lemma {:induction false} MangledIsIdentity(p: Bytes)
    ensures |Mangled(p)| >= |p|
    ensures Mangled(p) == p <==> COLON !in p && PLUS !in p
  {
    if p != [] {
      MangledIsIdentity(p[1..]);
      assert p == [p[0]] + p[1..];
      if Mangled(p) == p && |MangledByte(p[0])| == 1 {
        assert Mangled(p)[1..] == Mangled(p[1..]);
      }
    }
  }

  /** Escaping `:` before `%` would be undone only for paths without colons and plus signs. */
  lemma OrderOfPassesMatters(p: Bytes)
    ensures Unescape(EscapeSwapped(p)) == Some(p) <==> COLON !in p && PLUS !in p
  {
    UnescapeSwapped(p);
    MangledIsIdentity(p);
  }

  // Lists of paths

  function EscapeAll(paths: seq<Bytes>): seq<Bytes> {
    seq(|paths|, i requires 0 <= i < |paths| => Escape(paths[i]))
  }

  function PlusAll(paths: seq<Bytes>): seq<Bytes> {
    seq(|paths|, i requires 0 <= i < |paths| => PlusToSpace(paths[i]))
  }

  function EncodePaths(paths: seq<Bytes>): Bytes {
    Join(EscapeAll(paths), COLON)
  }

  function UnescapeAll(parts: seq<Bytes>): Option<seq<Bytes>> {
    if parts == [] then Some([])
    else
      match (Unescape(parts[0]), UnescapeAll(parts[1..]))
      case (Some(p), Some(ps)) => Some([p] + ps)
      case _ => None
  }

  function DecodePaths(column: Bytes): Option<seq<Bytes>> {
    UnescapeAll(Split(column, COLON))
  }

  lemma {:induction false} UnescapeAllEscaped(paths: seq<Bytes>)
    ensures UnescapeAll(EscapeAll(paths)) == Some(PlusAll(paths))
  {
    if paths == [] {
      assert PlusAll(paths) == [];
    } else {
      assert EscapeAll(paths)[1..] == EscapeAll(paths[1..]);
      UnescapeEscaped(paths[0]);
      UnescapeAllEscaped(paths[1..]);
      assert PlusAll(paths) == [PlusToSpace(paths[0])] + PlusAll(paths[1..]);
    }
  }

  /** What comes back from the column. An empty list comes back as one empty path. */
  lemma DecodeEncoded(paths: seq<Bytes>)
    ensures DecodePaths(EncodePaths(paths)) == Some(if paths == [] then [[]] else PlusAll(paths))
  {
    if paths == [] {
      assert EscapeAll(paths) == [] && EncodePaths(paths) == [];
      assert Split([], COLON) == [[]];
      var parts: seq<Bytes> := [[]];
      var none: seq<Bytes> := [];
      assert parts[1..] == none && Unescape(parts[0]) == Some([]) && UnescapeAll(none) == Some(none);
      assert [parts[0]] + none == parts;
    } else {
      forall i | 0 <= i < |paths|
        ensures COLON !in EscapeAll(paths)[i]
      {
        EscapedHasNoColon(paths[i]);
      }
      SplitJoined(EscapeAll(paths), COLON);
      UnescapeAllEscaped(paths);
    }
  }

  predicate NoPlus(paths: seq<Bytes>) {
    forall i :: 0 <= i < |paths| ==> PLUS !in paths[i]
  }

  lemma PlusAllIsIdentity(paths: seq<Bytes>)
    ensures PlusAll(paths) == paths <==> NoPlus(paths)
  {
    forall i | 0 <= i < |paths|
      ensures PlusToSpace(paths[i]) == paths[i] <==> PLUS !in paths[i]
    {
      PlusToSpaceIsIdentity(paths[i]);
    }
    if PlusAll(paths) == paths {
      assert forall i :: 0 <= i < |paths| ==> PlusAll(paths)[i] == paths[i];
    }
  }

  /** The column loses nothing exactly for non-empty lists of paths without plus signs. */
  lemma PathListRoundTrip(paths: seq<Bytes>)
    ensures DecodePaths(EncodePaths(paths)) == Some(paths) <==> paths != [] && NoPlus(paths)
  {
    DecodeEncoded(paths);
    PlusAllIsIdentity(paths);
  }
}
