/** From the paths that clients name to paths below the root directory, and who may use them. */
module Vfs {
  import opened ByteStrings
  import opened Text
  import opened PathClean
  import opened Policies

  datatype User = User(username: Bytes, chroot: Bytes, admin: bool)

  datatype Resolved = Resolved(path: Bytes) | Invalid | Denied | Reserved

  const FLY: Bytes := [46, 102, 108, 121] // .fly

  function TrimSlashes(s: Bytes): Bytes {
    if s == [] then []
    else if s[0] == SLASH then TrimSlashes(s[1..])
    else if s[|s| - 1] == SLASH then TrimSlashes(s[..|s| - 1])
    else s
  }

  /** The path that is checked: slashes around it do not matter. */
  function CleanPath(vPath: Bytes, user: Option<User>): Bytes {
    [SLASH] + TrimSlashes(if user.Some? then JoinPaths(user.value.chroot, vPath) else vPath)
  }

  /** Spaces around dots are not enough to get past the check. */
  predicate IsDots(s: Bytes) {
    TrimSpace(s) == DOT || TrimSpace(s) == DOTDOT
  }

  predicate HasDots(path: Bytes) {
    exists i :: 0 <= i < |Segments(path)| && IsDots(Segments(path)[i])
  }

  /** `listing` is what the store lists for the path, the user and the action. */
  predicate Authorize(user: Option<User>, listing: seq<Rule>) {
    && user.Some?
    && (user.value.admin || (listing != [] && forall i :: 0 <= i < |listing| ==> listing[i].verb != Deny))
  }

  function Resolve(root: Bytes, vPath: Bytes, user: Option<User>, action: Option<Action>,
                   listing: seq<Rule>): Resolved {
    var path := CleanPath(vPath, user);
    if HasDots(path) then Invalid
    else if action.Some? && !Authorize(user, listing) then Denied
    else
      var full := JoinPaths(root, path);
      if JoinPaths(root, FLY) <= full then Reserved else Resolved(full)
  }

  // Where a path ends up

  /** The root directory, cleaned, as segments. An empty name stands for the root of the file system. */
  function RootSegments(root: Bytes): seq<Bytes> {
    Walk(RootRooted(root), Segments(root), [])
  }

  predicate RootRooted(root: Bytes) {
    root == [] || IsRooted(root)
  }

  lemma RootIsCanonical(root: Bytes)
    ensures Canonical(RootRooted(root), RootSegments(root))
  {
    WalkIsCanonical(RootRooted(root), Segments(root), []);
  }

  lemma DotsAreDots()
    ensures IsDots(DOT) && IsDots(DOTDOT)
  {
    assert TrimLeft(DOT) == DOT && TrimRight(DOT) == DOT;
    assert TrimLeft(DOTDOT) == DOTDOT && TrimRight(DOTDOT) == DOTDOT;
  }

  lemma WithoutDots(path: Bytes)
    requires !HasDots(path)
    ensures NoDots(Segments(path))
  {
    DotsAreDots();
  }

  /** Joining a path without dots to the root just goes down from the root. */
  lemma JoinGoesDown(root: Bytes, path: Bytes)
    requires path != [] && NoDots(Segments(path)) && (root == [] ==> IsRooted(path))
    ensures JoinPaths(root, path) == Render(RootRooted(root), RootSegments(root) + NonEmpty(Segments(path)))
  {
    var segs := Segments(path);
    if root == [] {
      assert RootSegments(root) == [];
      WalkDown(true, segs, []);
    } else {
      var rooted := IsRooted(root);
      assert IsRooted(root + [SLASH] + path) == rooted;
      SplitConcat(root, SLASH, path);
      WalkConcat(rooted, Segments(root), segs, []);
      WalkDown(rooted, segs, RootSegments(root));
    }
  }

  /** The names below the root that a path without dots leads through. */
  function Names(path: Bytes): (names: seq<Bytes>) {
    NonEmpty(Segments(path))
  }

  predicate ProperName(s: Bytes) {
    s != [] && SLASH !in s && !IsDots(s)
  }

  lemma NamesAreProper(path: Bytes)
    requires !HasDots(path)
    ensures forall s :: s in Names(path) ==> ProperName(s)
  {
    forall s | s in Names(path)
      ensures ProperName(s)
    {
      var i :| 0 <= i < |Segments(path)| && Segments(path)[i] == s;
    }
  }

  lemma BelowIsCanonical(root: Bytes, path: Bytes)
    requires !HasDots(path)
    ensures Canonical(RootRooted(root), RootSegments(root) + Names(path))
  {
    RootIsCanonical(root);
    WithoutDots(path);
    WalkIsCanonical(RootRooted(root), Segments(path), RootSegments(root));
    WalkDown(RootRooted(root), Segments(path), RootSegments(root));
  }

  // The reserved directory

  lemma {:induction false} JoinConcat(a: seq<Bytes>, b: seq<Bytes>)
    requires a != [] && b != []
    ensures Join(a + b, SLASH) == Join(a, SLASH) + [SLASH] + Join(b, SLASH)
  {
    if |a| == 1 {
      assert (a + b)[1..] == b;
    } else {
      assert (a + b)[1..] == a[1..] + b;
      JoinConcat(a[1..], b);
    }
  }

  /** Below the same directory, a text prefix is a text prefix of the first name. */
  lemma PrefixIsOfFirstName(names: seq<Bytes>, prefix: Bytes)
    requires SLASH !in prefix && prefix != []
    ensures prefix <= Join(names, SLASH) <==> names != [] && prefix <= names[0]
  {
    if |names| > 1 && |prefix| > |names[0]| {
      assert prefix[|names[0]|] in prefix && Join(names, SLASH)[|names[0]|] == SLASH;
    }
  }

  lemma RenderedBelow(rooted: bool, base: seq<Bytes>, names: seq<Bytes>, prefix: Bytes)
    requires SLASH !in prefix && |prefix| > 1
    ensures Render(rooted, base + [prefix]) <= Render(rooted, base + names) <==> names != [] && prefix <= names[0]
  {
    var p := Join(base + [prefix], SLASH);
    var q := Join(base + names, SLASH);
    PrefixIsOfFirstName(names, prefix);
    if base == [] {
      assert base + [prefix] == [prefix] && base + names == names;
    } else if names == [] {
      assert base + names == base;
      JoinConcat(base, [prefix]);
    } else {
      JoinConcat(base, [prefix]);
      JoinConcat(base, names);
      assert p == (Join(base, SLASH) + [SLASH]) + prefix && q == (Join(base, SLASH) + [SLASH]) + Join(names, SLASH);
      PrefixAfter(Join(base, SLASH) + [SLASH], prefix, Join(names, SLASH));
    }
    if rooted {
      PrefixAfter([SLASH], p, q);
    }
  }

  lemma PrefixAfter(a: Bytes, p: Bytes, q: Bytes)
    ensures a + p <= a + q <==> p <= q
  {
    if a + p <= a + q {
      assert (a + p)[|a|..] == p && (a + q)[|a|..] == q;
      assert forall i :: 0 <= i < |p| ==> p[i] == (a + p)[|a| + i] == (a + q)[|a| + i];
    }
  }

  lemma ReservedPath(root: Bytes)
    ensures JoinPaths(root, FLY) == if root == [] then FLY else Render(RootRooted(root), RootSegments(root) + [FLY])
  {
    assert IndexOf(FLY, SLASH) == |FLY|;
    assert Segments(FLY) == [FLY];
    assert NonEmpty([FLY]) == [FLY];
    if root == [] {
      WalkDown(false, [FLY], []);
    } else {
      JoinGoesDown(root, FLY);
    }
  }

  lemma ReservedIff(root: Bytes, path: Bytes)
    requires IsRooted(path) && !HasDots(path)
    ensures JoinPaths(root, FLY) <= JoinPaths(root, path)
       <==> root != [] && Names(path) != [] && FLY <= Names(path)[0]
  {
    WithoutDots(path);
    ReservedPath(root);
    JoinGoesDown(root, path);
    RenderedBelow(RootRooted(root), RootSegments(root), Names(path), FLY);
  }

  // What resolving amounts to

  /** The whole of it: which of the errors, and otherwise which path. */
  lemma ResolvesExactly(root: Bytes, vPath: Bytes, user: Option<User>, action: Option<Action>, listing: seq<Rule>)
    ensures
      var path := CleanPath(vPath, user);
      Resolve(root, vPath, user, action, listing)
      == if HasDots(path) then Invalid
         else if action.Some? && !Authorize(user, listing) then Denied
         else if root != [] && Names(path) != [] && FLY <= Names(path)[0] then Reserved
         else Resolved(Render(RootRooted(root), RootSegments(root) + Names(path)))
  {
    var path := CleanPath(vPath, user);
    if !HasDots(path) {
      WithoutDots(path);
      ReservedIff(root, path);
      JoinGoesDown(root, path);
    }
  }

  /** `path` is the root directory followed by `names`. */
  predicate IsBelow(root: Bytes, names: seq<Bytes>, path: Bytes) {
    && RootRooted(path) == RootRooted(root)
    && RootSegments(path) == RootSegments(root) + names
  }

  /** A path that resolves is clean, lies below the root, and never gets into the reserved directory. */
  lemma StaysBelowRoot(root: Bytes, vPath: Bytes, user: Option<User>, action: Option<Action>, listing: seq<Rule>)
    requires Resolve(root, vPath, user, action, listing).Resolved?
    ensures
      var r := Resolve(root, vPath, user, action, listing).path;
      var names := Names(CleanPath(vPath, user));
      && IsBelow(root, names, r) && Clean(r) == r
      && (forall s :: s in names ==> ProperName(s))
      && !(JoinPaths(root, FLY) <= r)
  {
    var path := CleanPath(vPath, user);
    var stack := RootSegments(root) + Names(path);
    ResolvesExactly(root, vPath, user, action, listing);
    NamesAreProper(path);
    BelowIsCanonical(root, path);
    CleanRendered(RootRooted(root), stack);
    RenderedIsRooted(RootRooted(root), stack);
    WalkRendered(RootRooted(root), stack);
  }

  /** No file in the directory `.fly` is reached, so neither are the tables kept there. */
  lemma TablesAreOutOfReach(root: Bytes, vPath: Bytes, user: Option<User>, action: Option<Action>, listing: seq<Rule>,
                            file: Bytes)
    requires NoDots(Segments(file))
    ensures Resolve(root, vPath, user, action, listing) != Resolved(JoinPaths(root, Ascii(".fly") + [SLASH] + file))
  {
    assert Ascii(".fly") == FLY;
    ReservedFile(root, file);
    if Resolve(root, vPath, user, action, listing).Resolved? {
      StaysBelowRoot(root, vPath, user, action, listing);
    }
  }

  lemma ReservedFile(root: Bytes, file: Bytes)
    requires NoDots(Segments(file))
    ensures var path := JoinPaths(root, FLY + [SLASH] + file);
      if root == [] then !RootRooted(path) else JoinPaths(root, FLY) <= path
  {
    var path := FLY + [SLASH] + file;
    SplitFirst(FLY, SLASH, file);
    assert Segments(path)[1..] == Segments(file);
    assert Names(path) == [FLY] + Names(file);
    if root == [] {
      WalkDown(false, Segments(path), []);
      assert [] + Names(path) == Names(path);
      RenderedIsRootless(Names(path));
    } else {
      JoinGoesDown(root, path);
      ReservedPath(root);
      RenderedBelow(RootRooted(root), RootSegments(root), Names(path), FLY);
    }
  }

  lemma RenderedIsRootless(names: seq<Bytes>)
    requires names != [] && names[0] == FLY
    ensures !RootRooted(Render(false, names))
  {
    assert Join(names, SLASH)[0] == FLY[0];
  }

  // Dots in a path that is named without a user

  lemma {:induction false} TrimmingKeepsNames(path: Bytes)
    ensures forall s: Bytes :: s != [] ==> (s in Segments(TrimSlashes(path)) <==> s in Segments(path))
    decreases |path|
  {
    if path != [] && path[0] == SLASH {
      var none: Bytes := [];
      assert path == none + [SLASH] + path[1..];
      SplitFirst(none, SLASH, path[1..]);
      TrimmingKeepsNames(path[1..]);
    } else if path != [] && path[|path| - 1] == SLASH {
      var front := path[..|path| - 1];
      assert path == front + [SLASH] + [];
      SplitConcat(front, SLASH, []);
      assert Segments([]) == [[]];
      TrimmingKeepsNames(front);
    }
  }

  /** Then nothing is cleaned before the check: a path is invalid exactly if one of its segments is dots, with
      or without spaces around them. */
  lemma InvalidIffDots(root: Bytes, vPath: Bytes, listing: seq<Rule>)
    ensures Resolve(root, vPath, None, None, listing) == Invalid
       <==> exists s :: s in Segments(vPath) && IsDots(s)
  {
    var path := CleanPath(vPath, None);
    var none: Bytes := [];
    TrimmingKeepsNames(vPath);
    BlankIsNoDots();
    assert path == none + [SLASH] + TrimSlashes(vPath);
    SplitFirst(none, SLASH, TrimSlashes(vPath));
    if HasDots(path) {
      var i :| 0 <= i < |Segments(path)| && IsDots(Segments(path)[i]);
      assert Segments(path)[i] in Segments(path);
    }
    if s :| s in Segments(vPath) && IsDots(s) {
      assert s in Segments(path);
      var i :| 0 <= i < |Segments(path)| && Segments(path)[i] == s;
    }
  }

  /** What counts as dots. */
  lemma SpacedDotsAreDots(s: Bytes, c: Bytes)
    requires IsSpace(c)
    ensures IsDots(DOT) && IsDots(DOTDOT) && !IsDots([])
    ensures IsDots(c + s) <==> IsDots(s)
    ensures IsDots(s + c) <==> IsDots(s)
    ensures SpaceAt(s) == 0 && SpaceBefore(s) == 0 && IsDots(s) ==> s == DOT || s == DOTDOT
  {
    DotsAreDots();
    BlankIsNoDots();
    TrimIgnoresSpaces(s, c);
    TrimmedHasNoSpaces(s);
  }

  // Policies

  ghost predicate Permitted(rules: map<Bytes, Rule>, path: Bytes, username: Bytes, action: Action) {
    && (exists n :: n in rules && Applies(rules[n], path, username, action))
    && (forall n :: n in rules && Applies(rules[n], path, username, action) ==> rules[n].verb == Allow)
  }

  /** A denying policy overrides all others, and without any policy nothing is allowed. */
  lemma AuthorizesIffPermitted(user: User, rules: map<Bytes, Rule>, listing: seq<Rule>, path: Bytes, action: Action)
    requires ListsMatches(listing, rules, path, user.username, action)
    ensures Authorize(Some(user), listing) <==> user.admin || Permitted(rules, path, user.username, action)
  {
    forall n | n in rules
      ensures Matches(rules[n], path, user.username, action) <==> Applies(rules[n], path, user.username, action)
    {
      MatchesIffApplies(rules[n], path, user.username, action);
    }
    if listing != [] {
      assert listing[0] in listing;
    }
  }

  /** A user whom no policy names, and who is no administrator, gets nowhere. */
  lemma StrangersAreDenied(root: Bytes, vPath: Bytes, user: User, action: Action, rules: map<Bytes, Rule>,
                           listing: seq<Rule>)
    requires !user.admin
    requires forall n, u :: n in rules && rules[n].users.Some? && 0 <= u < |rules[n].users.value| ==>
      rules[n].users.value[u] != user.username
    requires ListsMatches(listing, rules, CleanPath(vPath, Some(user)), user.username, action)
    ensures !Authorize(Some(user), listing)
    ensures Resolve(root, vPath, Some(user), Some(action), listing)
         == if HasDots(CleanPath(vPath, Some(user))) then Invalid else Denied
  {
    AuthorizesIffPermitted(user, rules, listing, CleanPath(vPath, Some(user)), action);
  }

  /** One policy that denies is enough. */
  lemma OneDenialIsEnough(root: Bytes, vPath: Bytes, user: User, action: Action, rules: map<Bytes, Rule>,
                          listing: seq<Rule>, n: Bytes)
    requires !user.admin && n in rules && rules[n].verb == Deny
    requires var path := CleanPath(vPath, Some(user));
      && Applies(rules[n], path, user.username, action)
      && ListsMatches(listing, rules, path, user.username, action)
    ensures Resolve(root, vPath, Some(user), Some(action), listing)
         == if HasDots(CleanPath(vPath, Some(user))) then Invalid else Denied
  {
    AuthorizesIffPermitted(user, rules, listing, CleanPath(vPath, Some(user)), action);
  }

  /** A path resolves for a user who is no administrator only if the policies permit it, and the order in
      which they are listed makes no difference. */
  lemma ResolvesOnlyIfPermitted(root: Bytes, vPath: Bytes, user: User, action: Action, rules: map<Bytes, Rule>,
                                listing: seq<Rule>, other: seq<Rule>)
    requires var path := CleanPath(vPath, Some(user));
      && ListsMatches(listing, rules, path, user.username, action)
      && ListsMatches(other, rules, path, user.username, action)
    ensures Resolve(root, vPath, Some(user), Some(action), listing)
         == Resolve(root, vPath, Some(user), Some(action), other)
    ensures Resolve(root, vPath, Some(user), Some(action), listing).Resolved? && !user.admin ==>
      Permitted(rules, CleanPath(vPath, Some(user)), user.username, action)
    ensures Resolve(root, vPath, Some(user), Some(action), listing) == Denied <==>
      && !HasDots(CleanPath(vPath, Some(user)))
      && !(user.admin || Permitted(rules, CleanPath(vPath, Some(user)), user.username, action))
  {
    AuthorizesIffPermitted(user, rules, listing, CleanPath(vPath, Some(user)), action);
    AuthorizesIffPermitted(user, rules, other, CleanPath(vPath, Some(user)), action);
  }

  // Users' paths are cleaned before they are checked

  lemma {:induction false} JoinEnds(stack: seq<Bytes>)
    requires stack != [] && forall i :: 0 <= i < |stack| ==> stack[i] != [] && SLASH !in stack[i]
    ensures var j := Join(stack, SLASH); j != [] && j[0] != SLASH && j[|j| - 1] != SLASH
  {
    var first := stack[0];
    assert first[0] in first && first[|first| - 1] in first;
    if |stack| > 1 {
      JoinEnds(stack[1..]);
    }
  }

  /** For a user whose path is rooted, the path that is checked is in its normal form. Dots that cleaning
      understands are gone by then, so only a name that is dots between spaces is invalid. */
  lemma UserPathIsNormal(vPath: Bytes, user: User)
    requires IsRooted(if user.chroot == [] then vPath else user.chroot)
    ensures
      var path := CleanPath(vPath, Some(user));
      var stack := Walk(true, Segments(if user.chroot == [] then vPath else user.chroot + [SLASH] + vPath), []);
      && path == Render(true, stack) && Canonical(true, stack)
      && (HasDots(path) <==> exists s :: s in stack && IsDots(s) && s != TrimSpace(s))
  {
    var joined := if user.chroot == [] then vPath else user.chroot + [SLASH] + vPath;
    var stack := Walk(true, Segments(joined), []);
    var path := CleanPath(vPath, Some(user));
    WalkIsCanonical(true, Segments(joined), []);
    assert JoinPaths(user.chroot, vPath) == Render(true, stack);
    if stack != [] {
      JoinEnds(stack);
    }
    assert TrimSlashes([SLASH] + Join(stack, SLASH)) == Join(stack, SLASH);
    DotsInSegments(stack);
  }

  lemma DotsInSegments(stack: seq<Bytes>)
    requires Canonical(true, stack)
    ensures HasDots(Render(true, stack)) <==> exists s :: s in stack && IsDots(s) && s != TrimSpace(s)
  {
    var path := Render(true, stack);
    SegmentsOfRendered(true, stack);
    BlankIsNoDots();
    if HasDots(path) {
      var i :| 0 <= i < |Segments(path)| && IsDots(Segments(path)[i]);
      assert Segments(path)[i] in stack;
    }
    if s :| s in stack && IsDots(s) && s != TrimSpace(s) {
      assert s in Segments(path);
    }
  }

  lemma BlankIsNoDots()
    ensures !IsDots([])
  {
  }

  // What dots do in the path that a user names

  /** For a user with a directory of its own, two dots take back the name before them. */
  lemma UserDotsRemoveName(v: Bytes, a: Bytes, w: Bytes, user: User)
    requires IsName(a) && (user.chroot != [] || v != [])
    ensures CleanPath(v + [SLASH] + (a + [SLASH] + (DOTDOT + [SLASH] + w)), Some(user))
         == CleanPath(v + [SLASH] + w, Some(user))
  {
    var p := if user.chroot == [] then v else user.chroot + [SLASH] + v;
    var long := a + [SLASH] + (DOTDOT + [SLASH] + w);
    assert user.chroot + [SLASH] + (v + [SLASH] + long) == user.chroot + [SLASH] + v + [SLASH] + long;
    assert user.chroot + [SLASH] + (v + [SLASH] + w) == user.chroot + [SLASH] + v + [SLASH] + w;
    DotsRemoveName(p, a, w);
  }

  /** The same for the first name. */
  lemma UserDotsRemoveFirstName(a: Bytes, w: Bytes, user: User)
    requires IsName(a) && user.chroot != []
    ensures CleanPath(a + [SLASH] + (DOTDOT + [SLASH] + w), Some(user)) == CleanPath(w, Some(user))
  {
    DotsRemoveName(user.chroot, a, w);
  }

  /** Where the user's directory is the root of the file system, two dots in front change nothing. */
  lemma UserDotsStopAtRoot(w: Bytes, user: User)
    requires IsRooted(user.chroot) && Walk(true, Segments(user.chroot), []) == []
    ensures CleanPath(DOTDOT + [SLASH] + w, Some(user)) == CleanPath(w, Some(user))
  {
    DotsStopAtRoot(user.chroot, w);
  }
}
