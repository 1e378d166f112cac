/** Access control policies: the map in memory, the table on disk, and the path lists that the map shares
    with the writer of the table. */
module Policies {
  import opened ByteStrings
  import opened Text
  import opened PathCodec

  datatype Verb = Allow | Deny

  datatype Action = Read | Write

  /** A policy as a value. A missing user list is different from any list. */
  datatype Rule = Rule(name: Bytes, verb: Verb, action: Action, users: Option<seq<Bytes>>, paths: seq<Bytes>)

  // Matching

  predicate MatchesPath(path: Bytes, paths: seq<Bytes>) {
    exists j :: 0 <= j < |paths| && paths[j] <= path
  }

  predicate MatchesUser(username: Bytes, users: Option<seq<Bytes>>) {
    users.Some? && username in users.value
  }

  predicate Matches(r: Rule, path: Bytes, username: Bytes, action: Action) {
    r.action == action && MatchesPath(path, r.paths) && MatchesUser(username, r.users)
  }

  /** The rule is for the action, the path begins with one of its paths, and the user is one of its users. */
  ghost predicate Applies(r: Rule, path: Bytes, username: Bytes, action: Action) {
    && r.action == action
    && (exists j, n :: 0 <= j < |r.paths| && 0 <= n <= |path| && r.paths[j] == path[..n])
    && (exists users, u :: r.users == Some(users) && 0 <= u < |users| && users[u] == username)
  }

  lemma MatchesIffApplies(r: Rule, path: Bytes, username: Bytes, action: Action)
    ensures Matches(r, path, username, action) <==> Applies(r, path, username, action)
  {
    if MatchesPath(path, r.paths) {
      var j :| 0 <= j < |r.paths| && r.paths[j] <= path;
      assert r.paths[j] == path[..|r.paths[j]|];
    }
    if MatchesUser(username, r.users) {
      var u :| 0 <= u < |r.users.value| && r.users.value[u] == username;
      assert r.users == Some(r.users.value);
    }
  }

  /** `listing` holds exactly the matching rules, in any order. */
  ghost predicate ListsMatches(listing: seq<Rule>, rules: map<Bytes, Rule>, path: Bytes, username: Bytes,
                               action: Action) {
    && (forall r :: r in listing ==> r.name in rules && rules[r.name] == r && Matches(r, path, username, action))
    && (forall n :: n in rules && Matches(rules[n], path, username, action) ==> rules[n] in listing)
  }

  ghost predicate NoneTwice(listing: seq<Rule>) {
    forall i, j :: 0 <= i < j < |listing| ==> listing[i].name != listing[j].name
  }

  // The table

  datatype Record = Record(name: Bytes, verb: Bytes, action: Bytes, users: Bytes, paths: Bytes)

  function VerbText(v: Verb): Bytes {
    if v == Allow then Ascii("ALLOW") else Ascii("DENY")
  }

  function ActionText(a: Action): Bytes {
    if a == Read then Ascii("R") else Ascii("W")
  }

  function UsersText(users: Option<seq<Bytes>>): Bytes {
    if users == None then Ascii("*") else Join(users.value, COLON)
  }

  function RecordOf(r: Rule): Record {
    Record(r.name, VerbText(r.verb), ActionText(r.action), UsersText(r.users), EncodePaths(r.paths))
  }

  predicate Blank(name: Bytes) {
    TrimSpace(name) == []
  }

  function ParseVerb(s: Bytes): Option<Verb> {
    if s == Ascii("ALLOW") then Some(Allow) else if s == Ascii("DENY") then Some(Deny) else None
  }

  function ParseAction(s: Bytes): Option<Action> {
    if s == Ascii("R") then Some(Read) else if s == Ascii("W") then Some(Write) else None
  }

  /** A record is rejected for a blank name, an unknown verb or action, or a path that does not decode. */
  function Parse(rec: Record): Option<Rule> {
    if Blank(rec.name) then None
    else
      match (ParseVerb(rec.verb), ParseAction(rec.action), DecodePaths(rec.paths))
      case (Some(v), Some(a), Some(ps)) => Some(Rule(rec.name, v, a, Some(Split(rec.users, COLON)), ps))
      case _ => None
  }

  /** The map that a table stands for; one corrupted record is an error for all of it. */
  function Load(table: seq<Record>): Option<map<Bytes, Rule>> {
    if table == [] then Some(map[])
    else
      match (Load(table[..|table| - 1]), Parse(table[|table| - 1]))
      case (Some(m), Some(r)) => Some(m[r.name := r])
      case _ => None
  }

  /** What a rule is after it has been written and read again. */
  function Reloaded(r: Rule): Rule {
    r.(users := Some(Split(UsersText(r.users), COLON)), paths := if r.paths == [] then [[]] else PlusAll(r.paths))
  }

  lemma ParseWritten(r: Rule)
    ensures Parse(RecordOf(r)) == if Blank(r.name) then None else Some(Reloaded(r))
  {
    DecodeEncoded(r.paths);
    assert Ascii("ALLOW")[0] == 65 && Ascii("DENY")[0] == 68;
    assert Ascii("R")[0] == 82 && Ascii("W")[0] == 87;
  }

  /** A policy without users applies to nobody until it has been read back, and then to the user `*`. */
  lemma NoUsersReadAsStar(r: Rule, path: Bytes, username: Bytes, action: Action)
    requires r.users == None && Parse(RecordOf(r)).Some?
    ensures !Applies(r, path, username, action)
    ensures Parse(RecordOf(r)).value.users == Some([[42]])
    ensures Applies(Parse(RecordOf(r)).value, path, username, action) ==> username == [42]
  {
    ParseWritten(r);
    assert Ascii("*") == [42];
    assert IndexOf([42], COLON) == 1;
  }

  /** `order` is a way to walk through `names`. */
  ghost predicate Enumerates(order: seq<Bytes>, names: set<Bytes>) {
    && (forall n :: n in names <==> n in order)
    && (forall i, j :: 0 <= i < j < |order| ==> order[i] != order[j])
  }

  ghost function RecordsOf(rules: map<Bytes, Rule>, order: seq<Bytes>): seq<Record>
    requires forall i :: 0 <= i < |order| ==> order[i] in rules
  {
    seq(|order|, i requires 0 <= i < |order| => RecordOf(rules[order[i]]))
  }

  lemma RecordsOfOneMore(rules: map<Bytes, Rule>, order: seq<Bytes>, i: nat)
    requires i < |order| && forall j :: 0 <= j < |order| ==> order[j] in rules
    ensures RecordsOf(rules, order[..i + 1]) == RecordsOf(rules, order[..i]) + [RecordOf(rules[order[i]])]
  {
  }

  /** `table` has one record for each rule, in any order. */
  ghost predicate Lists(table: seq<Record>, rules: map<Bytes, Rule>) {
    exists order :: Enumerates(order, rules.Keys) && table == RecordsOf(rules, order)
  }

  ghost predicate NamedByKey(rules: map<Bytes, Rule>) {
    forall n :: n in rules ==> rules[n].name == n
  }

  ghost predicate SomeBlank(names: set<Bytes>) {
    exists n :: n in names && Blank(n)
  }

  ghost function ReloadedOf(rules: map<Bytes, Rule>, names: set<Bytes>): map<Bytes, Rule>
    requires names <= rules.Keys
  {
    map n | n in names :: Reloaded(rules[n])
  }

  lemma OneMoreReloaded(rules: map<Bytes, Rule>, names: set<Bytes>, n: Bytes)
    requires names <= rules.Keys && n in names
    ensures ReloadedOf(rules, names) == ReloadedOf(rules, names - {n})[n := Reloaded(rules[n])]
    ensures SomeBlank(names) <==> SomeBlank(names - {n}) || Blank(n)
  {
  }

  lemma LoadOneMore(rules: map<Bytes, Rule>, order: seq<Bytes>)
    requires order != [] && (forall i :: 0 <= i < |order| ==> order[i] in rules) && NamedByKey(rules)
    ensures
      var (front, n) := (order[..|order| - 1], order[|order| - 1]);
      Load(RecordsOf(rules, order))
      == match Load(RecordsOf(rules, front))
         case Some(m) => if Blank(n) then None else Some(m[n := Reloaded(rules[n])])
         case None => None
  {
    var (front, n) := (order[..|order| - 1], order[|order| - 1]);
    assert RecordsOf(rules, order)[..|front|] == RecordsOf(rules, front);
    assert RecordsOf(rules, order)[|front|] == RecordOf(rules[n]);
    ParseWritten(rules[n]);
  }

  lemma {:induction false} LoadRecords(rules: map<Bytes, Rule>, order: seq<Bytes>, names: set<Bytes>)
    requires Enumerates(order, names) && names <= rules.Keys && NamedByKey(rules)
    ensures Load(RecordsOf(rules, order)) == if SomeBlank(names) then None else Some(ReloadedOf(rules, names))
  {
    if order == [] {
      assert names == {};
    } else {
      var (front, n) := (order[..|order| - 1], order[|order| - 1]);
      assert order == front + [n];
      LoadRecords(rules, front, names - {n});
      LoadOneMore(rules, order);
      OneMoreReloaded(rules, names, n);
    }
  }

  /** Reading a written table gives every rule as it is after a round trip, whatever order the map was
      walked in; it fails exactly if a name is blank. */
  lemma LoadWritten(table: seq<Record>, rules: map<Bytes, Rule>)
    requires Lists(table, rules) && NamedByKey(rules)
    ensures Load(table) == if SomeBlank(rules.Keys) then None else Some(ReloadedOf(rules, rules.Keys))
  {
    var order :| Enumerates(order, rules.Keys) && table == RecordsOf(rules, order);
    LoadRecords(rules, order, rules.Keys);
  }

  // Agreement of memory and disk

  /** A rule that the table's text form can hold and that escaping leaves alone. */
  predicate Plain(r: Rule) {
    && !Blank(r.name)
    && r.users.Some? && r.users.value != [] && NoneContains(r.users.value, COLON)
    && r.paths != [] && AllPlain(r.paths)
  }

  predicate AllPlain(paths: seq<Bytes>) {
    forall i :: 0 <= i < |paths| ==> PlainPath(paths[i])
  }

  predicate PlainPath(p: Bytes) {
    PERCENT !in p && COLON !in p && PLUS !in p
  }

  ghost predicate AllPlainRules(rules: map<Bytes, Rule>) {
    forall n :: n in rules ==> Plain(rules[n])
  }

  /** What the writer turns the rules in memory into, through the path lists it shares with them. */
  function Sanitized(r: Rule): Rule {
    r.(paths := EscapeAll(r.paths))
  }

  function AllSanitized(rules: map<Bytes, Rule>): map<Bytes, Rule> {
    map n | n in rules :: Sanitized(rules[n])
  }

  lemma PathAgrees(p: Bytes)
    ensures PlusToSpace(p) == Escape(p) <==> PlainPath(p)
  {
    EscapedHasNoColon(p);
    PlusToSpaceIsIdentity(p);
  }

  lemma PathsAgree(paths: seq<Bytes>)
    ensures PlusAll(paths) == EscapeAll(paths) <==> AllPlain(paths)
    ensures AllPlain(paths) ==> EscapeAll(paths) == paths
  {
    forall i | 0 <= i < |paths|
      ensures PlusToSpace(paths[i]) == Escape(paths[i]) <==> PlainPath(paths[i])
      ensures PlainPath(paths[i]) ==> Escape(paths[i]) == paths[i]
    {
      PathAgrees(paths[i]);
      EscapedHasNoColon(paths[i]);
    }
    if PlusAll(paths) == EscapeAll(paths) {
      forall i | 0 <= i < |paths|
        ensures PlainPath(paths[i])
      {
        assert PlusAll(paths)[i] == EscapeAll(paths)[i];
      }
    }
  }

  lemma RuleAgrees(r: Rule)
    ensures !Blank(r.name) && Reloaded(r) == Sanitized(r) <==> Plain(r)
    ensures Plain(r) ==> Sanitized(r) == r
  {
    PathsAgree(r.paths);
    if r.users.Some? {
      SplitUndoesJoin(r.users.value, COLON);
    }
  }

  lemma RulesAgree(rules: map<Bytes, Rule>)
    requires NamedByKey(rules)
    ensures !SomeBlank(rules.Keys) && ReloadedOf(rules, rules.Keys) == AllSanitized(rules) <==> AllPlainRules(rules)
  {
    var (read, kept) := (ReloadedOf(rules, rules.Keys), AllSanitized(rules));
    forall n | n in rules
      ensures !Blank(n) && read[n] == kept[n] <==> Plain(rules[n])
    {
      RuleAgrees(rules[n]);
    }
    assert read == kept <==> forall n :: n in rules ==> read[n] == kept[n];
  }

  /** After a write, reading the table gives what is in memory exactly if every rule was plain. */
  lemma AgreementIffPlain(table: seq<Record>, rules: map<Bytes, Rule>)
    requires Lists(table, rules) && NamedByKey(rules)
    ensures Load(table) == Some(AllSanitized(rules)) <==> AllPlainRules(rules)
  {
    LoadWritten(table, rules);
    RulesAgree(rules);
  }

  lemma PlainRulesStay(rules: map<Bytes, Rule>)
    requires AllPlainRules(rules)
    ensures AllSanitized(rules) == rules
  {
    forall n | n in rules
      ensures Sanitized(rules[n]) == rules[n]
    {
      RuleAgrees(rules[n]);
    }
  }
}
