/** The policy database: rules in memory whose path lists the writer of the table changes in place, and
    the table on disk. */
module PolicyStore {
  import opened ByteStrings
  import opened Text
  import opened PathCodec
  import opened Policies

  /** Where a rewrite of the table can fail. */
  datatype Fault = NoFault | OpenFault | HeaderFault | RecordsFault | RenameFault

  /** Where reading the table can fail, besides at a corrupted record. */
  datatype ReadFault = Readable | CannotOpen | BadHeader | BadRow(row: nat)

  datatype Error = NotFound(name: Bytes) | WriteFault(fault: Fault) | Unreadable(at: ReadFault) | Corrupted

  /** What a handle amounts to. The error is sticky. */
  datatype Store = Store(err: Option<Error>, rules: map<Bytes, Rule>, table: seq<Record>)

  /** A rewrite: the path lists in memory are escaped before the records are written, so they stay escaped
      when writing them fails; the table is replaced as a whole by the rename. */
  ghost predicate Rewritten(s: Store, fault: Fault, t: Store) {
    if s.err.Some? then t == s
    else
      match fault
      case NoFault =>
        t.err == None && t.rules == AllSanitized(s.rules) && Lists(t.table, s.rules)
      case OpenFault => t == s.(err := Some(WriteFault(fault)))
      case HeaderFault => t == s.(err := Some(WriteFault(fault)))
      case RecordsFault => t == s.(err := Some(WriteFault(fault)), rules := AllSanitized(s.rules))
      case RenameFault => t == s.(err := Some(WriteFault(fault)), rules := AllSanitized(s.rules))
  }

  datatype Op = PutOp(rule: Rule, fault: Fault) | DeleteOp(name: Bytes, fault: Fault)

  /** What the operation has the writer write. */
  function Intended(s: Store, op: Op): map<Bytes, Rule> {
    match op
    case PutOp(r, _) => s.rules[r.name := r]
    case DeleteOp(n, _) => s.rules - {n}
  }

  ghost predicate Did(s: Store, op: Op, t: Store) {
    if op.DeleteOp? && op.name !in s.rules then t == s
    else Rewritten(s.(rules := Intended(s, op)), op.fault, t)
  }

  ghost predicate InStep(s: Store) {
    s.err == None ==> Load(s.table) == Some(s.rules)
  }

  /** After an operation that rewrote the table, memory and table agree exactly if every rule was plain. */
  lemma InStepIffPlain(s: Store, op: Op, t: Store)
    requires NamedByKey(s.rules) && Did(s, op, t) && t.err == None
    requires op.DeleteOp? ==> op.name in s.rules
    ensures InStep(t) <==> AllPlainRules(Intended(s, op))
  {
    AgreementIffPlain(t.table, Intended(s, op));
  }

  ghost predicate PlainStore(s: Store) {
    NamedByKey(s.rules) && AllPlainRules(s.rules)
  }

  lemma PlainIsRewritten(s: Store, fault: Fault, t: Store)
    requires PlainStore(s) && Rewritten(s, fault, t)
    ensures t.rules == s.rules
    ensures t.err == None ==> Load(t.table) == Some(t.rules)
    ensures t.err.Some? ==> t.table == s.table
    ensures s.err.Some? ==> t.err.Some?
  {
    PlainRulesStay(s.rules);
    if t.err == None {
      AgreementIffPlain(t.table, s.rules);
    }
  }

  lemma IntendedIsPlain(s: Store, op: Op)
    requires PlainStore(s) && (op.PutOp? ==> Plain(op.rule))
    ensures NamedByKey(Intended(s, op)) && AllPlainRules(Intended(s, op))
  {
  }

  lemma PlainStaysInStep(s: Store, op: Op, t: Store)
    requires PlainStore(s) && InStep(s) && Did(s, op, t)
    requires op.PutOp? ==> Plain(op.rule)
    ensures PlainStore(t) && InStep(t)
    ensures t.rules == if op.DeleteOp? && op.name !in s.rules then s.rules else Intended(s, op)
    ensures t.err.Some? ==> t.table == s.table
    ensures s.err.Some? ==> t.err.Some?
  {
    if !(op.DeleteOp? && op.name !in s.rules) {
      IntendedIsPlain(s, op);
      PlainIsRewritten(s.(rules := Intended(s, op)), op.fault, t);
    }
  }

  ghost predicate IsRun(states: seq<Store>, ops: seq<Op>) {
    && |states| == |ops| + 1
    && forall i :: 0 <= i < |ops| ==> Did(states[i], ops[i], states[i + 1])
  }

  /** Nothing but failures has happened since `j`. */
  ghost predicate LastGood(states: seq<Store>, j: nat, k: nat)
    requires k < |states|
  {
    j <= k && states[j].err == None && forall i :: j < i <= k ==> states[i].err.Some?
  }

  /** Whatever is put, deleted and fails to be written: as long as no error is recorded the table reads back
      as memory; afterwards it still reads back as memory was at the last rewrite that succeeded. */
  lemma {:induction false} TableHoldsMemory(states: seq<Store>, ops: seq<Op>, k: nat)
    requires IsRun(states, ops) && k < |states|
    requires PlainStore(states[0]) && states[0].err == None && InStep(states[0])
    requires forall i :: 0 <= i < |ops| && ops[i].PutOp? ==> Plain(ops[i].rule)
    ensures PlainStore(states[k]) && InStep(states[k])
    ensures exists j: nat :: LastGood(states, j, k) && Load(states[k].table) == Some(states[j].rules)
  {
    if k == 0 {
      assert LastGood(states, 0, 0);
    } else {
      TableHoldsMemory(states, ops, k - 1);
      var before: nat :| LastGood(states, before, k - 1) && Load(states[k - 1].table) == Some(states[before].rules);
      assert Did(states[k - 1], ops[k - 1], states[k]);
      PlainStaysInStep(states[k - 1], ops[k - 1], states[k]);
      var last: nat := if states[k].err == None then k else before;
      assert LastGood(states, last, k);
      assert Load(states[k].table) == Some(states[last].rules);
    }
  }

  // What goes wrong for other paths

  function EscapeTimes(p: Bytes, n: nat): Bytes {
    if n == 0 then p else Escape(EscapeTimes(p, n - 1))
  }

  /** A path with a colon or a percent sign gets longer with every rewrite. */
  lemma {:induction false} RewritesPileUp(p: Bytes, n: nat)
    requires PERCENT in p || COLON in p
    ensures |EscapeTimes(p, n)| >= |p| + n
    ensures PERCENT in EscapeTimes(p, n) || COLON in EscapeTimes(p, n)
  {
    if n > 0 {
      RewritesPileUp(p, n - 1);
      var q := EscapeTimes(p, n - 1);
      EscapedHasNoColon(q);
      EscapeKeepsPercent(q);
    }
  }

  lemma {:induction false} EscapeKeepsPercent(p: Bytes)
    ensures PERCENT in Escape(p) <==> PERCENT in p || COLON in p
  {
    if p != [] {
      EscapeFirst(p);
      EscapeKeepsPercent(p[1..]);
      assert EscapeByte(p[0])[0] in Escape(p);
    }
  }

  /** The rewrite leaves what a path matches alone exactly if it has neither. */
  lemma RewriteKeepsMatches(p: Bytes)
    ensures (forall path :: MatchesPath(path, [Escape(p)]) == MatchesPath(path, [p])) <==> PERCENT !in p && COLON !in p
  {
    EscapedHasNoColon(p);
    assert [p][0] == p;
    assert MatchesPath(p, [p]);
  }

  /** The paths of a policy, changed in place. */
  class PathList {
    var elems: seq<Bytes>

    constructor (paths: seq<Bytes>)
      ensures elems == paths
    {
      elems := paths;
    }
  }

  /** A policy as the handle stores it: its list of paths is shared by all copies of the policy. */
  datatype Policy = Policy(name: Bytes, verb: Verb, action: Action, users: Option<seq<Bytes>>, paths: PathList)

  /** A policy with a given list of paths, as a value. */
  ghost function WithPaths(p: Policy, paths: seq<Bytes>): Rule {
    Rule(p.name, p.verb, p.action, p.users, paths)
  }

  method SanitizePaths(p: Policy)
    modifies p.paths`elems
    ensures p.paths.elems == EscapeAll(old(p.paths.elems))
  {
    for i := 0 to |p.paths.elems|
      invariant |p.paths.elems| == |old(p.paths.elems)|
      invariant forall k :: 0 <= k < i ==> p.paths.elems[k] == Escape(old(p.paths.elems)[k])
      invariant forall k :: i <= k < |p.paths.elems| ==> p.paths.elems[k] == old(p.paths.elems)[k]
    {
      var path := p.paths.elems[i];
      path := ReplaceAll(path, PERCENT, ESCAPED_PERCENT);
      path := ReplaceAll(path, COLON, ESCAPED_COLON);
      p.paths.elems := p.paths.elems[i := path];
    }
  }

  /** The record is of the policy as it was; the policy is left with its paths escaped. */
  method WriteRecord(p: Policy, ghost was: Rule) returns (rec: Record)
    requires was == WithPaths(p, p.paths.elems)
    modifies p.paths`elems
    ensures rec == RecordOf(was)
    ensures p.paths.elems == EscapeAll(was.paths)
  {
    var userList := UsersText(p.users);
    SanitizePaths(p);
    rec := Record(p.name, VerbText(p.verb), ActionText(p.action), userList, Join(p.paths.elems, COLON));
  }

  method MatchesPathOf(path: Bytes, p: Policy) returns (yes: bool)
    ensures yes == MatchesPath(path, p.paths.elems)
  {
    for i := 0 to |p.paths.elems|
      invariant forall k :: 0 <= k < i ==> !(p.paths.elems[k] <= path)
    {
      if p.paths.elems[i] <= path {
        return true;
      }
    }
    return false;
  }

  method MatchesUserOf(username: Bytes, p: Policy) returns (yes: bool)
    ensures yes == MatchesUser(username, p.users)
  {
    var users := if p.users.Some? then p.users.value else [];
    for i := 0 to |users|
      invariant username !in users[..i]
    {
      if users[i] == username {
        return true;
      }
    }
    return false;
  }

  method MatchesPolicy(path: Bytes, username: Bytes, action: Action, p: Policy) returns (yes: bool)
    ensures yes == Matches(WithPaths(p, p.paths.elems), path, username, action)
  {
    var inPath := MatchesPathOf(path, p);
    var isUser := MatchesUserOf(username, p);
    yes := p.action == action && inPath && isUser;
  }

  /** What stored policies amount to. */
  ghost function RulesOf(ps: seq<Policy>): seq<Rule>
    reads set i | 0 <= i < |ps| :: ps[i].paths
  {
    if ps == [] then []
    else
      var last := ps[|ps| - 1];
      RulesOf(ps[..|ps| - 1]) + [WithPaths(last, last.paths.elems)]
  }

  lemma {:induction false} RulesOfIs(ps: seq<Policy>, rs: seq<Rule>)
    requires |rs| == |ps|
    requires forall i :: 0 <= i < |ps| ==> rs[i] == WithPaths(ps[i], ps[i].paths.elems)
    ensures RulesOf(ps) == rs
  {
    if ps != [] {
      RulesOfIs(ps[..|ps| - 1], rs[..|rs| - 1]);
    }
  }

  /** The matching rules along `order`. */
  ghost function Matching(rules: map<Bytes, Rule>, order: seq<Bytes>, path: Bytes, username: Bytes,
                          action: Action): seq<Rule>
    requires forall i :: 0 <= i < |order| ==> order[i] in rules
  {
    if order == [] then []
    else
      var r := rules[order[|order| - 1]];
      Matching(rules, order[..|order| - 1], path, username, action)
      + (if Matches(r, path, username, action) then [r] else [])
  }

  lemma {:induction false} MatchingFits(rules: map<Bytes, Rule>, order: seq<Bytes>, names: set<Bytes>,
                                        path: Bytes, username: Bytes, action: Action)
    requires Enumerates(order, names) && names <= rules.Keys && NamedByKey(rules)
    ensures var listed := Matching(rules, order, path, username, action);
      && (forall r :: r in listed ==> r.name in names && rules[r.name] == r && Matches(r, path, username, action))
      && (forall n :: n in names && Matches(rules[n], path, username, action) ==> rules[n] in listed)
      && NoneTwice(listed)
  {
    if order != [] {
      var (front, n) := (order[..|order| - 1], order[|order| - 1]);
      assert order == front + [n];
      MatchingFits(rules, front, names - {n}, path, username, action);
    }
  }

  /** The error that reading a table ends with. */
  function ReadError(table: seq<Record>, fault: ReadFault): Option<Error> {
    match fault
    case BadRow(j) =>
      if j >= |table| then (if Load(table) == None then Some(Corrupted) else None)
      else if Load(table[..j]) == None then Some(Corrupted)
      else Some(Unreadable(fault))
    case Readable => if Load(table) == None then Some(Corrupted) else None
    case _ => Some(Unreadable(fault))
  }

  lemma LoadNextRow(table: seq<Record>, i: nat)
    requires i < |table| && Load(table[..i]).Some? && Parse(table[i]).Some?
    ensures Load(table[..i + 1]) == Some(Load(table[..i]).value[Parse(table[i]).value.name := Parse(table[i]).value])
  {
    assert table[..i + 1][..i] == table[..i];
  }

  lemma FirstCorruption(table: seq<Record>, i: nat, fault: ReadFault)
    requires i < |table| && Parse(table[i]) == None
    requires fault != CannotOpen && fault != BadHeader && (fault.BadRow? ==> i < fault.row)
    ensures ReadError(table, fault) == Some(Corrupted)
  {
    CorruptionSpreads(table, i);
    if fault.BadRow? && fault.row < |table| {
      CorruptionSpreads(table[..fault.row], i);
    }
  }

  lemma {:induction false} CorruptionSpreads(table: seq<Record>, i: nat)
    requires i < |table| && Parse(table[i]) == None
    ensures Load(table) == None
    decreases |table|
  {
    if i < |table| - 1 {
      CorruptionSpreads(table[..|table| - 1], i);
    }
  }

  /** A map is walked in an arbitrary order. */
  method SomeOrder(names: set<Bytes>) returns (order: seq<Bytes>)
    ensures Enumerates(order, names)
  {
    order := [];
    var todo := names;
    while todo != {}
      invariant todo <= names && Enumerates(order, names - todo)
      decreases |todo|
    {
      var n :| n in todo;
      order, todo := order + [n], todo - {n};
    }
  }

  class Handle {
    var err: Option<Error>
    var policies: map<Bytes, Policy>
    var table: seq<Record>
    ghost var owner: map<PathList, Bytes> // the policy that a list of paths belongs to
    ghost var rules: map<Bytes, Rule> // what the policies amount to

    /** Every policy is under its own name, and no two of them share a list of paths. */
    ghost predicate Valid()
      reads this`policies, this`owner, this`rules, owner.Keys
    {
      Owned() && Mirrors(rules)
    }

    ghost predicate Owned()
      reads this`policies, this`owner
    {
      forall n :: n in policies ==>
        policies[n].name == n && policies[n].paths in owner && owner[policies[n].paths] == n
    }

    ghost predicate Mirrors(rs: map<Bytes, Rule>)
      requires Owned()
      reads this`policies, this`owner, owner.Keys
    {
      && policies.Keys == rs.Keys
      && forall n :: n in policies ==> rs[n] == WithPaths(policies[n], policies[n].paths.elems)
    }

    ghost function Contents(): Store
      reads this`err, this`rules, this`table
    {
      Store(err, rules, table)
    }

    constructor (table: seq<Record>)
      ensures Valid() && Contents() == Store(None, map[], table)
      ensures owner == map[]
    {
      err, policies, rules, owner := None, map[], map[], map[];
      this.table := table;
    }

    /** The records of all policies, written in the order in which the map is walked. */
    method Records(order: seq<Bytes>) returns (records: seq<Record>)
      requires Valid() && Enumerates(order, policies.Keys)
      modifies owner.Keys
      ensures forall n :: n in policies ==> policies[n].paths.elems == EscapeAll(rules[n].paths)
      ensures records == RecordsOf(rules, order)
    {
      records := [];
      ghost var was := rules;
      for i := 0 to |order|
        invariant records == RecordsOf(was, order[..i])
        invariant forall j :: 0 <= j < i ==> policies[order[j]].paths.elems == EscapeAll(was[order[j]].paths)
        invariant forall j :: i <= j < |order| ==> policies[order[j]].paths.elems == was[order[j]].paths
      {
        var rec := WriteRecord(policies[order[i]], was[order[i]]);
        RecordsOfOneMore(was, order, i);
        records := records + [rec];
      }
      assert order[..|order|] == order;
    }

    lemma MirrorsSanitized()
      requires Owned() && policies.Keys == rules.Keys
      requires forall n :: n in policies ==> rules[n] == WithPaths(policies[n], rules[n].paths)
      requires forall n :: n in policies ==> policies[n].paths.elems == EscapeAll(rules[n].paths)
      ensures Mirrors(AllSanitized(rules))
    {
    }

    method AllRecords() returns (records: seq<Record>)
      requires Valid()
      modifies this`rules, owner.Keys
      ensures Valid() && rules == AllSanitized(old(rules))
      ensures Lists(records, old(rules))
    {
      var order := SomeOrder(policies.Keys);
      records := Records(order);
      MirrorsSanitized();
      rules := AllSanitized(rules);
    }

    method WriteAccessPolicies(fault: Fault)
      requires Valid()
      modifies this`err, this`table, this`rules, owner.Keys
      ensures Valid() && Rewritten(old(Contents()), fault, Contents())
    {
      if err.Some? {
        return;
      }
      if fault == OpenFault || fault == HeaderFault {
        err := Some(WriteFault(fault));
        return;
      }
      var records := AllRecords();
      if fault != NoFault {
        err := Some(WriteFault(fault));
        return;
      }
      table := records;
    }

    /** The policy is stored, and seen by readers, even when an earlier error keeps the table as it is. */
    method PutAccessPolicy(p: Policy, fault: Fault) returns (e: Option<Error>)
      requires Valid()
      requires forall n :: n in policies && policies[n].paths == p.paths ==> n == p.name
      modifies this, owner.Keys, p.paths
      ensures Valid() && e == err
      ensures Did(old(Contents()), PutOp(WithPaths(p, old(p.paths.elems)), fault), Contents())
    {
      Put(p, WithPaths(p, p.paths.elems));
      WriteAccessPolicies(fault);
      e := err;
    }

    method Put(p: Policy, ghost r: Rule)
      requires Valid() && r == WithPaths(p, p.paths.elems)
      requires forall n :: n in policies && policies[n].paths == p.paths ==> n == p.name
      modifies this`policies, this`owner, this`rules
      ensures Valid() && rules == old(rules)[p.name := r]
      ensures owner == old(owner)[p.paths := p.name]
    {
      policies := policies[p.name := p];
      owner := owner[p.paths := p.name];
      rules := rules[p.name := r];
    }

    method DeleteAccessPolicy(name: Bytes, fault: Fault) returns (e: Option<Error>)
      requires Valid()
      modifies this, owner.Keys
      ensures Valid()
      ensures e == if name in old(rules) then err else Some(NotFound(name))
      ensures Did(old(Contents()), DeleteOp(name, fault), Contents())
    {
      if name !in policies {
        return Some(NotFound(name));
      }
      policies := policies - {name};
      rules := rules - {name};
      WriteAccessPolicies(fault);
      e := err;
    }

    method ReadRecord(rec: Record) returns (ok: bool)
      requires Valid()
      modifies this`policies, this`owner, this`rules
      ensures Valid() && ok == Parse(rec).Some?
      ensures ok ==> rules == old(rules)[rec.name := Parse(rec).value] && Parse(rec).value.name == rec.name
    {
      match Parse(rec)
      case None =>
        ok := false;
      case Some(r) =>
        var paths := new PathList(r.paths);
        Put(Policy(r.name, r.verb, r.action, r.users, paths), r);
        ok := true;
    }

    /** Fills an empty handle from the table. The first row that cannot be read, or whose record is corrupted,
        ends the reading. */
    method ReadAccessPolicies(fault: ReadFault)
      requires Valid() && rules == map[]
      modifies this`err, this`policies, this`owner, this`rules
      ensures Valid()
      ensures old(err).Some? ==> Contents() == old(Contents())
      ensures old(err) == None ==> err == ReadError(table, fault)
      ensures old(err) == None && err == None ==> Load(table) == Some(rules)
    {
      if err.Some? {
        return;
      }
      if fault == CannotOpen || fault == BadHeader {
        err := Some(Unreadable(fault));
        return;
      }
      ReadRecords(fault);
    }

    method ReadRecords(fault: ReadFault)
      requires Valid() && rules == map[] && err == None && fault != CannotOpen && fault != BadHeader
      modifies this`err, this`policies, this`owner, this`rules
      ensures Valid() && err == ReadError(table, fault)
      ensures err == None ==> Load(table) == Some(rules)
    {
      var rows := table;
      for i := 0 to |rows|
        invariant Valid() && err == None
        invariant Load(rows[..i]) == Some(rules)
        invariant fault.BadRow? ==> i <= fault.row
      {
        if fault == BadRow(i) {
          err := Some(Unreadable(fault));
          return;
        }
        var ok := ReadRecord(rows[i]);
        if !ok {
          FirstCorruption(rows, i, fault);
          err := Some(Corrupted);
          return;
        }
        LoadNextRow(rows, i);
      }
      assert rows[..|rows|] == rows;
    }

    method PickPolicies(path: Bytes, username: Bytes, action: Action)
      returns (listing: seq<Policy>, ghost listed: seq<Rule>)
      requires Valid()
      ensures ListsMatches(listed, rules, path, username, action) && NoneTwice(listed)
      ensures |listed| == |listing|
      ensures forall i :: 0 <= i < |listing| ==> listed[i] == WithPaths(listing[i], listing[i].paths.elems)
      ensures forall p :: p in listing ==> p.name in policies && policies[p.name] == p
    {
      listing, listed := [], [];
      var order := SomeOrder(policies.Keys);
      for i := 0 to |order|
        invariant |listed| == |listing|
        invariant forall j :: 0 <= j < |listing| ==> listed[j] == WithPaths(listing[j], listing[j].paths.elems)
        invariant forall p :: p in listing ==> p.name in policies && policies[p.name] == p
        invariant listed == Matching(rules, order[..i], path, username, action)
      {
        var p := policies[order[i]];
        var yes := MatchesPolicy(path, username, action, p);
        assert order[..i + 1][..i] == order[..i];
        if yes {
          listing := listing + [p];
          listed := listed + [rules[order[i]]];
        }
      }
      assert order[..|order|] == order;
      MatchingFits(rules, order, rules.Keys, path, username, action);
    }

    /** Exactly the stored policies for the action that name the user and begin the path, each once, in some
        order. */
    method GetPolicies(path: Bytes, username: Bytes, action: Action) returns (listing: seq<Policy>)
      requires Valid()
      ensures forall p :: p in listing ==>
        && p.name in policies && policies[p.name] == p
        && p.action == action
        && (exists users, u :: p.users == Some(users) && 0 <= u < |users| && users[u] == username)
        && (exists j, n :: 0 <= j < |p.paths.elems| && 0 <= n <= |path| && p.paths.elems[j] == path[..n])
      ensures forall n, users, u, j, m ::
        && n in policies && policies[n].action == action
        && policies[n].users == Some(users) && 0 <= u < |users| && users[u] == username
        && 0 <= j < |policies[n].paths.elems| && 0 <= m <= |path| && policies[n].paths.elems[j] == path[..m]
        ==> policies[n] in listing
      ensures forall i, j :: 0 <= i < j < |listing| ==> listing[i].name != listing[j].name
      ensures ListsMatches(RulesOf(listing), rules, path, username, action) && NoneTwice(RulesOf(listing))
    {
      ghost var listed;
      listing, listed := PickPolicies(path, username, action);
      ListedPoliciesApply(listing, listed, path, username, action);
      ApplyingAreListed(listing, listed, path, username, action);
      RulesOfIs(listing, listed);
    }

    lemma ListedPoliciesApply(listing: seq<Policy>, listed: seq<Rule>, path: Bytes, username: Bytes, action: Action)
      requires |listed| == |listing|
      requires forall i :: 0 <= i < |listing| ==> listed[i] == WithPaths(listing[i], listing[i].paths.elems)
      requires forall r :: r in listed ==> Matches(r, path, username, action)
      ensures forall p :: p in listing ==> Applies(WithPaths(p, p.paths.elems), path, username, action)
    {
      forall p | p in listing
        ensures Applies(WithPaths(p, p.paths.elems), path, username, action)
      {
        var i :| 0 <= i < |listing| && listing[i] == p;
        assert listed[i] in listed;
        MatchesIffApplies(listed[i], path, username, action);
      }
    }

    lemma ApplyingAreListed(listing: seq<Policy>, listed: seq<Rule>, path: Bytes, username: Bytes, action: Action)
      requires Valid() && ListsMatches(listed, rules, path, username, action) && |listed| == |listing|
      requires forall i :: 0 <= i < |listing| ==> listed[i].name == listing[i].name
      requires forall p :: p in listing ==> p.name in policies && policies[p.name] == p
      ensures forall n :: n in policies && Applies(rules[n], path, username, action) ==> policies[n] in listing
    {
      forall n | n in policies && Applies(rules[n], path, username, action)
        ensures policies[n] in listing
      {
        MatchesIffApplies(rules[n], path, username, action);
        var i :| 0 <= i < |listed| && listed[i] == rules[n];
        assert listing[i] in listing;
      }
    }
  }
}
