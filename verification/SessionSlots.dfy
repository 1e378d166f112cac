/** The slot table over all runs: the count, who owns a slot, and when an id can be used again. */
module SessionSlots {
  import opened ByteStrings
  import opened SessionModel
  import opened SessionFootprints

  function Occupied(slots: seq<Option<nat>>): (n: nat)
    ensures n <= |slots|
  {
    if slots == [] then 0 else (if slots[0].Some? then 1 else 0) + Occupied(slots[1..])
  }

  lemma {:induction false} OccupiedUpdate(slots: seq<Option<nat>>, t: nat, o: Option<nat>)
    requires t < |slots|
    ensures Occupied(slots[t := o])
         == Occupied(slots) - (if slots[t].Some? then 1 else 0) + (if o.Some? then 1 else 0)
  {
    if t == 0 {
      assert slots[t := o][1..] == slots[1..];
    } else {
      assert slots[t := o][1..] == slots[1..][t - 1 := o];
      OccupiedUpdate(slots[1..], t - 1, o);
    }
  }

  lemma {:induction false} AllFree(slots: seq<Option<nat>>)
    requires forall t :: 0 <= t < |slots| ==> slots[t] == None
    ensures Occupied(slots) == 0
  {
    if slots != [] {
      AllFree(slots[1..]);
    }
  }

  /** A slot is refused exactly when all of them are taken. */
  lemma {:induction false} RefusedIffFull(slots: seq<Option<nat>>)
    ensures FreeSlot(slots) == |slots| <==> Occupied(slots) == |slots|
  {
    if slots != [] {
      RefusedIffFull(slots[1..]);
    }
  }

  /** Every occupied slot belongs to one handler that has not released it, and conversely; of two streams
      with the same id, the earlier one has released it. */
  ghost predicate TableInv(s: State) {
    && |s.slots| == SLOTS
    && s.streamCount == Occupied(s.slots)
    && (forall t :: 0 <= t < SLOTS && s.slots[t].Some? ==> Owns(s, s.slots[t].value, t))
    && (forall i :: 0 <= i < |s.streams| ==> s.streams[i].id < SLOTS)
    && (forall i :: 0 <= i < |s.streams| && s.streams[i].life != Released ==> s.slots[s.streams[i].id] == Some(i))
    && (forall i, j :: 0 <= i < j < |s.streams| && s.streams[i].id == s.streams[j].id ==> s.streams[i].life == Released)
  }

  ghost predicate Owns(s: State, i: nat, t: nat) {
    i < |s.streams| && s.streams[i].id == t && s.streams[i].life != Released
  }

  /** `CloseStream` waits for the stream that it found under its id, and no younger one has the id meanwhile. */
  ghost predicate ClosingFits(s: State) {
    s.worker.Closing? ==>
      && s.worker.i < |s.streams| && s.streams[s.worker.i].id == s.worker.id
      && forall j :: s.worker.i < j < |s.streams| ==> s.streams[j].id != s.worker.id
  }

  /** What every step does to a stream that is there already: it keeps its id and its job, and its life
      only goes forward. */
  ghost predicate Evolves(before: Stream, after: Stream) {
    && before.id == after.id
    && LifeStage(before.life) <= LifeStage(after.life)
    && SameJob(before.body, after.body)
  }

  predicate SameJob(b: Body, c: Body) {
    match b
    case Reads(r) => c.Reads? && c.r.path == r.path && c.r.file == r.file
    case Writes(w) => c.Writes? && c.w.path == w.path
    case Copies(y) => c.Copies? && c.c.from == y.from && c.c.path == y.path
  }

  function LifeStage(l: Life): nat {
    match l
    case Active => 0
    case Returned => 1
    case Closed => 2
    case Released => 3
  }

  lemma LocalEvolves(st: Stream, done: bool, fs: Files, a: StreamAct)
    requires LocalEnabled(st, done, fs, a)
    ensures Evolves(st, Local(st, done, fs, a).0)
    ensures Local(st, done, fs, a).0.life != Released
  {
  }

  ghost predicate AllEvolve(s: State, t: State) {
    && |s.streams| <= |t.streams|
    && forall i :: 0 <= i < |s.streams| ==> Evolves(s.streams[i], t.streams[i])
  }

  ghost predicate NoneReleased(s: State, t: State) {
    |s.streams| <= |t.streams| && forall i :: 0 <= i < |s.streams| && s.streams[i].life != Released ==>
      t.streams[i].life != Released
  }

  ghost predicate SameTable(s: State, t: State) {
    t.slots == s.slots && t.streamCount == s.streamCount && |t.streams| == |s.streams|
  }

  ghost predicate OpensStream(w: WorkerAct) {
    w.OpenRead? || w.OpenWrite? || w.OpenCopy?
  }

  lemma ReaderEvolves(k: Params, s: State, a: ReaderAct)
    requires ReaderEnabled(k, s, a)
    ensures var t := ReaderNext(k, s, a); AllEvolve(s, t) && NoneReleased(s, t) && SameTable(s, t)
  {
  }

  lemma WorkerEvolves(s: State, a: WorkerAct)
    requires WorkerEnabled(s, a)
    ensures var t := WorkerNext(s, a);
      AllEvolve(s, t) && NoneReleased(s, t) && (OpensStream(a) || SameTable(s, t))
  {
    match a
    case Signal => SignalEvolves(s);
    case _ =>
  }

  lemma SignalEvolves(s: State)
    requires WorkerEnabled(s, Signal)
    ensures var t := WorkerNext(s, Signal); AllEvolve(s, t) && NoneReleased(s, t) && SameTable(s, t)
  {
  }

  lemma WriterEvolves(k: Params, s: State, a: WriterAct)
    requires WriterEnabled(k, s, a)
    ensures var t := WriterNext(k, s, a); AllEvolve(s, t) && NoneReleased(s, t) && SameTable(s, t)
  {
  }

  lemma HandlerEvolves(k: Params, s: State, i: nat, h: StreamAct)
    requires Enabled(k, s, ByHandler(i, h))
    ensures var t := Next(k, s, ByHandler(i, h)); AllEvolve(s, t) && NoneReleased(s, t) && SameTable(s, t)
  {
    LocalEvolves(s.streams[i], s.done, s.fs, h);
  }

  lemma OtherEvolves(k: Params, s: State, a: Action)
    requires Enabled(k, s, a) && (a.Queue? || a.Free? || a.CloseSession?)
    ensures AllEvolve(s, Next(k, s, a))
    ensures !a.Free? ==> NoneReleased(s, Next(k, s, a)) && SameTable(s, Next(k, s, a))
  {
  }

  /** What every step does to the streams that are there already. */
  lemma StreamsEvolve(k: Params, s: State, a: Action)
    requires Enabled(k, s, a)
    ensures AllEvolve(s, Next(k, s, a))
    ensures !a.Free? ==> NoneReleased(s, Next(k, s, a))
    ensures !a.Free? && !(a.ByWorker? && OpensStream(a.w)) ==> SameTable(s, Next(k, s, a))
  {
    match a
    case ByReader(r) => ReaderEvolves(k, s, r);
    case ByWorker(w) => WorkerEvolves(s, w);
    case ByWriter(o) => WriterEvolves(k, s, o);
    case ByHandler(i, h) => HandlerEvolves(k, s, i, h);
    case _ => OtherEvolves(k, s, a);
  }

  lemma OpenedKeepsTable(s: State, body: Body)
    requires TableInv(s) && FreeSlot(s.slots) < |s.slots|
    ensures TableInv(Opened(s, body))
  {
    OccupiedUpdate(s.slots, FreeSlot(s.slots), Some(|s.streams|));
  }

  lemma TableInitially(s: State)
    requires Initial(s)
    ensures TableInv(s)
  {
    AllFree(s.slots);
  }

  lemma TablePreserved(k: Params, s: State, a: Action)
    requires TableInv(s) && Enabled(k, s, a)
    ensures TableInv(Next(k, s, a))
  {
    if a.ByWorker? && OpensStream(a.w) {
      OpeningKeepsTable(s, a.w);
    } else if a.Free? {
      FreeingKeepsTable(k, s, a.i);
    } else {
      StreamsEvolve(k, s, a);
      TableFramed(s, Next(k, s, a));
    }
  }

  lemma ClosingPreserved(k: Params, s: State, a: Action)
    requires TableInv(s) && ClosingFits(s) && Enabled(k, s, a)
    ensures ClosingFits(Next(k, s, a))
  {
    var t := Next(k, s, a);
    StreamsEvolve(k, s, a);
    if a.ByWorker? && a.w.CloseById? {
      assert Owns(s, t.worker.i, t.worker.id);
    } else if t.worker.Closing? {
      ClosingGoesOn(k, s, a);
    }
  }

  lemma ClosingGoesOn(k: Params, s: State, a: Action)
    requires Enabled(k, s, a) && !(a.ByWorker? && a.w.CloseById?) && Next(k, s, a).worker.Closing?
    ensures var t := Next(k, s, a);
      && s.worker.Closing? && t.worker.i == s.worker.i && t.worker.id == s.worker.id
      && |t.streams| == |s.streams|
  {
    if a.ByWorker? {
      WorkerClosingGoesOn(s, a.w);
    } else {
      OthersLeaveWorker(k, s, a);
    }
  }

  lemma WorkerClosingGoesOn(s: State, a: WorkerAct)
    requires WorkerEnabled(s, a) && !a.CloseById? && WorkerNext(s, a).worker.Closing?
    ensures var t := WorkerNext(s, a);
      && s.worker.Closing? && t.worker.i == s.worker.i && t.worker.id == s.worker.id
      && |t.streams| == |s.streams|
  {
  }

  lemma OthersLeaveWorker(k: Params, s: State, a: Action)
    requires Enabled(k, s, a) && !a.ByWorker?
    ensures Next(k, s, a).worker == s.worker && |Next(k, s, a).streams| == |s.streams|
  {
    match a
    case ByReader(r) => ReaderFootprint(k, s, r);
    case ByWriter(o) => WriterFootprint(k, s, o);
    case _ =>
  }

  lemma OpeningKeepsTable(s: State, a: WorkerAct)
    requires TableInv(s) && OpensStream(a) && WorkerEnabled(s, a)
    ensures TableInv(WorkerNext(s, a))
  {
    match a
    case OpenRead(path) => OpenedKeepsTable(s, NewReadBody(path, s.fs[path]));
    case OpenWrite(path) => OpenedKeepsTable(s, NewWriteBody(path));
    case OpenCopy(from, path) => OpenedKeepsTable(s, NewCopyBody(from, path));
  }

  lemma FreeingKeepsTable(k: Params, s: State, i: nat)
    requires TableInv(s) && Enabled(k, s, Free(i))
    ensures TableInv(Next(k, s, Free(i)))
  {
    OccupiedUpdate(s.slots, s.streams[i].id, None);
  }

  lemma TableFramed(s: State, t: State)
    requires TableInv(s) && SameTable(s, t) && AllEvolve(s, t) && NoneReleased(s, t)
    ensures TableInv(t)
  {
  }
}
