/** Where the bytes that streams deliver come from: the files, at the moment a stream opens its source. */
module SessionSources {
  import opened ByteStrings
  import opened SessionModel
  import opened SessionFootprints
  import opened SessionFiles
  import opened SessionRuns

  predicate Holds(s: State, path: Path, data: Bytes) {
    path in s.fs && s.fs[path] == data
  }

  /** The job's bytes were in the file: for a read stream from the start, for a copy once the source is open. */
  predicate SourceIsOpen(b: Body) {
    match b
    case Reads(_) => true
    case Writes(_) => false
    case Copies(c) => c.pc == CCreate || c.tmp != NotCreated
  }

  function SourcePath(b: Body): Path
    requires !b.Writes?
  {
    if b.Reads? then b.r.path else b.c.from
  }

  function SourceData(b: Body): Bytes
    requires !b.Writes?
  {
    if b.Reads? then b.r.file else b.c.src
  }

  ghost predicate OpenAt(s: State, i: nat) {
    i < |s.streams| && SourceIsOpen(s.streams[i].body)
  }

  /** The source is opened in this state; a read stream opens it together with itself. */
  ghost predicate OpenedOn(s: State, i: nat, b: Body)
    requires !b.Writes?
  {
    Holds(s, SourcePath(b), SourceData(b)) && (b.Reads? ==> i == |s.streams|)
  }

  predicate SameSource(b: Body, c: Body)
    requires !c.Writes?
  {
    !b.Writes? && b.Reads? == c.Reads? && SourcePath(b) == SourcePath(c) && SourceData(b) == SourceData(c)
  }

  /** A source that is open in `t` was open in `s` with the same bytes, or is opened on a file of `s`. */
  ghost predicate OpensByStep(s: State, t: State, i: nat) {
    OpenAt(t, i) ==>
      var b := t.streams[i].body;
      if OpenAt(s, i) then SameSource(s.streams[i].body, b)
      else OpenedOn(s, i, b)
  }

  lemma StepOpens(k: Params, s: State, t: State, i: nat)
    requires FilesInv(s) && Step(k, s, t)
    ensures OpensByStep(s, t, i)
  {
    var a: Action :| Enabled(k, s, a) && t == Next(k, s, a);
    match a
    case ByReader(r) => ReaderOpens(k, s, r, i);
    case ByWorker(w) => WorkerOpens(s, w, i);
    case ByWriter(o) => WriterOpens(k, s, o, i);
    case ByHandler(j, h) => HandlerOpens(k, s, j, h, i);
    case _ => RestOpens(k, s, a, i);
  }

  lemma RestOpens(k: Params, s: State, a: Action, i: nat)
    requires Enabled(k, s, a) && (a.Queue? || a.Free? || a.CloseSession?)
    ensures OpensByStep(s, Next(k, s, a), i)
  {
  }

  lemma ReaderOpens(k: Params, s: State, a: ReaderAct, i: nat)
    requires ReaderEnabled(k, s, a)
    ensures OpensByStep(s, ReaderNext(k, s, a), i)
  {
    ReaderFootprint(k, s, a);
  }

  lemma WriterOpens(k: Params, s: State, a: WriterAct, i: nat)
    requires WriterEnabled(k, s, a)
    ensures OpensByStep(s, WriterNext(k, s, a), i)
  {
    WriterFootprint(k, s, a);
  }

  lemma WorkerOpens(s: State, a: WorkerAct, i: nat)
    requires WorkerEnabled(s, a)
    ensures OpensByStep(s, WorkerNext(s, a), i)
  {
    WorkerFootprint(s, a);
  }

  lemma HandlerOpens(k: Params, s: State, j: nat, h: StreamAct, i: nat)
    requires FilesInv(s) && Enabled(k, s, ByHandler(j, h))
    ensures OpensByStep(s, Next(k, s, ByHandler(j, h)), i)
  {
    if i == j {
      assert FileInv(s.streams[i]);
      LocalOpens(s.streams[i], s.done, s.fs, h);
    }
  }

  lemma LocalOpens(st: Stream, done: bool, fs: Files, h: StreamAct)
    requires FileInv(st) && LocalEnabled(st, done, fs, h)
    ensures var b := Local(st, done, fs, h).0.body;
      SourceIsOpen(b) ==>
        if SourceIsOpen(st.body) then SameSource(st.body, b)
        else b.Copies? && SourcePath(b) in fs && fs[SourcePath(b)] == SourceData(b)
  {
  }

  lemma {:induction false} OpenedAlong(run: seq<State>, p: nat, q: nat, i: nat)
    requires p <= q < |run| && !OpenAt(run[p], i) && OpenAt(run[q], i)
    requires forall j: nat :: p <= j < q ==> OpensByStep(run[j], run[j + 1], i)
    ensures var b := run[q].streams[i].body; !b.Writes? && exists j: nat :: p <= j < q && OpenedOn(run[j], i, b)
    decreases q - p
  {
    var b := run[q].streams[i].body;
    assert OpensByStep(run[q - 1], run[(q - 1) + 1], i);
    if OpenAt(run[q - 1], i) {
      OpenedAlong(run, p, q - 1, i);
      var j: nat :| p <= j < q - 1 && OpenedOn(run[j], i, run[q - 1].streams[i].body);
      assert OpenedOn(run[j], i, b);
    } else {
      assert OpenedOn(run[q - 1], i, b);
    }
  }

  lemma OpenedBetween(k: Params, run: seq<State>, p: nat, q: nat, i: nat)
    requires k.dataCap == 0 && Run(k, run) && p <= q < |run| && !OpenAt(run[p], i) && OpenAt(run[q], i)
    ensures var b := run[q].streams[i].body;
      !b.Writes? && exists j: nat :: p <= j < q && OpenedOn(run[j], i, b)
  {
    forall j: nat | p <= j < q
      ensures OpensByStep(run[j], run[j + 1], i)
    {
      RunOpens(k, run, j, i);
    }
    OpenedAlong(run, p, q, i);
  }

  /** What a read stream delivers, and what a copy stream publishes, is what its file held at some moment of the
      session before: the one at which it was opened. */
  lemma SourcesAreFiles(k: Params, run: seq<State>, q: nat, i: nat)
    requires k.dataCap == 0 && Run(k, run) && q < |run| && OpenAt(run[q], i)
    ensures var b := run[q].streams[i].body;
      !b.Writes? && exists j: nat :: j < q && OpenedOn(run[j], i, b)
  {
    OpenedBetween(k, run, 0, q, i);
  }

  lemma RunOpens(k: Params, run: seq<State>, j: nat, i: nat)
    requires k.dataCap == 0 && Run(k, run) && j + 1 < |run|
    ensures OpensByStep(run[j], run[j + 1], i)
  {
    InvThroughout(k, run, j);
    StepOfRun(k, run, j);
    StepOpens(k, run[j], run[j + 1], i);
  }
}
