/** The last word of every stream: what its handler's action said, no more and no less; and a stream without one
    was closed by its client's command or by the end of the session. */
module SessionReports {
  import opened ByteStrings
  import opened Wire
  import opened SessionModel
  import opened SessionFootprints
  import opened SessionBuffers
  import opened SessionRuns
  import opened SessionEndings
  import opened SessionActions

  /** What an action has the client be told. */
  function Verdict(h: StreamAct): Option<Value> {
    match h
    case OfRead(ReadEof) => Some(Null)
    case OfRead(ReadError(text)) => Some(Err(Ascii("IO"), text))
    case OfWrite(TimeOut(text)) => Some(Err(Ascii("TIMEOUT"), text))
    case OfWrite(TakeFrame(ok, text)) => if ok then None else Some(Err(Ascii("IO"), text))
    case OfCopy(OpenSource(ok, text)) => if ok then None else Some(Err(Ascii("IO"), text))
    case OfCopy(CreateTemp(ok, text)) => if ok then None else Some(Err(Ascii("IO"), text))
    case OfCopy(CopyChunk(ok, _, text)) => if ok then None else Some(Err(Ascii("IO"), text))
    case OfCopy(Rename(ok, text)) => if ok then Some(Null) else Some(Err(Ascii("IO"), text))
    case _ => None
  }

  function Told(s: State, i: nat): Option<Value> {
    if i < |s.streams| && Report(s.streams[i].body).Some? then Some(PayloadValue(Report(s.streams[i].body).value))
    else None
  }

  /** A report comes from its action, and stays. */
  ghost predicate TellsByStep(s: State, a: Action, t: State, i: nat) {
    && (Told(s, i).Some? ==> Told(t, i) == Told(s, i))
    && (Told(s, i) == None ==>
          Told(t, i) == if a.ByHandler? && a.i == i && i < |s.streams| then Verdict(a.h) else None)
  }

  lemma StepTells(k: Params, s: State, a: Action, i: nat)
    requires Enabled(k, s, a)
    ensures TellsByStep(s, a, Next(k, s, a), i)
  {
    match a
    case ByReader(r) => ReaderTellsNothing(k, s, r, i);
    case ByWorker(w) => WorkerTellsNothing(s, w, i);
    case ByWriter(o) => WriterTellsNothing(k, s, o, i);
    case ByHandler(j, h) => HandlerTells(k, s, j, h, i);
    case _ => RestTellsNothing(k, s, a, i);
  }

  lemma ReaderTellsNothing(k: Params, s: State, r: ReaderAct, i: nat)
    requires ReaderEnabled(k, s, r)
    ensures Told(ReaderNext(k, s, r), i) == Told(s, i)
  {
    ReaderFootprint(k, s, r);
  }

  lemma WorkerTellsNothing(s: State, w: WorkerAct, i: nat)
    requires WorkerEnabled(s, w)
    ensures Told(WorkerNext(s, w), i) == Told(s, i)
  {
    WorkerFootprint(s, w);
  }

  lemma WriterTellsNothing(k: Params, s: State, o: WriterAct, i: nat)
    requires WriterEnabled(k, s, o)
    ensures Told(WriterNext(k, s, o), i) == Told(s, i)
  {
    WriterFootprint(k, s, o);
  }

  lemma RestTellsNothing(k: Params, s: State, a: Action, i: nat)
    requires Enabled(k, s, a) && (a.Queue? || a.Free? || a.CloseSession?)
    ensures Told(Next(k, s, a), i) == Told(s, i)
  {
  }

  lemma HandlerTells(k: Params, s: State, j: nat, h: StreamAct, i: nat)
    requires Enabled(k, s, ByHandler(j, h))
    ensures TellsByStep(s, ByHandler(j, h), Next(k, s, ByHandler(j, h)), i)
  {
    if i == j {
      LocalTells(s.streams[i], s.done, s.fs, h);
    }
  }

  function ReportedValue(b: Body): Option<Value> {
    if Report(b).Some? then Some(PayloadValue(Report(b).value)) else None
  }

  lemma LocalTells(st: Stream, done: bool, fs: Files, h: StreamAct)
    requires LocalEnabled(st, done, fs, h)
    ensures var t := Local(st, done, fs, h).0;
      && (ReportedValue(st.body).Some? ==> ReportedValue(t.body) == ReportedValue(st.body))
      && (ReportedValue(st.body) == None ==> ReportedValue(t.body) == Verdict(h))
  {
    match h
    case OfRead(_) =>
    case OfWrite(_) =>
    case OfCopy(_) =>
    case _ =>
  }

  lemma {:induction false} ToldStays(run: seq<State>, acts: seq<Action>, p: nat, q: nat, i: nat)
    requires |run| == |acts| + 1 && p <= q < |run| && Told(run[p], i).Some?
    requires forall m: nat :: m < |acts| ==> TellsByStep(run[m], acts[m], run[m + 1], i)
    ensures Told(run[q], i) == Told(run[p], i)
    decreases q - p
  {
    if p < q {
      ToldStays(run, acts, p, q - 1, i);
      assert TellsByStep(run[q - 1], acts[q - 1], run[(q - 1) + 1], i);
    }
  }

  /** In the m-th step the handler of stream `i` does something that the client is told as `v`. */
  ghost predicate Tells(run: seq<State>, acts: seq<Action>, m: nat, i: nat, v: Value) {
    && m < |acts| && m < |run| && acts[m].ByHandler? && acts[m].i == i && i < |run[m].streams|
    && Verdict(acts[m].h) == Some(v)
  }

  lemma {:induction false} ToldByAction(run: seq<State>, acts: seq<Action>, q: nat, i: nat)
    requires |run| == |acts| + 1 && q < |run| && run[0].streams == [] && Told(run[q], i).Some?
    requires forall m: nat :: m < |acts| ==> TellsByStep(run[m], acts[m], run[m + 1], i)
    ensures exists m: nat :: m < q && Tells(run, acts, m, i, Told(run[q], i).value)
  {
    assert TellsByStep(run[q - 1], acts[q - 1], run[(q - 1) + 1], i);
    if Told(run[q - 1], i).Some? {
      ToldByAction(run, acts, q - 1, i);
    } else {
      assert Tells(run, acts, q - 1, i, Told(run[q], i).value);
    }
  }

  lemma RunTells(k: Params, run: seq<State>, acts: seq<Action>, i: nat)
    requires ActRun(k, run, acts)
    ensures forall m: nat :: m < |acts| ==> TellsByStep(run[m], acts[m], run[m + 1], i)
  {
    forall m: nat | m < |acts|
      ensures TellsByStep(run[m], acts[m], run[m + 1], i)
    {
      assert ActAt(k, run, acts, m);
      StepTells(k, run[m], acts[m], i);
    }
  }

  lemma ClosingIsTold(k: Params, run: seq<State>, q: nat, i: nat)
    requires k.dataCap == 0 && Run(k, run) && q < |run|
    requires i < |run[q].streams| && run[q].streams[i].life != Active
    ensures ClosingValue(run[q], i) == Told(run[q], i)
  {
    InvThroughout(k, run, q);
    ClosingIsReport(run[q], i);
  }

  /** A failure is reported, with its code and in its words, and so is success: it is the value that closes the
      stream's output. */
  lemma VerdictsAreReported(k: Params, run: seq<State>, acts: seq<Action>, m: nat, q: nat, i: nat)
    requires k.dataCap == 0 && ActRun(k, run, acts) && m < q < |run|
    requires acts[m].ByHandler? && acts[m].i == i && Verdict(acts[m].h).Some?
    requires i < |run[q].streams| && run[q].streams[i].life != Active
    ensures ClosingValue(run[q], i) == Verdict(acts[m].h)
  {
    ActRunIsRun(k, run, acts);
    RunTells(k, run, acts, i);
    assert ActAt(k, run, acts, m) && TellsByStep(run[m], acts[m], run[m + 1], i);
    NoWordTwice(k, run[m], i, acts[m].h);
    ToldStays(run, acts, m + 1, q, i);
    ClosingIsTold(k, run, q, i);
  }

  lemma NoWordTwice(k: Params, s: State, i: nat, h: StreamAct)
    requires Enabled(k, s, ByHandler(i, h)) && Verdict(h).Some?
    ensures Told(s, i) == None
  {
  }

  /** Nothing is reported that no action of the handler said. */
  lemma ReportsHaveReasons(k: Params, run: seq<State>, acts: seq<Action>, q: nat, i: nat)
    requires k.dataCap == 0 && ActRun(k, run, acts) && q < |run|
    requires i < |run[q].streams| && run[q].streams[i].life != Active && ClosingValue(run[q], i).Some?
    ensures exists m: nat :: m < q && Tells(run, acts, m, i, ClosingValue(run[q], i).value)
  {
    ActRunIsRun(k, run, acts);
    RunTells(k, run, acts, i);
    ClosingIsTold(k, run, q, i);
    ToldByAction(run, acts, q, i);
  }

  // Stops

  function Cancels(s: State, i: nat): nat {
    if i < |s.streams| then s.streams[i].cancels else 0
  }

  /** CLOSE cancels stream `i`, or the session ends. */
  predicate Stops(s: State, a: Action, i: nat) {
    a == CloseSession || (a == ByWorker(Signal) && s.worker.Closing? && s.worker.i == i)
  }

  predicate Stoppable(s: State, i: nat) {
    s.done || Cancels(s, i) > 0
  }

  ghost predicate StoppableByStep(s: State, a: Action, t: State, i: nat) {
    Stoppable(t, i) ==> Stoppable(s, i) || Stops(s, a, i)
  }

  lemma StepStops(k: Params, s: State, a: Action, i: nat)
    requires Enabled(k, s, a)
    ensures StoppableByStep(s, a, Next(k, s, a), i)
  {
    match a
    case ByReader(r) => ReaderFootprint(k, s, r);
    case ByWorker(w) => WorkerFootprint(s, w);
    case ByWriter(o) => WriterFootprint(k, s, o);
    case _ =>
  }

  ghost predicate StopAt(run: seq<State>, acts: seq<Action>, m: nat, i: nat) {
    m < |acts| && m < |run| && Stops(run[m], acts[m], i)
  }

  lemma {:induction false} StoppableAlong(run: seq<State>, acts: seq<Action>, q: nat, i: nat)
    requires |run| == |acts| + 1 && q < |run| && !Stoppable(run[0], i) && Stoppable(run[q], i)
    requires forall m: nat :: m < |acts| ==> StoppableByStep(run[m], acts[m], run[m + 1], i)
    ensures exists m: nat :: m < q && StopAt(run, acts, m, i)
  {
    assert StoppableByStep(run[q - 1], acts[q - 1], run[(q - 1) + 1], i);
    if Stoppable(run[q - 1], i) {
      StoppableAlong(run, acts, q - 1, i);
    } else {
      assert StopAt(run, acts, q - 1, i);
    }
  }

  lemma RunStops(k: Params, run: seq<State>, acts: seq<Action>, i: nat)
    requires ActRun(k, run, acts)
    ensures forall m: nat :: m < |acts| ==> StoppableByStep(run[m], acts[m], run[m + 1], i)
  {
    forall m: nat | m < |acts|
      ensures StoppableByStep(run[m], acts[m], run[m + 1], i)
    {
      assert ActAt(k, run, acts, m);
      StepStops(k, run[m], acts[m], i);
    }
  }

  /** A stream that ends without a word and without having published was closed by CLOSE or by the session's end. */
  lemma SilentOnesWereClosed(k: Params, run: seq<State>, acts: seq<Action>, q: nat, i: nat)
    requires k.dataCap == 0 && ActRun(k, run, acts) && q < |run| && ReturnedSilently(run[q], i)
    ensures exists m: nat :: m < q && StopAt(run, acts, m, i)
  {
    ActRunIsRun(k, run, acts);
    SilentOnesWereStopped(k, run, q, i);
    var n: nat :| n < q && Stopped(run, n, i);
    RunStops(k, run, acts, i);
    StoppableAlong(run, acts, n, i);
  }
}
