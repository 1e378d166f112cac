/** How streams end, in every run: what they publish is put in place by one step, what they fail at is reported, and
    only a stopped stream ends in silence. */
module SessionEndings {
  import opened ByteStrings
  import opened Wire
  import opened SessionModel
  import opened SessionFootprints
  import opened SessionSlots
  import opened SessionBuffers
  import opened SessionFiles
  import opened SessionRuns

  /** In the j-th step stream `i` puts `data` under its target, as a whole. */
  ghost predicate PutInPlace(run: seq<State>, j: nat, i: nat, data: Bytes) {
    && j + 1 < |run| && i < |run[j].streams| && Publishes(run[j], run[j + 1], i)
    && run[j + 1].fs == run[j].fs[Target(run[j].streams[i].body) := data]
  }

  /** A stream that has published in `t` had done so in `s`, or does it in this step. */
  ghost predicate PublishesByStep(s: State, t: State, i: nat) {
    PublishedAt(t, i) ==>
      && i < |s.streams|
      && (PublishedAt(s, i) ==> TempOf(t.streams[i].body) == TempOf(s.streams[i].body))
      && (!PublishedAt(s, i) ==>
            && Publishes(s, t, i)
            && t.fs == s.fs[Target(s.streams[i].body) := TempOf(t.streams[i].body).content])
  }

  lemma StepPublishes(k: Params, s: State, t: State, i: nat)
    requires FilesInv(s) && Step(k, s, t)
    ensures PublishesByStep(s, t, i)
  {
    var a: Action :| Enabled(k, s, a) && t == Next(k, s, a);
    if a.ByHandler? && a.i == i {
      LocalPublishes(s.streams[i], s.done, s.fs, a.h);
      LocalEvolves(s.streams[i], s.done, s.fs, a.h);
    } else {
      OnlyHandlersPublish(k, s, a, i);
    }
  }

  lemma {:induction false} PublishedAlong(run: seq<State>, p: nat, q: nat, i: nat)
    requires p <= q < |run| && !PublishedAt(run[p], i) && PublishedAt(run[q], i)
    requires forall j: nat :: p <= j < q ==> PublishesByStep(run[j], run[j + 1], i)
    ensures exists j: nat :: p <= j < q && PutInPlace(run, j, i, TempOf(run[q].streams[i].body).content)
    decreases q - p
  {
    if p < q {
      assert PublishesByStep(run[q - 1], run[(q - 1) + 1], i);
      if PublishedAt(run[q - 1], i) {
        PublishedAlong(run, p, q - 1, i);
      } else {
        assert PutInPlace(run, q - 1, i, TempOf(run[q].streams[i].body).content);
      }
    }
  }

  /** A stream that has published has changed its target, in one step. */
  lemma PublishedByStep(k: Params, run: seq<State>, p: nat, q: nat, i: nat)
    requires k.dataCap == 0 && Run(k, run) && p <= q < |run|
    requires !PublishedAt(run[p], i) && PublishedAt(run[q], i)
    ensures exists j: nat :: p <= j < q && PutInPlace(run, j, i, TempOf(run[q].streams[i].body).content)
  {
    forall j: nat | p <= j < q
      ensures PublishesByStep(run[j], run[j + 1], i)
    {
      RunPublishesByStep(k, run, j, i);
    }
    PublishedAlong(run, p, q, i);
  }

  lemma RunPublishesByStep(k: Params, run: seq<State>, j: nat, i: nat)
    requires k.dataCap == 0 && Run(k, run) && j + 1 < |run|
    ensures PublishesByStep(run[j], run[j + 1], i)
  {
    InvThroughout(k, run, j);
    StepOfRun(k, run, j);
    StepPublishes(k, run[j], run[j + 1], i);
  }

  predicate SameFile(s: State, t: State, path: Path) {
    (path in s.fs <==> path in t.fs) && (path in s.fs ==> t.fs[path] == s.fs[path])
  }

  /** No step from the j-th state on changes the file. */
  ghost predicate LeftAlone(run: seq<State>, j: nat, q: nat, path: Path)
    requires q < |run|
  {
    forall m: nat :: j <= m < q ==> SameFile(run[m], run[m + 1], path)
  }

  lemma {:induction false} LeftAloneStays(run: seq<State>, j: nat, q: nat, path: Path)
    requires j <= q < |run| && LeftAlone(run, j, q, path)
    ensures SameFile(run[j], run[q], path)
    decreases q - j
  {
    if j < q {
      LeftAloneStays(run, j, q - 1, path);
      assert SameFile(run[q - 1], run[(q - 1) + 1], path);
    }
  }

  /** Stream `i` has put `data` under `path` between p and q, and if nobody has touched that file since, it is
      still there. */
  ghost predicate InPlace(run: seq<State>, p: nat, q: nat, i: nat, path: Path, data: Bytes)
    requires q < |run|
  {
    exists j: nat ::
      && p <= j < q && PutInPlace(run, j, i, data) && Target(run[j].streams[i].body) == path
      && (LeftAlone(run, j + 1, q, path) ==> path in run[q].fs && run[q].fs[path] == data)
  }

  lemma PublishedIsDelivered(k: Params, run: seq<State>, p: nat, q: nat, i: nat)
    requires k.dataCap == 0 && Run(k, run) && p <= q < |run|
    requires !PublishedAt(run[p], i) && PublishedAt(run[q], i)
    ensures var b := run[q].streams[i].body; InPlace(run, p, q, i, Target(b), TempOf(b).content)
  {
    var b := run[q].streams[i].body;
    PublishedByStep(k, run, p, q, i);
    var j: nat :| p <= j < q && PutInPlace(run, j, i, TempOf(b).content);
    JobsAreFixed(k, run, j, q, i);
    PutIsDelivered(run, p, j, q, i, TempOf(b).content);
  }

  lemma PutIsDelivered(run: seq<State>, p: nat, j: nat, q: nat, i: nat, data: Bytes)
    requires p <= j < q < |run| && PutInPlace(run, j, i, data)
    ensures InPlace(run, p, q, i, Target(run[j].streams[i].body), data)
  {
    var path := Target(run[j].streams[i].body);
    if LeftAlone(run, j + 1, q, path) {
      LeftAloneStays(run, j + 1, q, path);
    }
  }

  /** The handler has returned without a word and without having published. */
  predicate ReturnedSilently(s: State, i: nat) {
    && i < |s.streams| && s.streams[i].life != Active
    && Report(s.streams[i].body) == None && !TempOf(s.streams[i].body).Published?
  }

  /** In the m-th step the handler returns, and it has been cancelled or the session is over. */
  predicate Stopped(run: seq<State>, m: nat, i: nat) {
    && m + 1 < |run| && i < |run[m].streams| && i < |run[m + 1].streams|
    && run[m].streams[i].life == Active && run[m + 1].streams[i].life != Active
    && (run[m].done || run[m].streams[i].cancels > 0)
  }

  predicate SilentByStep(s: State, t: State, i: nat) {
    ReturnedSilently(t, i) ==>
      && i < |s.streams|
      && (|| ReturnedSilently(s, i)
          || (s.streams[i].life == Active && (s.done || s.streams[i].cancels > 0)))
  }

  lemma StepSilences(k: Params, s: State, t: State, i: nat)
    requires k.dataCap == 0 && FilesInv(s) && Step(k, s, t)
    ensures SilentByStep(s, t, i)
  {
    var a: Action :| Enabled(k, s, a) && t == Next(k, s, a);
    match a
    case ByReader(r) => ReaderSilencesNone(k, s, r, i);
    case ByWorker(w) => WorkerSilencesNone(s, w, i);
    case ByWriter(o) => WriterSilencesNone(k, s, o, i);
    case ByHandler(j, h) => HandlerSilences(k, s, j, h, i);
    case _ => RestSilencesNone(k, s, a, i);
  }

  lemma ReaderSilencesNone(k: Params, s: State, a: ReaderAct, i: nat)
    requires ReaderEnabled(k, s, a)
    ensures SilentByStep(s, ReaderNext(k, s, a), i)
  {
    ReaderFootprint(k, s, a);
  }

  lemma WorkerSilencesNone(s: State, a: WorkerAct, i: nat)
    requires WorkerEnabled(s, a)
    ensures SilentByStep(s, WorkerNext(s, a), i)
  {
    WorkerFootprint(s, a);
  }

  lemma WriterSilencesNone(k: Params, s: State, a: WriterAct, i: nat)
    requires WriterEnabled(k, s, a)
    ensures SilentByStep(s, WriterNext(k, s, a), i)
  {
    WriterFootprint(k, s, a);
  }

  lemma RestSilencesNone(k: Params, s: State, a: Action, i: nat)
    requires k.dataCap == 0 && Enabled(k, s, a) && (a.Queue? || a.Free? || a.CloseSession?)
    ensures SilentByStep(s, Next(k, s, a), i)
  {
  }

  lemma HandlerSilences(k: Params, s: State, j: nat, h: StreamAct, i: nat)
    requires FilesInv(s) && Enabled(k, s, ByHandler(j, h))
    ensures SilentByStep(s, Next(k, s, ByHandler(j, h)), i)
  {
    if i == j {
      assert FileInv(s.streams[i]);
      LocalSilences(s.streams[i], s.done, s.fs, h);
    }
  }

  /** A handler that returns in a step of its own has published, or obeys a cancel or the end of the session. */
  lemma LocalSilences(st: Stream, done: bool, fs: Files, a: StreamAct)
    requires FileInv(st) && LocalEnabled(st, done, fs, a)
    ensures var t := Local(st, done, fs, a).0;
      t.life != Active && Report(t.body) == None && !TempOf(t.body).Published? ==>
        || (st.life != Active && Report(st.body) == None && !TempOf(st.body).Published?)
        || (st.life == Active && (done || st.cancels > 0))
  {
  }

  lemma {:induction false} SilentAfterStop(run: seq<State>, q: nat, i: nat)
    requires q < |run| && run[0].streams == [] && ReturnedSilently(run[q], i)
    requires forall j: nat :: j < q ==> SilentByStep(run[j], run[j + 1], i)
    ensures exists m: nat :: m < q && Stopped(run, m, i)
  {
    assert SilentByStep(run[q - 1], run[(q - 1) + 1], i);
    if ReturnedSilently(run[q - 1], i) {
      SilentAfterStop(run, q - 1, i);
    } else {
      assert Stopped(run, q - 1, i);
    }
  }

  /** No handler gives up in silence: one that has neither published nor reported anything was stopped. */
  lemma SilentOnesWereStopped(k: Params, run: seq<State>, q: nat, i: nat)
    requires k.dataCap == 0 && Run(k, run) && q < |run| && ReturnedSilently(run[q], i)
    ensures exists m: nat :: m < q && Stopped(run, m, i)
  {
    forall j: nat | j < q
      ensures SilentByStep(run[j], run[j + 1], i)
    {
      RunSilences(k, run, j, i);
    }
    SilentAfterStop(run, q, i);
  }

  lemma RunSilences(k: Params, run: seq<State>, j: nat, i: nat)
    requires k.dataCap == 0 && Run(k, run) && j + 1 < |run|
    ensures SilentByStep(run[j], run[j + 1], i)
  {
    InvThroughout(k, run, j);
    StepOfRun(k, run, j);
    StepSilences(k, run[j], run[j + 1], i);
  }

  ghost predicate SentNothing(s: State, i: nat) {
    FramesOf(s.out, i) == [] && HeldFrom(s.writer, i) == None
  }

  /** The value that closes the stream's output, on the wire or in the writer's hands. */
  function ClosingValue(s: State, i: nat): Option<Value> {
    var frames := FramesOf(s.out, i);
    match HeldFrom(s.writer, i)
    case Some(EndOfStream) => Some(Null)
    case Some(Failure(e)) => Some(e)
    case _ => if Ended(frames) then Some(frames[|frames| - 1]) else None
  }

  lemma ClosingIsReport(s: State, i: nat)
    requires BufferInv(s) && i < |s.streams| && s.streams[i].life != Active
    ensures ClosingValue(s, i) ==
      match Report(s.streams[i].body)
      case None => None
      case Some(p) => Some(PayloadValue(p))
  {
    assert StreamInv(s.streams[i], FramesOf(s.out, i), HeldFrom(s.writer, i), Copied(s.writer));
  }

  lemma SilenceMeansSuccess(s: State, i: nat)
    requires BufferInv(s) && i < |s.streams| && s.streams[i].life != Active && s.streams[i].body.Writes?
    ensures SentNothing(s, i) <==> Report(s.streams[i].body) == None
  {
    assert StreamInv(s.streams[i], FramesOf(s.out, i), HeldFrom(s.writer, i), Copied(s.writer));
  }

  /** A write stream that returns without having taken an end frame has removed its temporary file, and so
      has a copy stream that is stopped; what was published is all that was sent before the end frame, or all of
      the source. A write stream has published exactly if it took an end frame and reports no error, a copy
      stream exactly if it reports success; and to have published is to have put the file in place. A stream
      of any kind that has neither published nor closed its output was stopped by a cancel or the session's
      end. */
  lemma HandlersCleanUp(k: Params, run: seq<State>, q: nat, i: nat)
    requires k.dataCap == 0 && Run(k, run) && q < |run|
    requires i < |run[q].streams| && run[q].streams[i].life != Active
    ensures CleanedUp(run[q].streams[i].body)
    ensures var st := run[q].streams[i];
      st.body.Writes? ==> (st.body.w.tmp.Published? <==> End in st.body.w.taken && SentNothing(run[q], i))
    ensures var b := run[q].streams[i].body;
      TempOf(b).Published? ==> InPlace(run, 0, q, i, Target(b), Publication(b))
    ensures ClosingValue(run[q], i) == None && !PublishedAt(run[q], i) ==>
      exists m: nat :: m < q && Stopped(run, m, i)
  {
    InvThroughout(k, run, q);
    ReturnedCleansUp(run[q].streams[i]);
    ClosingIsReport(run[q], i);
    if run[q].streams[i].body.Writes? {
      SilenceMeansSuccess(run[q], i);
    }
    if PublishedAt(run[q], i) {
      PublishedIsDelivered(k, run, 0, q, i);
    } else if ClosingValue(run[q], i) == None {
      SilentOnesWereStopped(k, run, q, i);
    }
  }
}
