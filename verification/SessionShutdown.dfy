/** How a session ends, and what still happens while it does. */
module SessionShutdown {
  import opened SessionModel
  import opened SessionFootprints

  /** A goroutine that ended on its own has asked for the session to end. A worker that ended on its own has
      left it to the writer to ask, by closing `cmdOut`. */
  ghost predicate EndRequested(s: State) {
    && (s.reader.ReaderGone? || s.writer.WriterGone? ==> s.done || s.terminations > 0)
    && (s.worker.WorkerGone? ==> s.done || s.cmdOutClosed)
    && s.terminations <= TERMINATE_CAP
  }

  lemma ReaderKeepsEndRequested(k: Params, s: State, a: ReaderAct)
    requires EndRequested(s) && ReaderEnabled(k, s, a)
    ensures EndRequested(ReaderNext(k, s, a))
  {
  }

  lemma WorkerKeepsEndRequested(s: State, a: WorkerAct)
    requires EndRequested(s) && WorkerEnabled(s, a)
    ensures EndRequested(WorkerNext(s, a))
  {
  }

  lemma WriterKeepsEndRequested(k: Params, s: State, a: WriterAct)
    requires EndRequested(s) && WriterEnabled(k, s, a)
    ensures EndRequested(WriterNext(k, s, a))
  {
  }

  lemma ActionKeepsEndRequested(k: Params, s: State, a: Action)
    requires EndRequested(s) && Enabled(k, s, a)
    ensures EndRequested(Next(k, s, a))
  {
    match a
    case ByReader(r) => ReaderKeepsEndRequested(k, s, r);
    case ByWorker(w) => WorkerKeepsEndRequested(s, w);
    case ByWriter(o) => WriterKeepsEndRequested(k, s, o);
    case _ =>
  }

  lemma StepKeepsEndRequested(k: Params, s: State, t: State)
    requires EndRequested(s) && Step(k, s, t)
    ensures EndRequested(t)
  {
    var a: Action :| Enabled(k, s, a) && t == Next(k, s, a);
    ActionKeepsEndRequested(k, s, a);
  }

  /** No goroutine leaves a session that does not end: its connection is not left half open. */
  lemma {:induction false} EndIsRequested(k: Params, run: seq<State>, q: nat)
    requires Run(k, run) && q < |run|
    ensures EndRequested(run[q])
  {
    if q > 0 {
      EndIsRequested(k, run, q - 1);
      assert StepAt(k, run, q);
      StepKeepsEndRequested(k, run[q - 1], run[q]);
    }
  }

  // After `done` is closed

  /** What the writer has written, with the value it may be about to take. */
  function Written(s: State): nat {
    |s.out| + if s.writer.Polling? || s.writer.Waiting? || s.writer.Writing? then 1 else 0
  }

  function Answered(s: State): nat {
    |s.answered| + if s.worker.Selecting? || s.worker.Calling? || s.worker.Closing? then 1 else 0
  }

  function Produced(s: State): nat {
    |s.produced| + if s.reader.Got? then 1 else 0
  }

  ghost predicate NoMore(s: State, t: State) {
    t.done && Written(t) <= Written(s) && Answered(t) <= Answered(s) && Produced(t) <= Produced(s)
  }

  lemma ReaderAddsNoMore(k: Params, s: State, a: ReaderAct)
    requires s.done && ReaderEnabled(k, s, a)
    ensures NoMore(s, ReaderNext(k, s, a))
  {
    ReaderFootprint(k, s, a);
  }

  lemma WorkerAddsNoMore(s: State, a: WorkerAct)
    requires s.done && WorkerEnabled(s, a)
    ensures NoMore(s, WorkerNext(s, a))
  {
    WorkerFootprint(s, a);
  }

  lemma WriterAddsNoMore(k: Params, s: State, a: WriterAct)
    requires s.done && WriterEnabled(k, s, a)
    ensures NoMore(s, WriterNext(k, s, a))
  {
    WriterFootprint(k, s, a);
  }

  lemma ActionAddsNoMore(k: Params, s: State, a: Action)
    requires s.done && Enabled(k, s, a)
    ensures NoMore(s, Next(k, s, a))
  {
    match a
    case ByReader(r) => ReaderAddsNoMore(k, s, r);
    case ByWorker(w) => WorkerAddsNoMore(s, w);
    case ByWriter(o) => WriterAddsNoMore(k, s, o);
    case _ =>
  }

  lemma StepAddsNoMore(k: Params, s: State, t: State)
    requires s.done && Step(k, s, t)
    ensures NoMore(s, t)
  {
    var a: Action :| Enabled(k, s, a) && t == Next(k, s, a);
    ActionAddsNoMore(k, s, a);
  }

  lemma {:induction false} NoMoreLater(k: Params, run: seq<State>, p: nat, q: nat)
    requires Run(k, run) && p <= q < |run| && run[p].done
    ensures NoMore(run[p], run[q])
    decreases q
  {
    if p < q {
      NoMoreLater(k, run, p, q - 1);
      assert StepAt(k, run, q);
      StepAddsNoMore(k, run[q - 1], run[q]);
    }
  }

  /** Once `done` is closed it stays closed; at most one more value is written, one more command answered and
      one more item produced. */
  lemma LittleAfterDone(k: Params, run: seq<State>, p: nat, q: nat)
    requires Run(k, run) && p <= q < |run| && run[p].done
    ensures run[q].done
    ensures |run[q].out| <= |run[p].out| + 1
    ensures |run[q].answered| <= |run[p].answered| + 1
    ensures |run[q].produced| <= |run[p].produced| + 1
  {
    NoMoreLater(k, run, p, q);
  }
}
