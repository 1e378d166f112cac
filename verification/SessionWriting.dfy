/** The precedence of responses over stream frames at the writer. */
module SessionWriting {
  import opened ByteStrings
  import opened Wire
  import opened SessionModel
  import opened SessionFootprints

  /** The response `v` is the next thing to be written after `before`, is being written, or has been written. */
  ghost predicate NextIs(s: State, before: seq<Emission>, v: Value) {
    if s.out == before then
      || (s.writer.Polling? && s.cmdOut != [] && s.cmdOut[0] == v)
      || (s.writer.Writing? && s.writer.msg == Reply(v))
      || (s.writer.WriterGone? && s.writer.torn == Some(Reply(v)))
    else before + [Response(v)] <= s.out
  }

  lemma ActionKeepsNext(k: Params, s: State, a: Action, before: seq<Emission>, v: Value)
    requires NextIs(s, before, v) && Enabled(k, s, a)
    ensures NextIs(Next(k, s, a), before, v)
  {
    match a
    case ByReader(r) => ReaderFootprint(k, s, r);
    case ByWorker(w) => WorkerKeepsNext(s, w, before, v);
    case ByWriter(o) => WriterKeepsNext(k, s, o, before, v);
    case _ =>
  }

  lemma WorkerKeepsNext(s: State, a: WorkerAct, before: seq<Emission>, v: Value)
    requires NextIs(s, before, v) && WorkerEnabled(s, a)
    ensures NextIs(WorkerNext(s, a), before, v)
  {
    WorkerFootprint(s, a);
  }

  lemma WriterKeepsNext(k: Params, s: State, o: WriterAct, before: seq<Emission>, v: Value)
    requires NextIs(s, before, v) && WriterEnabled(k, s, o)
    ensures NextIs(WriterNext(k, s, o), before, v)
  {
    var t := WriterNext(k, s, o);
    if o.Emit? && s.out == before {
      assert t.out == before + [Response(v)];
    } else if o.Emit? {
      assert s.out <= t.out && |t.out| > |before|;
    }
  }

  lemma StepKeepsNext(k: Params, s: State, t: State, before: seq<Emission>, v: Value)
    requires NextIs(s, before, v) && Step(k, s, t)
    ensures NextIs(t, before, v)
  {
    var a: Action :| Enabled(k, s, a) && t == Next(k, s, a);
    ActionKeepsNext(k, s, a, before, v);
  }

  lemma {:induction false} NextStaysNext(k: Params, run: seq<State>, p: nat, q: nat, before: seq<Emission>, v: Value)
    requires Run(k, run) && p <= q < |run| && NextIs(run[p], before, v)
    ensures NextIs(run[q], before, v)
    decreases q
  {
    if p < q {
      NextStaysNext(k, run, p, q - 1, before, v);
      assert StepAt(k, run, q);
      StepKeepsNext(k, run[q - 1], run[q], before, v);
    }
  }

  /** A response that is waiting when the writer looks for one is written before any stream frame, however
      many handlers are offering theirs. */
  lemma ResponseGoesFirst(k: Params, run: seq<State>, p: nat, q: nat)
    requires Run(k, run) && p <= q < |run|
    requires run[p].writer.Polling? && run[p].cmdOut != []
    ensures |run[q].out| > |run[p].out| ==>
      run[p].out + [Response(run[p].cmdOut[0])] <= run[q].out
    ensures run[q].out == run[p].out ==>
      !(run[q].writer.Writing? && run[q].writer.msg.FromStream?)
  {
    NextStaysNext(k, run, p, q, run[p].out, run[p].cmdOut[0]);
  }
}
