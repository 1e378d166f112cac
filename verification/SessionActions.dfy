/** Runs together with the actions taken in them, and what the callback's answers become: each goes out, as it
    was returned, as the response to the command it was returned for. */
module SessionActions {
  import opened Wire
  import opened SessionModel
  import opened SessionFootprints
  import opened SessionReplies
  import opened SessionDispatch
  import SessionRuns

  ghost predicate ActRun(k: Params, run: seq<State>, acts: seq<Action>) {
    && |run| == |acts| + 1 && Initial(run[0])
    && forall j :: 0 <= j < |acts| ==> ActAt(k, run, acts, j)
  }

  ghost predicate ActAt(k: Params, run: seq<State>, acts: seq<Action>, j: nat)
    requires j < |acts| && j + 1 < |run|
  {
    Enabled(k, run[j], acts[j]) && run[j + 1] == Next(k, run[j], acts[j])
  }

  lemma ActRunIsRun(k: Params, run: seq<State>, acts: seq<Action>)
    requires ActRun(k, run, acts)
    ensures Run(k, run)
  {
    forall j | 0 < j < |run|
      ensures StepAt(k, run, j)
    {
      assert ActAt(k, run, acts, j - 1);
    }
  }

  lemma RunPrefix(k: Params, run: seq<State>)
    requires Run(k, run) && |run| > 1
    ensures Run(k, run[..|run| - 1]) && StepAt(k, run, |run| - 1)
  {
    var n := |run| - 1;
    forall j | 0 < j < n
      ensures StepAt(k, run[..n], j)
    {
      assert StepAt(k, run, j);
    }
  }

  lemma OneMoreAction(k: Params, run: seq<State>, acts: seq<Action>, a: Action, t: State)
    requires ActRun(k, run, acts) && Enabled(k, run[|acts|], a) && t == Next(k, run[|acts|], a)
    ensures ActRun(k, run + [t], acts + [a])
  {
    forall j | 0 <= j < |acts| + 1
      ensures ActAt(k, run + [t], acts + [a], j)
    {
      if j < |acts| {
        assert ActAt(k, run, acts, j);
      }
    }
  }

  /** Every run has its actions. */
  lemma {:induction false} RunHasActions(k: Params, run: seq<State>) returns (acts: seq<Action>)
    requires Run(k, run)
    ensures ActRun(k, run, acts)
    decreases |run|
  {
    var n := |run| - 1;
    if n == 0 {
      acts := [];
    } else {
      RunPrefix(k, run);
      acts := RunHasActions(k, run[..n]);
      var a: Action :| Enabled(k, run[n - 1], a) && run[n] == Next(k, run[n - 1], a);
      OneMoreAction(k, run[..n], acts, a, run[n]);
      assert run[..n] + [run[n]] == run;
      acts := acts + [a];
    }
  }

  // Answers

  /** How an answer comes about: the reader's own responses are passed on, QUIT is answered by OK, and any other
      command by what the callback returns in this step. */
  predicate AnsweredBy(s: State, a: Action, item: Item, v: Value) {
    match item
    case Ready(response) => v == response
    case Command(args) =>
      if QuitItem(item) then v == OK
      else a == ByWorker(Return(v)) && s.worker.Calling? && s.worker.cmd == args
  }

  ghost predicate AnswersGrow(s: State, a: Action, t: State) {
    || t.answered == s.answered
    || (&& |t.answered| == |s.answered| + 1 && t.answered[..|s.answered|] == s.answered
        && AnsweredBy(s, a, t.answered[|s.answered|].0, t.answered[|s.answered|].1))
  }

  lemma StepAnswers(k: Params, s: State, a: Action)
    requires QuitIsLast(s) && Enabled(k, s, a)
    ensures AnswersGrow(s, a, Next(k, s, a))
  {
    match a
    case ByReader(r) => ReaderFootprint(k, s, r);
    case ByWorker(w) => WorkerAnswers(s, w);
    case ByWriter(o) => WriterFootprint(k, s, o);
    case _ =>
  }

  lemma WorkerAnswers(s: State, w: WorkerAct)
    requires QuitIsLast(s) && WorkerEnabled(s, w)
    ensures AnswersGrow(s, ByWorker(w), WorkerNext(s, w))
  {
    if w.TakeCommand? {
      TakingAnswers(s);
    }
  }

  lemma TakingAnswers(s: State)
    requires WorkerEnabled(s, TakeCommand)
    ensures AnswersGrow(s, ByWorker(TakeCommand), WorkerNext(s, TakeCommand))
  {
  }

  /** In the m-th step the j-th item was answered. */
  ghost predicate AnsweredIn(run: seq<State>, acts: seq<Action>, m: nat, j: nat, item: Item, v: Value) {
    m < |acts| && m < |run| && |run[m].answered| == j && AnsweredBy(run[m], acts[m], item, v)
  }

  lemma {:induction false} AnsweredAlong(run: seq<State>, acts: seq<Action>, q: nat, j: nat)
    requires |run| == |acts| + 1 && q < |run| && run[0].answered == [] && j < |run[q].answered|
    requires forall m: nat :: m < q ==> AnswersGrow(run[m], acts[m], run[m + 1])
    ensures exists m: nat :: m < q && AnsweredIn(run, acts, m, j, run[q].answered[j].0, run[q].answered[j].1)
  {
    assert AnswersGrow(run[q - 1], acts[q - 1], run[(q - 1) + 1]);
    if j < |run[q - 1].answered| {
      AnsweredAlong(run, acts, q - 1, j);
      assert run[q].answered[j] == run[q - 1].answered[j];
    } else {
      assert AnsweredIn(run, acts, q - 1, j, run[q].answered[j].0, run[q].answered[j].1);
    }
  }

  lemma AnswersHaveReasons(k: Params, run: seq<State>, acts: seq<Action>, q: nat, j: nat)
    requires k.dataCap == 0 && ActRun(k, run, acts) && q < |run| && j < |run[q].answered|
    ensures exists m: nat :: m < q && AnsweredIn(run, acts, m, j, run[q].answered[j].0, run[q].answered[j].1)
  {
    forall m: nat | m < q
      ensures AnswersGrow(run[m], acts[m], run[m + 1])
    {
      RunAnswers(k, run, acts, m);
    }
    AnsweredAlong(run, acts, q, j);
  }

  lemma RunAnswers(k: Params, run: seq<State>, acts: seq<Action>, m: nat)
    requires k.dataCap == 0 && ActRun(k, run, acts) && m < |acts|
    ensures AnswersGrow(run[m], acts[m], run[m + 1])
  {
    ActRunIsRun(k, run, acts);
    SessionRuns.InvThroughout(k, run, m);
    assert ActAt(k, run, acts, m);
    StepAnswers(k, run[m], acts[m]);
  }

  /** The j-th response on the wire is for the j-th item. If that is a command and no QUIT, the response is what
      the callback, running for this command and no other, returned. */
  lemma ResponsesAreReturned(k: Params, run: seq<State>, acts: seq<Action>, q: nat, j: nat)
    requires k.dataCap == 0 && ActRun(k, run, acts) && q < |run| && j < |RepliesOut(run[q].out)|
    ensures j < |run[q].produced|
    ensures exists m: nat :: m < q && AnsweredIn(run, acts, m, j, run[q].produced[j], RepliesOut(run[q].out)[j])
  {
    ActRunIsRun(k, run, acts);
    SessionRuns.InvThroughout(k, run, q);
    RepliesInOrder(run[q]);
    AnswersHaveReasons(k, run, acts, q, j);
  }

  /** What a client gets that pipelines commands: the j-th response is the one that the callback returned for the
      client's j-th command, and OK for QUIT. */
  lemma PipelinedCommandsGetTheirReturns(k: Params, run: seq<State>, acts: seq<Action>, q: nat, vs: seq<Value>,
                                         j: nat)
    requires ActRun(k, run, acts) && SmoothRun(k, run, q) && Pipelines(k, run, vs)
    requires j < |RepliesOut(run[q].out)|
    ensures j < |vs| && IsCommand(vs[j])
    ensures exists m: nat :: m < q && AnsweredIn(run, acts, m, j, Command(vs[j].vs), RepliesOut(run[q].out)[j])
  {
    PipelinedCommandsAreAnswered(k, run, q, vs);
    AnswersHaveReasons(k, run, acts, q, j);
  }
}
