/** The theorems about whole sessions: every statement holds in every state of every run, for any
    interleaving of the goroutines, any client input and any behaviour of the command callback. */
module SessionRuns {
  import opened ByteStrings
  import opened Wire
  import opened SessionModel
  import opened SessionFootprints
  import opened SessionSlots
  import opened SessionReplies
  import opened SessionBuffers
  import opened SessionTags
  import opened SessionFiles

  ghost predicate Inv(s: State) {
    TableInv(s) && ClosingFits(s) && ReplyInv(s) && BufferInv(s) && TagInv(s) && FilesInv(s)
  }

  lemma InvInitially(s: State)
    requires Initial(s)
    ensures Inv(s)
  {
    TableInitially(s);
    RepliesInitially(s);
    BuffersInitially(s);
    TagsInitially(s);
    FilesInitially(s);
  }

  lemma InvPreserved(k: Params, s: State, a: Action)
    requires k.dataCap == 0 && Inv(s) && Enabled(k, s, a)
    ensures Inv(Next(k, s, a))
  {
    TablePreserved(k, s, a);
    ClosingPreserved(k, s, a);
    RepliesPreserved(k, s, a);
    BuffersPreserved(k, s, a);
    TagsPreserved(k, s, a);
    FilesPreserved(k, s, a);
  }

  lemma StepKeepsInv(k: Params, s: State, t: State)
    requires k.dataCap == 0 && Inv(s) && Step(k, s, t)
    ensures Inv(t)
  {
    var a: Action :| Enabled(k, s, a) && t == Next(k, s, a);
    InvPreserved(k, s, a);
  }

  /** What holds at the start and is kept by every step holds throughout. */
  lemma {:induction false} HoldsThroughout(run: seq<State>, holds: State -> bool, q: nat)
    requires q < |run| && holds(run[0])
    requires forall j :: 0 < j < |run| && holds(run[j - 1]) ==> holds(run[j])
    ensures holds(run[q])
  {
    if q > 0 {
      HoldsThroughout(run, holds, q - 1);
    }
  }

  lemma InvThroughout(k: Params, run: seq<State>, q: nat)
    requires k.dataCap == 0 && Run(k, run) && q < |run|
    ensures Inv(run[q])
  {
    var inv: State -> bool := s => Inv(s);
    RunStartsWell(k, run);
    forall j | 0 < j < |run| && inv(run[j - 1])
      ensures inv(run[j])
    {
      RunKeepsInv(k, run, j);
    }
    HoldsThroughout(run, inv, q);
  }

  lemma RunStartsWell(k: Params, run: seq<State>)
    requires Run(k, run)
    ensures Inv(run[0])
  {
    InvInitially(run[0]);
  }

  lemma RunKeepsInv(k: Params, run: seq<State>, q: nat)
    requires k.dataCap == 0 && Run(k, run) && 0 < q < |run| && Inv(run[q - 1])
    ensures Inv(run[q])
  {
    assert StepAt(k, run, q);
    StepKeepsInv(k, run[q - 1], run[q]);
  }

  // Read streams

  /** The blobs on the wire are a prefix of the file, and all of it once the closing null is there. The
      buffer that the writer is serialising is never the one that is being filled. */
  ghost predicate DeliversFiles(s: State) {
    forall i :: 0 <= i < |s.streams| && s.streams[i].body.Reads? ==> DeliversFile(s, i)
  }

  ghost predicate DeliversFile(s: State, i: nat)
    requires i < |s.streams| && s.streams[i].body.Reads?
  {
    var r := s.streams[i].body.r;
    var frames := FramesOf(s.out, i);
    && BlobsThenEnd(frames)
    && BlobBytes(frames) <= r.file
    && (frames != [] && frames[|frames| - 1] == Null ==> BlobBytes(frames) == r.file)
    && (HeldFrom(s.writer, i).Some? && HeldFrom(s.writer, i).value.Chunk? && r.pc.Filling? ==>
         HeldFrom(s.writer, i).value.buf != r.cur)
  }

  lemma ReadStreamsDeliverFiles(k: Params, run: seq<State>, q: nat)
    requires k.dataCap == 0 && Run(k, run) && q < |run|
    ensures DeliversFiles(run[q])
  {
    InvThroughout(k, run, q);
    forall i | 0 <= i < |run[q].streams| && run[q].streams[i].body.Reads?
      ensures DeliversFile(run[q], i)
    {
      ReadStreamDelivers(run[q], i);
    }
  }

  lemma ReadStreamDelivers(s: State, i: nat)
    requires i < |s.streams| && s.streams[i].body.Reads?
    requires StreamInv(s.streams[i], FramesOf(s.out, i), HeldFrom(s.writer, i), Copied(s.writer))
    ensures DeliversFile(s, i)
  {
  }

  // Responses

  lemma ResponsesInOrder(k: Params, run: seq<State>, q: nat)
    requires k.dataCap == 0 && Run(k, run) && q < |run|
    ensures var (s, sent) := (run[q], RepliesOut(run[q].out));
      && |sent| <= |s.answered| <= |s.produced|
      && (forall j :: 0 <= j < |sent| ==> sent[j] == s.answered[j].1 && Answered(s.produced[j], sent[j]))
      && (forall j :: 0 <= j < |s.answered| && QuitItem(s.produced[j]) ==> j == |s.answered| - 1)
    ensures run[q].writer.WriterGone? && run[q].writer.drained ==>
      && RepliesOut(run[q].out) == Answers(run[q].answered) && run[q].answered != []
      && QuitItem(run[q].produced[|run[q].answered| - 1])
      && RepliesOut(run[q].out)[|run[q].answered| - 1] == OK
  {
    InvThroughout(k, run, q);
    RepliesInOrder(run[q]);
    if run[q].writer.WriterGone? && run[q].writer.drained {
      DrainWritesEverything(run[q]);
    }
  }

  function Upper(name: Bytes): Bytes {
    seq(|name|, i requires 0 <= i < |name| => if 97 <= name[i] <= 122 then name[i] - 32 else name[i])
  }

  /** The command that ends the responses is QUIT, in any case. */
  lemma QuitInAnyCase(name: Bytes)
    requires forall b :: b in name ==> b < 128
    ensures IsQuit(name) <==> Upper(name) == Ascii("QUIT")
  {
    var quit := Ascii("QUIT");
    assert |quit| == 4 && quit[0] == 81 && quit[1] == 85 && quit[2] == 73 && quit[3] == 84;
    if |name| == 4 {
      assert forall i :: 0 <= i < 4 ==> name[i] in name;
      assert Upper(name) == quit <==> forall i :: 0 <= i < 4 ==> Upper(name)[i] == quit[i];
    } else {
      assert |name| == 5 ==> name[2..4][0] == name[2] && name[2] in name;
    }
  }

  /** A QUIT is answered by OK, and nothing is answered after it. */
  lemma QuitEndsResponses(k: Params, run: seq<State>, q: nat, j: nat, args: seq<Value>)
    requires k.dataCap == 0 && Run(k, run) && q < |run| && j < |run[q].answered|
    requires j < |run[q].produced| && run[q].produced[j] == Command(args) && args != [] && args[0].Str?
    requires (forall b :: b in args[0].s ==> b < 128) && Upper(args[0].s) == Ascii("QUIT")
    ensures |run[q].answered| == j + 1 && run[q].answered[j] == (Command(args), OK)
    ensures |RepliesOut(run[q].out)| <= j + 1
    ensures |RepliesOut(run[q].out)| == j + 1 ==> RepliesOut(run[q].out)[j] == OK
  {
    InvThroughout(k, run, q);
    QuitInAnyCase(args[0].s);
    RepliesInOrder(run[q]);
    assert AnswersFit(run[q]);
  }

  lemma CallbackStopsAtQuit(k: Params, run: seq<State>, q: nat)
    requires k.dataCap == 0 && Run(k, run) && q < |run|
    requires run[q].worker.Calling? || run[q].worker.Closing?
    ensures var s := run[q];
      && |s.answered| < |s.produced| && s.produced[|s.answered|] == Command(s.worker.cmd)
      && forall j :: 0 <= j <= |s.answered| ==> !QuitItem(s.produced[j])
  {
    InvThroughout(k, run, q);
    CallbackBeforeQuit(run[q]);
  }

  // Stream ids

  /** What one stream may put under its id: blobs that fit the buffer and a closing null or error for a read,
      one null or error for a copy, one error for a write. */
  ghost predicate FramesFit(st: Stream, frames: seq<Value>) {
    match st.body
    case Reads(_) => BlobsThenEnd(frames) && WellSized(frames)
    case Writes(_) => |frames| <= 1 && forall v :: v in frames ==> v.Err?
    case Copies(_) => |frames| <= 1 && forall v :: v in frames ==> v.Err? || v == Null
  }

  lemma StreamIdsNeverMix(k: Params, run: seq<State>, q: nat, id: nat)
    requires k.dataCap == 0 && Run(k, run) && q < |run|
    ensures var s := run[q];
      && FramesUnder(s.out, s.streams, id) == InOpeningOrder(s.out, s.streams, id)
      && forall i :: 0 <= i < |s.streams| ==> FramesFit(s.streams[i], FramesOf(s.out, i))
  {
    InvThroughout(k, run, q);
    var s := run[q];
    IdsNeverMix(s, id);
    forall i | 0 <= i < |s.streams|
      ensures FramesFit(s.streams[i], FramesOf(s.out, i))
    {
      FramesFitAlways(s.streams[i], FramesOf(s.out, i), HeldFrom(s.writer, i), Copied(s.writer));
    }
  }

  lemma FramesFitAlways(st: Stream, frames: seq<Value>, held: Option<Payload>, copied: Bytes)
    requires StreamInv(st, frames, held, copied)
    ensures FramesFit(st, frames) && WellSized(frames)
  {
  }

  lemma SlotsAlwaysFit(k: Params, run: seq<State>, q: nat)
    requires k.dataCap == 0 && Run(k, run) && q < |run|
    ensures TableInv(run[q]) && 0 <= run[q].streamCount <= SLOTS
    ensures FreeSlot(run[q].slots) == SLOTS <==> run[q].streamCount == SLOTS
  {
    InvThroughout(k, run, q);
    RefusedIffFull(run[q].slots);
  }

  // Files

  /** Between two consecutive states a file changes only if the callback changes it, or if one stream
      replaces its target by everything it was sent before the end frame, or by its whole source. */
  lemma TargetsChangeAtomically(k: Params, run: seq<State>, q: nat)
    requires k.dataCap == 0 && Run(k, run) && q + 1 < |run|
    ensures var (s, t) := (run[q], run[q + 1]);
      || t.fs == s.fs
      || (s.worker.Calling? && t == s.(fs := t.fs))
      || exists i :: 0 <= i < |s.streams| && Publishes(s, t, i)
  {
    InvThroughout(k, run, q);
    StepOfRun(k, run, q);
    StepChangesTargets(k, run[q], run[q + 1]);
  }

  lemma StepChangesTargets(k: Params, s: State, t: State)
    requires FilesInv(s) && Step(k, s, t)
    ensures
      || t.fs == s.fs
      || (s.worker.Calling? && t == s.(fs := t.fs))
      || exists i :: 0 <= i < |s.streams| && Publishes(s, t, i)
  {
    var a: Action :| Enabled(k, s, a) && t == Next(k, s, a);
    FilesPreserved(k, s, a);
    if t.fs != s.fs && a.ByHandler? {
      assert Publishes(s, t, a.i);
    }
  }

  ghost predicate Publishes(s: State, t: State, i: nat)
    requires i < |s.streams|
  {
    && i < |t.streams| && !s.streams[i].body.Reads?
    && !TempOf(s.streams[i].body).Published?
    && t.fs == s.fs[Target(s.streams[i].body) := Publication(s.streams[i].body)]
    && TempOf(t.streams[i].body) == Published(Publication(s.streams[i].body))
  }

  // CLOSE

  ghost predicate StaysSilent(s: State, t: State, i: nat) {
    i < |s.streams| && DoneClosed(s.streams[i]) ==> Silent(s, t, i) && !Publishes(s, t, i)
  }

  /** Once `CloseStream` has returned true, the stream that had the id (the youngest one) sends no frame any
      more, and neither its target nor its temporary file is touched by it, whatever was queued. */
  lemma CloseIsABarrier(k: Params, run: seq<State>, p: nat, q: nat)
    requires k.dataCap == 0 && Run(k, run) && p + 1 <= q < |run|
    requires run[p].worker.Closing? && !run[p + 1].worker.Closing?
    ensures ClosingFits(run[p])
    ensures Silent(run[p], run[q], run[p].worker.i)
    ensures q + 1 < |run| ==> !Publishes(run[q], run[q + 1], run[p].worker.i)
  {
    InvThroughout(k, run, p);
    StepOfRun(k, run, p);
    OnlyDoneEndsClosing(k, run[p], run[p + 1]);
    DoneIsFinal(k, run, p, q, run[p].worker.i);
  }

  lemma OnlyDoneEndsClosing(k: Params, s: State, t: State)
    requires Step(k, s, t) && s.worker.Closing? && !t.worker.Closing?
    ensures s.worker.i < |s.streams| && DoneClosed(s.streams[s.worker.i])
  {
    var a: Action :| Enabled(k, s, a) && t == Next(k, s, a);
    match a
    case ByReader(r) => ReaderFootprint(k, s, r);
    case ByWriter(o) => WriterFootprint(k, s, o);
    case _ =>
  }

  lemma DoneIsFinal(k: Params, run: seq<State>, p: nat, q: nat, i: nat)
    requires k.dataCap == 0 && Run(k, run) && p <= q < |run|
    requires i < |run[p].streams| && DoneClosed(run[p].streams[i])
    ensures Silent(run[p], run[q], i)
    ensures q + 1 < |run| ==> !Publishes(run[q], run[q + 1], i)
  {
    forall j: nat | j + 1 < |run|
      ensures StaysSilent(run[j], run[j + 1], i)
    {
      StaysSilentAt(k, run, j, i);
    }
    SilentAlong(run, p, q, i);
  }

  lemma StaysSilentAt(k: Params, run: seq<State>, j: nat, i: nat)
    requires k.dataCap == 0 && Run(k, run) && j + 1 < |run|
    ensures StaysSilent(run[j], run[j + 1], i)
  {
    InvThroughout(k, run, j);
    StepOfRun(k, run, j);
    StepStaysSilent(k, run[j], run[j + 1], i);
  }

  lemma {:induction false} SilentAlong(run: seq<State>, p: nat, q: nat, i: nat)
    requires p <= q < |run| && i < |run[p].streams| && DoneClosed(run[p].streams[i])
    requires forall j: nat :: j + 1 < |run| ==> StaysSilent(run[j], run[j + 1], i)
    ensures Silent(run[p], run[q], i)
    ensures q + 1 < |run| ==> !Publishes(run[q], run[q + 1], i)
    decreases q - p
  {
    if p < q {
      SilentAlong(run, p, q - 1, i);
      assert StaysSilent(run[q - 1], run[(q - 1) + 1], i);
      SilentTransitive(run[p], run[q - 1], run[q], i);
    }
    assert q + 1 < |run| ==> StaysSilent(run[q], run[q + 1], i);
  }

  lemma StepOfRun(k: Params, run: seq<State>, q: nat)
    requires Run(k, run) && q + 1 < |run|
    ensures Step(k, run[q], run[q + 1])
  {
    assert StepAt(k, run, q + 1);
  }

  lemma StepStaysSilent(k: Params, s: State, t: State, i: nat)
    requires k.dataCap == 0 && Inv(s) && Step(k, s, t)
    ensures StaysSilent(s, t, i)
  {
    var a: Action :| Enabled(k, s, a) && t == Next(k, s, a);
    if i < |s.streams| && DoneClosed(s.streams[i]) {
      ClosedStaysSilent(k, s, a, i);
    }
  }

  lemma SilentTransitive(s: State, t: State, u: State, i: nat)
    requires Silent(s, t, i) && Silent(t, u, i)
    ensures Silent(s, u, i)
  {
  }

  /** A stream keeps its id, its file or its target for the whole run. */
  lemma JobsAreFixed(k: Params, run: seq<State>, p: nat, q: nat, i: nat)
    requires Run(k, run) && p <= q < |run| && i < |run[p].streams|
    ensures i < |run[q].streams| && Evolves(run[p].streams[i], run[q].streams[i])
  {
    forall j: nat | j + 1 < |run|
      ensures AllEvolve(run[j], run[j + 1])
    {
      StepOfRun(k, run, j);
      StepEvolves(k, run[j], run[j + 1]);
    }
    EvolvesAlong(run, p, q, i);
  }

  lemma {:induction false} EvolvesAlong(run: seq<State>, p: nat, q: nat, i: nat)
    requires p <= q < |run| && i < |run[p].streams|
    requires forall j: nat :: j + 1 < |run| ==> AllEvolve(run[j], run[j + 1])
    ensures i < |run[q].streams| && Evolves(run[p].streams[i], run[q].streams[i])
    decreases q - p
  {
    if p < q {
      EvolvesAlong(run, p, q - 1, i);
      assert AllEvolve(run[q - 1], run[(q - 1) + 1]);
      EvolvesTransitive(run[p].streams[i], run[q - 1].streams[i], run[q].streams[i]);
    }
  }

  lemma StepEvolves(k: Params, s: State, t: State)
    requires Step(k, s, t)
    ensures AllEvolve(s, t)
  {
    var a: Action :| Enabled(k, s, a) && t == Next(k, s, a);
    StreamsEvolve(k, s, a);
  }

  lemma EvolvesTransitive(a: Stream, b: Stream, c: Stream)
    requires Evolves(a, b) && Evolves(b, c)
    ensures Evolves(a, c)
  {
  }
}
