/** What a stream still does once it has been told to stop: it finishes what it has begun and begins nothing. */
module SessionStops {
  import opened SessionModel
  import opened SessionFootprints
  import opened SessionBuffers
  import opened SessionRuns
  import opened SessionActions
  import opened SessionReports

  /** How far a handler gets without another look at `done` and `cancel`: bytes read, frames taken, bytes copied. */
  function Reach(b: Body): nat {
    match b
    case Reads(r) => r.off + if r.pc.Filling? then r.pc.n else 0
    case Writes(w) => |w.taken| + if w.pc == WSelect && w.tmp.Temp? then 1 else 0
    case Copies(c) => c.off + if c.pc == CCopy then CHUNK else 0
  }

  function ReachAt(s: State, i: nat): nat {
    if i < |s.streams| then Reach(s.streams[i].body) else 0
  }

  /** The handler has returned, or will find at its next look that it has to. */
  predicate Halting(s: State, i: nat) {
    i < |s.streams| && (s.streams[i].life != Active || s.done || s.streams[i].cancels > 0)
  }

  predicate GoesNoFurther(s: State, t: State, i: nat) {
    Halting(s, i) ==> Halting(t, i) && ReachAt(t, i) <= ReachAt(s, i)
  }

  lemma LocalGoesNoFurther(st: Stream, done: bool, fs: Files, h: StreamAct)
    requires LocalEnabled(st, done, fs, h) && (st.life != Active || done || st.cancels > 0)
    ensures var t := Local(st, done, fs, h).0;
      (t.life != Active || done || t.cancels > 0) && Reach(t.body) <= Reach(st.body)
  {
    match h
    case OfRead(_) =>
    case OfWrite(_) =>
    case OfCopy(_) =>
    case _ =>
  }

  lemma ReaderLetsHalt(k: Params, s: State, r: ReaderAct, i: nat)
    requires ReaderEnabled(k, s, r)
    ensures GoesNoFurther(s, ReaderNext(k, s, r), i)
  {
    ReaderFootprint(k, s, r);
  }

  lemma WorkerLetsHalt(s: State, w: WorkerAct, i: nat)
    requires WorkerEnabled(s, w)
    ensures GoesNoFurther(s, WorkerNext(s, w), i)
  {
    WorkerFootprint(s, w);
  }

  lemma WriterLetsHalt(k: Params, s: State, o: WriterAct, i: nat)
    requires WriterEnabled(k, s, o)
    ensures GoesNoFurther(s, WriterNext(k, s, o), i)
  {
    WriterFootprint(k, s, o);
  }

  lemma RestLetsHalt(k: Params, s: State, a: Action, i: nat)
    requires Enabled(k, s, a) && (a.Queue? || a.Free? || a.CloseSession?)
    ensures GoesNoFurther(s, Next(k, s, a), i)
  {
  }

  lemma StepGoesNoFurther(k: Params, s: State, a: Action, i: nat)
    requires Enabled(k, s, a)
    ensures GoesNoFurther(s, Next(k, s, a), i)
  {
    match a
    case ByReader(r) => ReaderLetsHalt(k, s, r, i);
    case ByWorker(w) => WorkerLetsHalt(s, w, i);
    case ByWriter(o) => WriterLetsHalt(k, s, o, i);
    case ByHandler(j, h) =>
      if i == j && Halting(s, i) {
        LocalGoesNoFurther(s.streams[i], s.done, s.fs, h);
      }
    case _ => RestLetsHalt(k, s, a, i);
  }

  /** CLOSE and the end of the session do tell the stream. */
  lemma StopHalts(k: Params, s: State, a: Action, i: nat)
    requires Enabled(k, s, a) && Stops(s, a, i) && i < |s.streams|
    ensures Halting(Next(k, s, a), i) && Next(k, s, a).streams[i].body == s.streams[i].body
  {
  }

  lemma {:induction false} HaltingAlong(k: Params, run: seq<State>, acts: seq<Action>, p: nat, q: nat, i: nat)
    requires ActRun(k, run, acts) && p <= q < |run| && Halting(run[p], i)
    ensures Halting(run[q], i) && ReachAt(run[q], i) <= ReachAt(run[p], i)
    decreases q
  {
    if p < q {
      HaltingAlong(k, run, acts, p, q - 1, i);
      assert ActAt(k, run, acts, q - 1);
      StepGoesNoFurther(k, run[q - 1], acts[q - 1], i);
    }
  }

  lemma ReachIsLittle(b: Body)
    ensures b.Writes? ==> Reach(b) <= |b.w.taken| + 1
    ensures b.Copies? ==> Reach(b) <= b.c.off + CHUNK
  {
  }

  lemma SentIsRead(s: State, i: nat)
    requires i < |s.streams| && s.streams[i].body.Reads?
    requires StreamInv(s.streams[i], FramesOf(s.out, i), HeldFrom(s.writer, i), Copied(s.writer))
    ensures |BlobBytes(FramesOf(s.out, i))| <= ReachAt(s, i)
  {
  }

  /** From the step on in which a stream is closed or the session ends, a read stream sends no byte that it had not
      begun to read, a write stream takes at most one more frame, and a copy stream copies at most one more chunk. */
  lemma StoppedGoesNoFurther(k: Params, run: seq<State>, acts: seq<Action>, p: nat, q: nat, i: nat)
    requires k.dataCap == 0 && ActRun(k, run, acts) && p < q < |run|
    requires i < |run[p].streams| && StopAt(run, acts, p, i)
    ensures Halting(run[q], i)
    ensures var (b, c) := (run[p].streams[i].body, run[q].streams[i].body);
      match (b, c)
      case (Reads(r), Reads(_)) => |BlobBytes(FramesOf(run[q].out, i))| <= Reach(b)
      case (Writes(v), Writes(w)) => |w.taken| <= |v.taken| + 1
      case (Copies(v), Copies(w)) => w.off <= v.off + CHUNK
      case _ => false
  {
    assert ActAt(k, run, acts, p);
    StopHalts(k, run[p], acts[p], i);
    HaltingAlong(k, run, acts, p + 1, q, i);
    ActRunIsRun(k, run, acts);
    JobsAreFixed(k, run, p, q, i);
    ReachIsLittle(run[p].streams[i].body);
    if run[q].streams[i].body.Reads? {
      InvThroughout(k, run, q);
      InvOfStream(run[q], i);
      SentIsRead(run[q], i);
    }
  }

  lemma InvOfStream(s: State, i: nat)
    requires BufferInv(s) && i < |s.streams|
    ensures StreamInv(s.streams[i], FramesOf(s.out, i), HeldFrom(s.writer, i), Copied(s.writer))
  {
  }
}
