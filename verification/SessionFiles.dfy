/** What handlers do to files: a target changes only by publishing the whole of what was sent or copied, and
    a handler that has closed its `done` channel does nothing any more. */
module SessionFiles {
  import opened ByteStrings
  import opened SessionModel
  import opened SessionFootprints
  import opened SessionBuffers

  // Frames sent to a write stream

  function Payloads(frames: seq<Frame>): Bytes {
    if frames == [] then []
    else
      var (front, last) := (frames[..|frames| - 1], frames[|frames| - 1]);
      Payloads(front) + (if last.Data? then last.payload else [])
  }

  /** The data frames before the first end frame. */
  function BeforeEnd(frames: seq<Frame>): seq<Frame> {
    if frames == [] || frames[0].End? then [] else frames[..1] + BeforeEnd(frames[1..])
  }

  lemma {:induction false} EndFound(pre: seq<Frame>, rest: seq<Frame>)
    requires End !in pre
    ensures BeforeEnd(pre + [End] + rest) == pre
  {
    var all := pre + [End] + rest;
    if pre != [] {
      assert all[1..] == pre[1..] + [End] + rest;
      assert all[..1] + pre[1..] == pre;
      EndFound(pre[1..], rest);
    }
  }

  lemma PayloadsAppend(frames: seq<Frame>, f: Frame)
    ensures Payloads(frames + [f]) == Payloads(frames) + (if f.Data? then f.payload else [])
  {
    assert (frames + [f])[..|frames|] == frames;
  }

  /** An end frame may only come last. */
  predicate EndOnlyLast(frames: seq<Frame>) {
    forall j :: 0 <= j < |frames| - 1 ==> !frames[j].End?
  }

  predicate EndsWithEnd(frames: seq<Frame>) {
    frames != [] && frames[|frames| - 1].End? && EndOnlyLast(frames)
  }

  // The invariants of the two kinds of stream that own a temporary file

  /** While the handler runs, the temporary file holds exactly the frames taken so far. It is removed on
      every way out but one: the end frame publishes it, or leaves it behind if the rename fails. */
  predicate WriteFileInv(life: Life, w: WriteState) {
    && w.routed == w.taken + w.frames
    && |w.frames| <= FRAMES_CAP
    && (life == Active && !w.pc.WSending? ==> w.tmp == Temp(Payloads(w.taken)) && End !in w.taken)
    && (life == Active && w.pc.WSending? ==> w.tmp == Removed || (w.tmp.Temp? && EndsWithEnd(w.taken)))
    && (life != Active ==>
          || w.tmp == Removed
          || (w.tmp.Temp? && EndsWithEnd(w.taken))
          || (w.tmp == Published(Payloads(w.taken)) && EndsWithEnd(w.taken)))
    && (life != Active && w.tmp.Temp? ==> w.pc.WSending?)
    && (End in w.taken ==> w.tmp != Removed)
    && (w.pc.WSending? ==> !w.tmp.Published?)
  }

  /** The temporary file is always a prefix of the source; only the whole source is published, and null is
      sent exactly then. A stopped handler has removed the file. */
  predicate CopyFileInv(life: Life, c: CopyState) {
    && c.off <= |c.src|
    && (c.tmp.Temp? ==> c.tmp.content == c.src[..c.off])
    && (c.tmp.Published? ==> c.tmp.content == c.src)
    && (life == Active && (c.pc == COpen || c.pc == CCreate) ==> c.tmp == NotCreated && c.off == 0)
    && (life == Active && (c.pc == CTop || c.pc == CCopy || c.pc == CRename) ==> c.tmp.Temp?)
    && (c.pc == CRename ==> c.off == |c.src|)
    && (c.pc == CTop || c.pc == CCopy ==> c.off % CHUNK == 0)
    && (life != Active && !c.pc.CSending? ==> c.tmp == Removed)
    && (c.pc == CSending(EndOfStream) <==> c.tmp.Published?)
    && (c.pc.CSending? ==> c.pc.p == EndOfStream || (c.pc.p.Failure? && c.pc.p.error.Err?))
  }

  predicate FileInv(st: Stream) {
    match st.body
    case Reads(_) => true
    case Writes(w) => WriteFileInv(st.life, w)
    case Copies(c) => CopyFileInv(st.life, c)
  }

  lemma WriteStepKeeps(w: WriteState, fs: Files, a: WriteAct)
    requires WriteFileInv(Active, w) && WriteEnabled(w, true, a)
    ensures var (w', fs', finished) := WriteStep(w, fs, a);
      && WriteFileInv(if finished then Returned else Active, w')
      && (fs' == fs || (fs' == fs[w.path := Payloads(BeforeEnd(w.routed))]
                        && w'.tmp == Published(Payloads(BeforeEnd(w.routed)))))
  {
    if a.TakeFrame? {
      var f := w.frames[0];
      var taken := w.taken + w.frames[..1];
      assert w.frames[..1] == [f];
      assert w.routed == taken + w.frames[1..];
      PayloadsAppend(w.taken, f);
      if f.End? {
        assert Payloads(taken) == Payloads(w.taken);
        EndFound(w.taken, w.frames[1..]);
      }
    }
  }

  lemma CopyStepKeeps(c: CopyState, fs: Files, a: CopyAct)
    requires CopyFileInv(Active, c) && CopyEnabled(c, true, fs, a)
    ensures var (c', fs') := CopyStep(c, fs, a);
      && CopyFileInv(Active, c')
      && (fs' == fs || (fs' == fs[c.path := c.src] && c'.tmp == Published(c.src)))
      && (c.pc != COpen ==> c'.src == c.src)
  {
    match a
    case CopyChunk(_, _, _) => CopyChunkKeeps(c, fs, a);
    case Rename(_, _) => assert c.src[..c.off] == c.src;
    case _ =>
  }

  lemma CopyChunkKeeps(c: CopyState, fs: Files, a: CopyAct)
    requires CopyFileInv(Active, c) && CopyEnabled(c, true, fs, a) && a.CopyChunk?
    ensures CopyFileInv(Active, CopyStep(c, fs, a).0)
    ensures CopyStep(c, fs, a).1 == fs && CopyStep(c, fs, a).0.src == c.src
  {
    var n := if a.ok then ChunkSize(|c.src| - c.off) else a.k;
    assert c.src[..c.off] + c.src[c.off..c.off + n] == c.src[..c.off + n];
  }

  /** What a handler's step writes under a path, if anything: all it was sent, or all of its source. */
  function Publication(b: Body): Bytes {
    match b
    case Reads(_) => []
    case Writes(w) => Payloads(BeforeEnd(w.routed))
    case Copies(c) => c.src
  }

  function Target(b: Body): Path
    requires !b.Reads?
  {
    if b.Writes? then b.w.path else b.c.path
  }

  function TempOf(b: Body): TempFile {
    match b
    case Reads(_) => NotCreated
    case Writes(w) => w.tmp
    case Copies(c) => c.tmp
  }

  lemma LocalKeepsFiles(st: Stream, done: bool, fs: Files, a: StreamAct)
    requires FileInv(st) && LocalEnabled(st, done, fs, a)
    ensures var (st', fs') := Local(st, done, fs, a);
      && FileInv(st')
      && (fs' == fs
          || (!st.body.Reads? && fs' == fs[Target(st.body) := Publication(st.body)]
              && TempOf(st'.body) == Published(Publication(st.body))))
  {
    match a
    case OfWrite(wa) =>
      assert WriteEnabled(st.body.w, true, wa);
      WriteStepKeeps(st.body.w, fs, wa);
    case OfCopy(ca) =>
      assert CopyEnabled(st.body.c, true, fs, ca);
      CopyStepKeeps(st.body.c, fs, ca);
    case _ =>
  }

  /** A handler that comes to have published has put the whole under its target in the same step, and it never
      has to do with that file again. */
  lemma LocalPublishes(st: Stream, done: bool, fs: Files, a: StreamAct)
    requires FileInv(st) && LocalEnabled(st, done, fs, a)
    ensures var (st', fs') := Local(st, done, fs, a);
      && (TempOf(st.body).Published? ==> TempOf(st'.body) == TempOf(st.body) && fs' == fs)
      && (!TempOf(st.body).Published? && TempOf(st'.body).Published? ==>
            && fs' == fs[Target(st.body) := Publication(st.body)]
            && TempOf(st'.body) == Published(Publication(st.body)))
  {
    match a
    case OfWrite(wa) =>
      assert WriteEnabled(st.body.w, true, wa);
      WriteStepPublishes(st.body.w, fs, wa);
    case OfCopy(ca) =>
      assert CopyEnabled(st.body.c, true, fs, ca);
      CopyStepPublishes(st.body.c, fs, ca);
    case _ =>
  }

  lemma WriteStepPublishes(w: WriteState, fs: Files, a: WriteAct)
    requires WriteFileInv(Active, w) && WriteEnabled(w, true, a)
    ensures var (w', fs', _) := WriteStep(w, fs, a);
      && !w.tmp.Published?
      && (w'.tmp.Published? ==>
            fs' == fs[w.path := Payloads(BeforeEnd(w.routed))] && w'.tmp == Published(Payloads(BeforeEnd(w.routed))))
  {
    if a.TakeFrame? && w.frames[0].End? {
      assert w.frames[..1] == [End] && w.routed == w.taken + [End] + w.frames[1..];
      EndFound(w.taken, w.frames[1..]);
    }
  }

  lemma CopyStepPublishes(c: CopyState, fs: Files, a: CopyAct)
    requires CopyFileInv(Active, c) && CopyEnabled(c, true, fs, a)
    ensures var (c', fs') := CopyStep(c, fs, a);
      && !c.tmp.Published?
      && (c'.tmp.Published? ==> fs' == fs[c.path := c.src] && c'.tmp == Published(c.src))
  {
    assert a.Rename? ==> c.src[..c.off] == c.src;
  }

  /** What a handler that has returned leaves behind. */
  predicate CleanedUp(b: Body) {
    match b
    case Reads(_) => true
    case Writes(w) =>
      && (End !in w.taken ==> w.tmp == Removed)
      && (w.tmp.Published? ==> w.tmp.content == Publication(b))
      && (w.tmp.Published? <==> End in w.taken && !w.pc.WSending?)
    case Copies(c) =>
      && (!c.pc.CSending? ==> c.tmp == Removed)
      && (c.tmp.Published? <==> c.pc == CSending(EndOfStream))
      && (c.tmp.Published? ==> c.tmp.content == Publication(b))
  }

  lemma ReturnedCleansUp(st: Stream)
    requires FileInv(st) && st.life != Active
    ensures CleanedUp(st.body)
  {
    if st.body.Writes? && EndsWithEnd(st.body.w.taken) {
      var w := st.body.w;
      var pre := w.taken[..|w.taken| - 1];
      assert forall j :: 0 <= j < |pre| ==> pre[j] == w.taken[j];
      assert w.taken == pre + [End];
      EndFound(pre, w.frames);
      PayloadsAppend(pre, End);
      assert End in w.taken;
    }
  }

  ghost predicate FilesInv(s: State) {
    forall i :: 0 <= i < |s.streams| ==> FileInv(s.streams[i])
  }

  lemma FilesInitially(s: State)
    requires Initial(s)
    ensures FilesInv(s)
  {
  }

  lemma PushFrameKeepsFiles(k: Params, s: State)
    requires FilesInv(s) && ReaderEnabled(k, s, PushFrame)
    ensures FilesInv(ReaderNext(k, s, PushFrame))
  {
    var w := s.streams[s.reader.i].body.w;
    assert w.routed + [s.reader.frame] == w.taken + (w.frames + [s.reader.frame]);
  }

  lemma SendKeepsFiles(st: Stream)
    requires FileInv(st) && Offered(st).Some?
    ensures FileInv(AfterSend(st))
    ensures TempOf(AfterSend(st).body) == TempOf(st.body)
  {
  }

  lemma WorkerKeepsFiles(s: State, a: WorkerAct)
    requires FilesInv(s) && WorkerEnabled(s, a)
    ensures FilesInv(WorkerNext(s, a))
  {
    if !a.OpenRead? && !a.OpenWrite? && !a.OpenCopy? && !a.Signal? {
      WorkerFootprint(s, a);
    }
  }

  /** In every step of every run, either no file changes, or the callback changes files itself, or one
      handler replaces its target by its complete publication. */
  lemma FilesPreserved(k: Params, s: State, a: Action)
    requires FilesInv(s) && Enabled(k, s, a)
    ensures var t := Next(k, s, a);
      && FilesInv(t)
      && (|| t.fs == s.fs
          || (a.ByWorker? && a.w.ChangeFiles?)
          || (a.ByHandler? && !s.streams[a.i].body.Reads?
              && t.fs == s.fs[Target(s.streams[a.i].body) := Publication(s.streams[a.i].body)]
              && TempOf(t.streams[a.i].body) == Published(Publication(s.streams[a.i].body))))
  {
    match a
    case ByReader(r) => ReaderKeepsFiles(k, s, r);
    case ByWorker(w) =>
      WorkerKeepsFiles(s, w);
      WorkerFootprint(s, w);
    case ByWriter(o) => WriterKeepsFiles(k, s, o);
    case ByHandler(i, h) => LocalKeepsFiles(s.streams[i], s.done, s.fs, h);
    case _ => OthersKeepFiles(k, s, a);
  }

  lemma ReaderKeepsFiles(k: Params, s: State, a: ReaderAct)
    requires FilesInv(s) && ReaderEnabled(k, s, a)
    ensures FilesInv(ReaderNext(k, s, a)) && ReaderNext(k, s, a).fs == s.fs
  {
    ReaderFootprint(k, s, a);
    if a.PushFrame? {
      PushFrameKeepsFiles(k, s);
    }
  }

  lemma WriterKeepsFiles(k: Params, s: State, a: WriterAct)
    requires FilesInv(s) && WriterEnabled(k, s, a)
    ensures FilesInv(WriterNext(k, s, a)) && WriterNext(k, s, a).fs == s.fs
  {
    WriterFootprint(k, s, a);
    if a.TakeData? {
      SendKeepsFiles(s.streams[a.i]);
    }
  }

  lemma OthersKeepFiles(k: Params, s: State, a: Action)
    requires FilesInv(s) && Enabled(k, s, a) && (a.Queue? || a.Free? || a.CloseSession?)
    ensures FilesInv(Next(k, s, a)) && Next(k, s, a).fs == s.fs
  {
    if a.Queue? {
      SendKeepsFiles(s.streams[a.i]);
    }
  }

  predicate PublishedAt(s: State, i: nat) {
    i < |s.streams| && TempOf(s.streams[i].body).Published?
  }

  /** Only a handler's own step can make it have published. */
  lemma OnlyHandlersPublish(k: Params, s: State, a: Action, i: nat)
    requires Enabled(k, s, a) && !(a.ByHandler? && a.i == i)
    ensures var t := Next(k, s, a);
      && PublishedAt(t, i) == PublishedAt(s, i)
      && (i < |s.streams| ==> i < |t.streams| && TempOf(t.streams[i].body) == TempOf(s.streams[i].body))
  {
    match a
    case ByReader(r) => ReaderPublishesNothing(k, s, r, i);
    case ByWorker(w) => WorkerPublishesNothing(s, w, i);
    case ByWriter(o) => WriterFootprint(k, s, o);
    case _ =>
  }

  lemma ReaderPublishesNothing(k: Params, s: State, a: ReaderAct, i: nat)
    requires ReaderEnabled(k, s, a)
    ensures var t := ReaderNext(k, s, a);
      |t.streams| == |s.streams| && (i < |s.streams| ==> TempOf(t.streams[i].body) == TempOf(s.streams[i].body))
  {
    ReaderFootprint(k, s, a);
  }

  lemma WorkerPublishesNothing(s: State, a: WorkerAct, i: nat)
    requires WorkerEnabled(s, a)
    ensures var t := WorkerNext(s, a);
      && PublishedAt(t, i) == PublishedAt(s, i)
      && (i < |s.streams| ==> i < |t.streams| && TempOf(t.streams[i].body) == TempOf(s.streams[i].body))
  {
    WorkerFootprint(s, a);
  }

  // A stream whose handler has closed `done`

  /** Frames of a stream that are on the wire or in the writer's hands. */
  function NumSent(s: State, i: nat): nat {
    |FramesOf(s.out, i)| + (if HeldFrom(s.writer, i).Some? then 1 else 0)
  }

  /** The handler can do nothing but free its slot. */
  lemma ClosedIsQuiet(k: Params, s: State, i: nat, h: StreamAct)
    requires i < |s.streams| && DoneClosed(s.streams[i])
    ensures !Enabled(k, s, ByHandler(i, h)) && !Enabled(k, s, Queue(i)) && !Enabled(k, s, ByWriter(TakeData(i)))
  {
  }

  /** Only frames that the reader still pushes into the dead channel can make a difference. */
  predicate Untouched(before: Body, after: Body) {
    if before.Writes? && after.Writes? then
      after.w == before.w.(frames := after.w.frames, routed := after.w.routed)
    else before == after
  }

  ghost predicate Silent(s: State, t: State, i: nat) {
    && i < |s.streams| && i < |t.streams|
    && DoneClosed(t.streams[i])
    && Untouched(s.streams[i].body, t.streams[i].body)
    && NumSent(t, i) == NumSent(s, i)
  }

  lemma ClosedStaysSilent(k: Params, s: State, a: Action, i: nat)
    requires k.dataCap == 0 && s.dataOut == [] && Enabled(k, s, a)
    requires i < |s.streams| && DoneClosed(s.streams[i])
    ensures Silent(s, Next(k, s, a), i)
  {
    match a
    case ByReader(r) => ReaderLeavesSilent(k, s, r, i);
    case ByWorker(w) => WorkerLeavesSilent(s, w, i);
    case ByWriter(o) => WriterLeavesSilent(k, s, o, i);
    case _ =>
  }

  lemma ReaderLeavesSilent(k: Params, s: State, a: ReaderAct, i: nat)
    requires ReaderEnabled(k, s, a) && i < |s.streams| && DoneClosed(s.streams[i])
    ensures Silent(s, ReaderNext(k, s, a), i)
  {
    ReaderFootprint(k, s, a);
  }

  lemma WorkerLeavesSilent(s: State, a: WorkerAct, i: nat)
    requires WorkerEnabled(s, a) && i < |s.streams| && DoneClosed(s.streams[i])
    ensures Silent(s, WorkerNext(s, a), i)
  {
    WorkerFootprint(s, a);
  }

  lemma WriterLeavesSilent(k: Params, s: State, a: WriterAct, i: nat)
    requires WriterEnabled(k, s, a) && s.dataOut == [] && i < |s.streams| && DoneClosed(s.streams[i])
    ensures Silent(s, WriterNext(k, s, a), i)
  {
    if a.Emit? {
      EmitLeavesSilent(k, s, i);
    } else {
      WriterFootprint(k, s, a);
    }
  }

  lemma EmitLeavesSilent(k: Params, s: State, i: nat)
    requires WriterEnabled(k, s, Emit) && i < |s.streams| && DoneClosed(s.streams[i])
    ensures Silent(s, WriterNext(k, s, Emit), i)
  {
    FramesAppend(s.out, Written(s.writer.msg, s.writer.copied), i);
  }
}
