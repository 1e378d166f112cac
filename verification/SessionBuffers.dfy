/** What each stream puts on the wire. A read stream's chunks are references to two buffers that it keeps
    refilling; because `dataOut` is unbuffered, the one being written is never the one being filled, and the
    blobs on the wire are the file. */
module SessionBuffers {
  import opened ByteStrings
  import opened Wire
  import opened SessionModel
  import opened SessionFootprints

  // What a stream has on the wire

  /** The values written for stream `i`, in order. */
  function FramesOf(out: seq<Emission>, i: nat): seq<Value> {
    if out == [] then []
    else
      var (front, last) := (out[..|out| - 1], out[|out| - 1]);
      FramesOf(front, i) + (if last.StreamFrame? && last.i == i then [last.v] else [])
  }

  lemma FramesAppend(out: seq<Emission>, e: Emission, i: nat)
    ensures FramesOf(out + [e], i) ==
      if e.StreamFrame? && e.i == i then FramesOf(out, i) + [e.v] else FramesOf(out, i)
  {
    assert (out + [e])[..|out|] == out;
  }

  /** The bytes that the blobs among `frames` carry. */
  function BlobBytes(frames: seq<Value>): Bytes {
    if frames == [] then []
    else
      var (front, last) := (frames[..|frames| - 1], frames[|frames| - 1]);
      BlobBytes(front) + (if last.Blob? then last.data else [])
  }

  /** Blobs, then at most one other value. */
  predicate BlobsThenEnd(frames: seq<Value>) {
    forall j :: 0 <= j < |frames| - 1 ==> frames[j].Blob?
  }

  /** Nothing but chunks of the right size, nulls and errors. */
  predicate WellSized(frames: seq<Value>) {
    forall j :: 0 <= j < |frames| ==>
      frames[j].Err? || frames[j] == Null || (frames[j].Blob? && |frames[j].data| <= CHUNK)
  }

  predicate Ended(frames: seq<Value>) {
    frames != [] && !frames[|frames| - 1].Blob?
  }

  /** The message the writer is writing, or was writing when it failed. */
  function Held(w: WriterPc): Option<Msg> {
    match w
    case Writing(msg, _) => Some(msg)
    case WriterGone(_, torn) => torn
    case _ => None
  }

  function HeldFrom(w: WriterPc, i: nat): Option<Payload> {
    if Held(w).Some? && Held(w).value.FromStream? && Held(w).value.i == i then Some(Held(w).value.p) else None
  }

  function Copied(w: WriterPc): Bytes {
    if w.Writing? then w.copied else []
  }

  // The invariant of one stream

  predicate BuffersFit(r: ReadState) {
    && |r.bufs| == 2 && |r.bufs[0]| == CHUNK && |r.bufs[1]| == CHUNK && r.cur < 2 && r.off <= |r.file|
  }

  predicate ReadOk(r: ReadState) {
    && BuffersFit(r)
    && match r.pc
       case RTop => true
       case Filling(f, n) =>
         f <= n && 1 <= n <= CHUNK && r.off + n <= |r.file| && r.bufs[r.cur][..f] == r.file[r.off..r.off + f]
       case RSending(Chunk(b, o, n)) =>
         b == r.cur && 1 <= n <= CHUNK && o + n == r.off && r.bufs[b][..n] == r.file[o..o + n]
       case RSending(EndOfStream) => r.off == |r.file|
       case RSending(Failure(e)) => e.Err?
  }

  /** How much of the file has been handed to the writer. */
  function Delivered(r: ReadState): nat {
    if r.pc.RSending? && r.pc.p.Chunk? then r.pc.p.off else r.off
  }

  /** `held` is the message of this stream that the writer holds, `copied` the part it has serialised. */
  predicate ReadInv(st: Stream, frames: seq<Value>, held: Option<Payload>, copied: Bytes)
    requires st.body.Reads?
  {
    var r := st.body.r;
    && ReadOk(r)
    && BlobsThenEnd(frames) && WellSized(frames)
    && (Ended(frames) ==> held == None && st.life != Active)
    && (Ended(frames) && frames[|frames| - 1] == Null ==> BlobBytes(frames) == r.file)
    && match held
       case None => BlobBytes(frames) == r.file[..Delivered(r)]
       case Some(Chunk(b, o, n)) =>
         && b < 2 && n <= CHUNK && o + n == Delivered(r) && BlobBytes(frames) == r.file[..o]
         && |copied| <= n && copied == r.file[o..o + |copied|]
         && r.bufs[b][..n] == r.file[o..o + n]
         && r.cur == (if r.pc == RTop then b else 1 - b)
       case Some(EndOfStream) => st.life != Active && BlobBytes(frames) == r.file && Delivered(r) == |r.file|
       case Some(Failure(e)) => st.life != Active && e.Err? && BlobBytes(frames) == r.file[..Delivered(r)]
  }

  /** Write and copy streams send at most one value, and it is their last act. */
  predicate SingleInv(st: Stream, frames: seq<Value>, held: Option<Payload>)
    requires !st.body.Reads?
  {
    && |frames| + (if held.Some? then 1 else 0) <= 1
    && (frames != [] || held.Some? ==> st.life != Active)
    && (frames != [] ==> Final(st, frames[0]))
    && (held.Some? ==> !held.value.Chunk? && Final(st, PayloadValue(held.value)))
    && (Offered(st).Some? ==> !Offered(st).value.Chunk? && Final(st, PayloadValue(Offered(st).value)))
  }

  /** What the handler has to say at the end, if anything. */
  function Report(b: Body): Option<Payload> {
    match b
    case Reads(r) => if r.pc.RSending? && !r.pc.p.Chunk? then Some(r.pc.p) else None
    case Writes(w) => if w.pc.WSending? then Some(w.pc.p) else None
    case Copies(c) => if c.pc.CSending? then Some(c.pc.p) else None
  }

  /** The closing value of a stream that has returned is its report, on the wire or in the writer's hands; a
      stream without a report has none. */
  predicate ReportInv(st: Stream, frames: seq<Value>, held: Option<Payload>) {
    var report := Report(st.body);
    if st.life != Active && report.Some? then
      || held == report
      || (held == None && frames != [] && frames[|frames| - 1] == PayloadValue(report.value))
    else (frames == [] || frames[|frames| - 1].Blob?) && (held == None || held.value.Chunk?)
  }

  predicate Final(st: Stream, v: Value) {
    v.Err? || (st.body.Copies? && v == Null)
  }

  function PayloadValue(p: Payload): Value {
    match p
    case Failure(e) => e
    case _ => Null
  }

  predicate StreamInv(st: Stream, frames: seq<Value>, held: Option<Payload>, copied: Bytes) {
    && ReportInv(st, frames, held)
    && (if st.body.Reads? then ReadInv(st, frames, held, copied) else SingleInv(st, frames, held))
  }

  // Its steps, one stream at a time

  lemma FillKeepsPrefix(buf: Bytes, file: Bytes, off: nat, f: nat)
    requires f < |buf| && off + f < |file| && buf[..f] == file[off..off + f]
    ensures buf[f := file[off + f]][..f + 1] == file[off..off + f + 1]
  {
    var after := buf[f := file[off + f]];
    assert after[..f + 1] == buf[..f] + [file[off + f]];
    assert file[off..off + f + 1] == file[off..off + f] + [file[off + f]];
  }

  lemma ReadStepOk(r: ReadState, a: ReadAct)
    requires ReadOk(r) && ReadEnabled(r, true, a)
    ensures ReadOk(ReadStep(r, a))
    ensures Delivered(ReadStep(r, a)) == Delivered(r)
  {
    match a
    case BeginRead(n) => assert ReadStep(r, a).bufs[ReadStep(r, a).cur][..0] == [];
    case FillByte => FillKeepsPrefix(r.bufs[r.cur], r.file, r.off, r.pc.filled);
    case _ =>
  }

  /** Filling never touches the buffer that the writer holds. */
  lemma ReadStepSparesHeld(r: ReadState, a: ReadAct, b: nat)
    requires ReadOk(r) && ReadEnabled(r, true, a)
    requires b < 2 && r.cur == (if r.pc == RTop then b else 1 - b)
    ensures var t := ReadStep(r, a); t.bufs[b] == r.bufs[b] && t.cur == 1 - b && t.pc != RTop && t.file == r.file
  {
  }

  lemma ReadActKeeps(st: Stream, frames: seq<Value>, held: Option<Payload>, copied: Bytes, done: bool, fs: Files,
                     ra: ReadAct)
    requires st.body.Reads? && ReadInv(st, frames, held, copied) && LocalEnabled(st, done, fs, OfRead(ra))
    ensures ReadInv(Local(st, done, fs, OfRead(ra)).0, frames, held, copied)
  {
    var r := st.body.r;
    assert ReadEnabled(r, true, ra);
    ReadStepOk(r, ra);
    if held.Some? && held.value.Chunk? {
      ReadStepSparesHeld(r, ra, held.value.buf);
    }
  }

  lemma WriteActKeeps(st: Stream, frames: seq<Value>, held: Option<Payload>, done: bool, fs: Files, wa: WriteAct)
    requires st.body.Writes? && SingleInv(st, frames, held) && LocalEnabled(st, done, fs, OfWrite(wa))
    ensures SingleInv(Local(st, done, fs, OfWrite(wa)).0, frames, held)
  {
    assert WriteEnabled(st.body.w, true, wa);
  }

  lemma CopyOffers(c: CopyState, fs: Files, ca: CopyAct)
    requires CopyEnabled(c, true, fs, ca)
    ensures var pc := CopyStep(c, fs, ca).0.pc;
      pc.CSending? ==> !pc.p.Chunk? && (PayloadValue(pc.p).Err? || PayloadValue(pc.p) == Null)
  {
  }

  lemma CopyActKeeps(st: Stream, frames: seq<Value>, held: Option<Payload>, done: bool, fs: Files, ca: CopyAct)
    requires st.body.Copies? && SingleInv(st, frames, held) && LocalEnabled(st, done, fs, OfCopy(ca))
    ensures SingleInv(Local(st, done, fs, OfCopy(ca)).0, frames, held)
  {
    assert CopyEnabled(st.body.c, true, fs, ca);
    CopyOffers(st.body.c, fs, ca);
    var after := Local(st, done, fs, OfCopy(ca)).0;
    assert after.body == Copies(CopyStep(st.body.c, fs, ca).0) && after.life == Active;
  }

  lemma LocalKeeps(st: Stream, frames: seq<Value>, held: Option<Payload>, copied: Bytes, done: bool, fs: Files,
                   a: StreamAct)
    requires StreamInv(st, frames, held, copied) && LocalEnabled(st, done, fs, a)
    ensures StreamInv(Local(st, done, fs, a).0, frames, held, copied)
  {
    match a
    case OfRead(ra) => ReadActKeeps(st, frames, held, copied, done, fs, ra);
    case OfWrite(wa) => WriteActKeeps(st, frames, held, done, fs, wa);
    case OfCopy(ca) => CopyActKeeps(st, frames, held, done, fs, ca);
    case _ =>
  }

  /** The rendezvous: the writer takes what the handler offers. */
  lemma SendKeeps(st: Stream, frames: seq<Value>)
    requires StreamInv(st, frames, None, []) && Offered(st).Some?
    ensures StreamInv(AfterSend(st), frames, Offered(st), [])
  {
  }

  lemma CopyKeeps(st: Stream, frames: seq<Value>, p: Payload, copied: Bytes)
    requires st.body.Reads? && p.Chunk? && ReadInv(st, frames, Some(p), copied)
    requires BufferAt(st.body.r, p, |copied|).Some?
    ensures ReadInv(st, frames, Some(p), copied + [BufferAt(st.body.r, p, |copied|).value])
  {
    var r := st.body.r;
    var c := |copied|;
    assert r.bufs[p.buf][..p.n][c] == r.file[p.off..p.off + p.n][c];
    assert r.file[p.off..p.off + c + 1] == r.file[p.off..p.off + c] + [r.file[p.off + c]];
  }

  lemma EmitKeeps(st: Stream, frames: seq<Value>, p: Payload, copied: Bytes, i: nat)
    requires StreamInv(st, frames, Some(p), copied) && Serialised(FromStream(i, p), copied)
    ensures StreamInv(st, frames + [Written(FromStream(i, p), copied).v], None, [])
  {
    var v := Written(FromStream(i, p), copied).v;
    var after := frames + [v];
    assert after[..|after| - 1] == frames;
    if st.body.Reads? {
      assert !Ended(frames);
      if p.Chunk? {
        assert st.body.r.file[..p.off] + copied == st.body.r.file[..p.off + p.n];
      } else {
        assert BlobBytes(frames) + [] == BlobBytes(frames);
        assert st.body.r.file[..|st.body.r.file|] == st.body.r.file;
      }
    }
  }

  // All of them together

  ghost predicate BufferInv(s: State) {
    && s.dataOut == []
    && (forall i :: 0 <= i < |s.streams| ==>
         StreamInv(s.streams[i], FramesOf(s.out, i), HeldFrom(s.writer, i), Copied(s.writer)))
    && (forall j :: 0 <= j < |s.out| && s.out[j].StreamFrame? ==> s.out[j].i < |s.streams|)
    && (Held(s.writer).Some? && Held(s.writer).value.FromStream? ==> Held(s.writer).value.i < |s.streams|)
  }

  lemma {:induction false} NoFrames(out: seq<Emission>, i: nat)
    requires forall j :: 0 <= j < |out| && out[j].StreamFrame? ==> out[j].i != i
    ensures FramesOf(out, i) == []
  {
    if out != [] {
      NoFrames(out[..|out| - 1], i);
    }
  }

  lemma BuffersInitially(s: State)
    requires Initial(s)
    ensures BufferInv(s)
  {
  }

  lemma OpenedKeepsBuffers(s: State, body: Body)
    requires BufferInv(s) && FreeSlot(s.slots) < |s.slots|
    requires forall id: nat, c: Bytes :: StreamInv(Stream(id, 0, Active, body), [], None, c)
    ensures BufferInv(Opened(s, body))
  {
    NoFrames(s.out, |s.streams|);
  }

  lemma WorkerKeepsBuffers(s: State, a: WorkerAct)
    requires BufferInv(s) && WorkerEnabled(s, a)
    ensures BufferInv(WorkerNext(s, a))
  {
    match a
    case OpenRead(path) => OpenedKeepsBuffers(s, NewReadBody(path, s.fs[path]));
    case OpenWrite(path) => OpenedKeepsBuffers(s, NewWriteBody(path));
    case OpenCopy(from, path) => OpenedKeepsBuffers(s, NewCopyBody(from, path));
    case Signal => SignalKeepsBuffers(s);
    case _ => WorkerFootprint(s, a);
  }

  lemma SignalKeepsBuffers(s: State)
    requires BufferInv(s) && WorkerEnabled(s, Signal)
    ensures BufferInv(WorkerNext(s, Signal))
  {
    var i := s.worker.i;
    CancelKeeps(s.streams[i], FramesOf(s.out, i), HeldFrom(s.writer, i), Copied(s.writer));
    OneStreamChanges(s, WorkerNext(s, Signal), i);
  }

  lemma CancelKeeps(st: Stream, frames: seq<Value>, held: Option<Payload>, copied: Bytes)
    requires StreamInv(st, frames, held, copied)
    ensures StreamInv(st.(cancels := st.cancels + 1), frames, held, copied)
  {
  }

  lemma ReaderKeepsBuffers(k: Params, s: State, a: ReaderAct)
    requires BufferInv(s) && ReaderEnabled(k, s, a)
    ensures BufferInv(ReaderNext(k, s, a))
  {
    if a.PushFrame? {
      PushFrameKeepsBuffers(k, s, a);
    } else {
      ReaderFootprint(k, s, a);
    }
  }

  lemma PushFrameKeepsBuffers(k: Params, s: State, a: ReaderAct)
    requires BufferInv(s) && ReaderEnabled(k, s, a) && a.PushFrame?
    ensures BufferInv(ReaderNext(k, s, a))
  {
    var i := s.reader.i;
    var t := ReaderNext(k, s, a);
    QueueKeeps(s.streams[i], t.streams[i], FramesOf(s.out, i), HeldFrom(s.writer, i), Copied(s.writer));
    OneStreamChanges(s, t, i);
  }

  /** What is queued for a write stream is no business of the writer. */
  lemma QueueKeeps(st: Stream, after: Stream, frames: seq<Value>, held: Option<Payload>, copied: Bytes)
    requires st.body.Writes? && after.body.Writes? && after.life == st.life && after.body.w.pc == st.body.w.pc
    requires StreamInv(st, frames, held, copied)
    ensures StreamInv(after, frames, held, copied)
  {
  }

  lemma OneStreamChanges(s: State, t: State, i: nat)
    requires BufferInv(s) && i < |s.streams| && |t.streams| == |s.streams|
    requires t.out == s.out && t.writer == s.writer && t.dataOut == s.dataOut
    requires forall j :: 0 <= j < |s.streams| && j != i ==> t.streams[j] == s.streams[j]
    requires StreamInv(t.streams[i], FramesOf(s.out, i), HeldFrom(s.writer, i), Copied(s.writer))
    ensures BufferInv(t)
  {
    var copied := Copied(s.writer);
    forall j | 0 <= j < |t.streams|
      ensures StreamInv(t.streams[j], FramesOf(s.out, j), HeldFrom(s.writer, j), copied)
    {
      if j != i {
        assert t.streams[j] == s.streams[j];
      }
    }
  }

  lemma TakeKeepsBuffers(k: Params, s: State, i: nat)
    requires BufferInv(s) && WriterEnabled(k, s, TakeData(i))
    ensures BufferInv(WriterNext(k, s, TakeData(i)))
  {
    var t := WriterNext(k, s, TakeData(i));
    assert t.out == s.out && t.dataOut == [] && Held(t.writer).value.i == i && Copied(t.writer) == [];
    forall j | 0 <= j < |s.streams|
      ensures StreamInv(t.streams[j], FramesOf(t.out, j), HeldFrom(t.writer, j), Copied(t.writer))
    {
      TakeKeepsStream(k, s, i, j);
    }
  }

  lemma TakeKeepsStream(k: Params, s: State, i: nat, j: nat)
    requires BufferInv(s) && WriterEnabled(k, s, TakeData(i)) && j < |s.streams|
    ensures var t := WriterNext(k, s, TakeData(i));
      StreamInv(t.streams[j], FramesOf(t.out, j), HeldFrom(t.writer, j), Copied(t.writer))
  {
    if j == i {
      TakeKeepsSender(k, s, i);
    } else {
      var t := WriterNext(k, s, TakeData(i));
      assert t.streams[j] == s.streams[j] && HeldFrom(t.writer, j) == None && HeldFrom(s.writer, j) == None;
    }
  }

  lemma TakeKeepsSender(k: Params, s: State, i: nat)
    requires BufferInv(s) && WriterEnabled(k, s, TakeData(i))
    ensures var t := WriterNext(k, s, TakeData(i));
      StreamInv(t.streams[i], FramesOf(s.out, i), HeldFrom(t.writer, i), [])
  {
    var t := WriterNext(k, s, TakeData(i));
    assert HeldFrom(s.writer, i) == None && Copied(s.writer) == [];
    assert t.streams[i] == AfterSend(s.streams[i]) && HeldFrom(t.writer, i) == Offered(s.streams[i]);
    SendKeeps(s.streams[i], FramesOf(s.out, i));
  }

  lemma EmitKeepsStream(s: State, i: nat)
    requires BufferInv(s) && s.writer.Writing? && Serialised(s.writer.msg, s.writer.copied) && i < |s.streams|
    ensures StreamInv(s.streams[i], FramesOf(s.out + [Written(s.writer.msg, s.writer.copied)], i), None, [])
  {
    var msg := s.writer.msg;
    var e := Written(msg, s.writer.copied);
    FramesAppend(s.out, e, i);
    if msg.FromStream? && msg.i == i {
      EmitKeeps(s.streams[i], FramesOf(s.out, i), msg.p, s.writer.copied, i);
    } else {
      NothingHeld(s.streams[i], FramesOf(s.out, i), s.writer.copied, []);
    }
  }

  lemma EmitKeepsBuffers(k: Params, s: State)
    requires BufferInv(s) && WriterEnabled(k, s, Emit)
    ensures BufferInv(WriterNext(k, s, Emit))
  {
    var t := WriterNext(k, s, Emit);
    assert t.streams == s.streams && t.out == s.out + [Written(s.writer.msg, s.writer.copied)];
    assert Held(t.writer) == None && Copied(t.writer) == [];
    forall i | 0 <= i < |s.streams|
      ensures StreamInv(s.streams[i], FramesOf(t.out, i), None, [])
    {
      EmitKeepsStream(s, i);
    }
  }

  /** What the writer has serialised of another stream does not matter. */
  lemma NothingHeld(st: Stream, frames: seq<Value>, copied: Bytes, other: Bytes)
    requires StreamInv(st, frames, None, copied)
    ensures StreamInv(st, frames, None, other)
  {
  }

  lemma CopyKeepsBuffers(k: Params, s: State)
    requires BufferInv(s) && WriterEnabled(k, s, CopyByte)
    ensures BufferInv(WriterNext(k, s, CopyByte))
  {
    var t := WriterNext(k, s, CopyByte);
    assert t.streams == s.streams && t.out == s.out && Held(t.writer) == Held(s.writer);
    forall i | 0 <= i < |s.streams|
      ensures StreamInv(s.streams[i], FramesOf(s.out, i), HeldFrom(s.writer, i), t.writer.copied)
    {
      if HeldFrom(s.writer, i) == None {
        NothingHeld(s.streams[i], FramesOf(s.out, i), s.writer.copied, t.writer.copied);
      } else {
        CopyKeeps(s.streams[i], FramesOf(s.out, i), s.writer.msg.p, s.writer.copied);
      }
    }
  }

  lemma WriterKeepsBuffers(k: Params, s: State, a: WriterAct)
    requires k.dataCap == 0 && BufferInv(s) && WriterEnabled(k, s, a)
    ensures BufferInv(WriterNext(k, s, a))
  {
    match a
    case TakeData(i) => TakeKeepsBuffers(k, s, i);
    case Emit => EmitKeepsBuffers(k, s);
    case CopyByte => CopyKeepsBuffers(k, s);
    case _ => WaitingKeepsBuffers(k, s, a);
  }

  lemma WaitingKeepsBuffers(k: Params, s: State, a: WriterAct)
    requires BufferInv(s) && WriterEnabled(k, s, a) && !a.TakeData? && !a.Emit? && !a.CopyByte?
    ensures BufferInv(WriterNext(k, s, a))
  {
    var t := WriterNext(k, s, a);
    WriterFootprint(k, s, a);
    WaitingHoldsTheSame(k, s, a);
    forall i | 0 <= i < |s.streams|
      ensures StreamInv(s.streams[i], FramesOf(s.out, i), HeldFrom(s.writer, i), [])
    {
      NothingCopied(s.streams[i], FramesOf(s.out, i), HeldFrom(s.writer, i), Copied(s.writer));
    }
  }

  lemma WaitingHoldsTheSame(k: Params, s: State, a: WriterAct)
    requires s.dataOut == [] && WriterEnabled(k, s, a) && !a.TakeData? && !a.Emit? && !a.CopyByte?
    ensures var t := WriterNext(k, s, a);
      && t.dataOut == [] && Copied(t.writer) == []
      && (Held(t.writer).Some? && Held(t.writer).value.FromStream? ==> Held(t.writer) == Held(s.writer))
      && forall i :: HeldFrom(t.writer, i) == HeldFrom(s.writer, i)
  {
  }

  lemma NothingCopied(st: Stream, frames: seq<Value>, held: Option<Payload>, copied: Bytes)
    requires StreamInv(st, frames, held, copied)
    ensures StreamInv(st, frames, held, [])
  {
  }

  lemma HandlerKeepsBuffers(k: Params, s: State, i: nat, h: StreamAct)
    requires BufferInv(s) && Enabled(k, s, ByHandler(i, h))
    ensures BufferInv(Next(k, s, ByHandler(i, h)))
  {
    LocalKeeps(s.streams[i], FramesOf(s.out, i), HeldFrom(s.writer, i), Copied(s.writer), s.done, s.fs, h);
  }

  lemma FreeKeepsBuffers(k: Params, s: State, i: nat)
    requires BufferInv(s) && Enabled(k, s, Free(i))
    ensures BufferInv(Next(k, s, Free(i)))
  {
    var st := s.streams[i];
    assert StreamInv(st, FramesOf(s.out, i), HeldFrom(s.writer, i), Copied(s.writer));
    ReleaseKeeps(st, FramesOf(s.out, i), HeldFrom(s.writer, i), Copied(s.writer));
  }

  lemma ReleaseKeeps(st: Stream, frames: seq<Value>, held: Option<Payload>, copied: Bytes)
    requires StreamInv(st, frames, held, copied) && st.life == Closed
    ensures StreamInv(st.(life := Released), frames, held, copied)
  {
  }

  lemma CloseSessionKeepsBuffers(k: Params, s: State)
    requires BufferInv(s) && Enabled(k, s, CloseSession)
    ensures BufferInv(Next(k, s, CloseSession))
  {
  }

  lemma BuffersPreserved(k: Params, s: State, a: Action)
    requires k.dataCap == 0 && BufferInv(s) && Enabled(k, s, a)
    ensures BufferInv(Next(k, s, a))
  {
    match a
    case ByReader(r) => ReaderKeepsBuffers(k, s, r);
    case ByWorker(w) => WorkerKeepsBuffers(s, w);
    case ByWriter(o) => WriterKeepsBuffers(k, s, o);
    case ByHandler(i, h) => HandlerKeepsBuffers(k, s, i, h);
    case Free(i) => FreeKeepsBuffers(k, s, i);
    case CloseSession => CloseSessionKeepsBuffers(k, s);
  }
}
