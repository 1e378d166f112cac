/** A session as a transition system: one reader, one command worker, one writer, the stream handlers and
    the goroutine that closes `done`, joined by channels. Each action is one atomic step of one goroutine.

    A channel of capacity n is a sequence of at most n items; the unbuffered `dataOut` is a rendezvous.
    `produced`, `answered`, `routed` and `taken` are history: no step reads them. */
module SessionModel {
  import opened ByteStrings
  import opened Wire

  const SLOTS := 16
  const CHUNK := 32 * 1024
  const COMMANDS_CAP := 5
  const CMD_OUT_CAP := 5
  const FRAMES_CAP := 5
  const CANCEL_CAP := 2
  const TERMINATE_CAP := 3

  /** The capacity of `dataOut` is a parameter so that the code's 0 can be compared with other choices. */
  datatype Params = Params(cfg: Config, dataCap: nat)

  type Path = Bytes

  type Files = map<Path, Bytes>

  // What travels through the channels

  /** An entry of `commands`: a response of the reader behind the out-marker, or a command. The marker is
      recognised by identity, so no array a client sends is mistaken for it. */
  datatype Item = Ready(response: Value) | Command(args: seq<Value>)

  /** An entry of a write stream's `frames`. */
  datatype Frame = Data(payload: Bytes) | End

  /** What a handler sends. A chunk is a reference to one of its two buffers, not a copy; `off` is where
      in the file its bytes come from. */
  datatype Payload = Chunk(buf: nat, off: nat, n: nat) | EndOfStream | Failure(error: Value)

  datatype Msg = Reply(v: Value) | FromStream(i: nat, p: Payload)

  /** What the writer has written: the response, or the value that stream `i` sent under its tag. */
  datatype Emission = Response(v: Value) | StreamFrame(i: nat, v: Value)

  // Streams

  datatype ReadPc = RTop | Filling(filled: nat, n: nat) | RSending(p: Payload)

  datatype ReadState = ReadState(path: Path, file: Bytes, off: nat, bufs: seq<Bytes>, cur: nat, pc: ReadPc)

  datatype WritePc = WTop | WSelect | WSending(p: Payload)

  datatype TempFile = NotCreated | Temp(content: Bytes) | Removed | Published(content: Bytes)

  datatype WriteState =
    WriteState(path: Path, tmp: TempFile, frames: seq<Frame>, routed: seq<Frame>, taken: seq<Frame>, pc: WritePc)

  datatype CopyPc = COpen | CCreate | CTop | CCopy | CRename | CSending(p: Payload)

  datatype CopyState = CopyState(from: Path, path: Path, tmp: TempFile, src: Bytes, off: nat, pc: CopyPc)

  datatype Body = Reads(r: ReadState) | Writes(w: WriteState) | Copies(c: CopyState)

  /** A handler runs, returns, closes its `done` channel, and frees its slot, in this order. */
  datatype Life = Active | Returned | Closed | Released

  datatype Stream = Stream(id: nat, cancels: nat, life: Life, body: Body)

  // Goroutines

  datatype ReaderPc = ReadTop | Got(v: Value) | Pushing(item: Item) | Routing(i: nat, frame: Frame) | ReaderGone

  datatype WorkerPc =
    | WorkTop
    | Selecting
    | Calling(cmd: seq<Value>)
    | Closing(cmd: seq<Value>, id: int, i: nat, signalled: bool) // in `CloseStream(id)`, which found stream `i`
    | Responding(v: Value, quit: bool)
    | Quitting // has sent the answer to QUIT and is about to close `cmdOut`
    | WorkerGone

  /** `copied` is the part of a chunk already serialised. A writer that failed keeps what it was writing. */
  datatype WriterPc =
    | WriteTop
    | Polling
    | Waiting
    | Writing(msg: Msg, copied: Bytes)
    | WriterGone(drained: bool, torn: Option<Msg>)

  datatype State = State(
    input: Bytes,
    reader: ReaderPc,
    commands: seq<Item>,
    worker: WorkerPc,
    cmdOut: seq<Value>,
    cmdOutClosed: bool,
    dataOut: seq<Msg>,
    writer: WriterPc,
    out: seq<Emission>,
    slots: seq<Option<nat>>,
    streamCount: int,
    streams: seq<Stream>,
    fs: Files,
    terminations: nat,
    done: bool,
    produced: seq<Item>,
    answered: seq<(Item, Value)>)

  predicate Initial(s: State) {
    && s.reader == ReadTop && s.worker == WorkTop && s.writer == WriteTop
    && s.commands == [] && s.cmdOut == [] && !s.cmdOutClosed && s.dataOut == []
    && s.out == [] && s.streams == [] && s.produced == [] && s.answered == []
    && s.slots == seq(SLOTS, _ => None) && s.streamCount == 0
    && s.terminations == 0 && !s.done
  }

  // Values and responses

  const OK: Value := Str(Ascii("OK"))

  // The wording of an error message is a parameter of the step that makes it.

  function ProtocolError(cfg: Config, text: Bytes): Item {
    Ready(Err(Ascii("PROTO"), cfg.sprintf(text)))
  }

  function StreamError(cfg: Config, text: Bytes, tag: Bytes): Item {
    Ready(Tagged(tag, Err(Ascii("ARG"), cfg.sprintf(text))))
  }

  /** `strings.ToUpper(name) == "QUIT"`. Besides the ASCII letters, the dotless i (bytes C4 B1) has an
      ASCII letter as its upper case. */
  predicate IsQuit(name: Bytes) {
    || (|name| == 4 && Letter(name[0], 'Q') && Letter(name[1], 'U') && Letter(name[2], 'I') && Letter(name[3], 'T'))
    || (|name| == 5 && Letter(name[0], 'Q') && Letter(name[1], 'U') && name[2..4] == [0xC4, 0xB1]
        && Letter(name[4], 'T'))
  }

  predicate Letter(b: byte, upper: char) {
    b == upper as int || b == upper as int + 32
  }

  predicate QuitItem(item: Item) {
    item.Command? && item.args != [] && item.args[0].Str? && IsQuit(item.args[0].s)
  }

  // The slot table

  /** The least free slot, or the number of slots when all are taken. */
  function FreeSlot(slots: seq<Option<nat>>): (id: nat)
    ensures id <= |slots|
    ensures id < |slots| ==> slots[id] == None
    ensures forall t :: 0 <= t < id ==> slots[t].Some?
  {
    if slots == [] || slots[0] == None then 0 else 1 + FreeSlot(slots[1..])
  }

  function GetStream(s: State, id: int): Option<nat> {
    if 0 <= id < |s.slots| then s.slots[id] else None
  }

  function Opened(s: State, body: Body): State
    requires FreeSlot(s.slots) < |s.slots|
  {
    var id := FreeSlot(s.slots);
    s.(slots := s.slots[id := Some(|s.streams|)],
       streamCount := s.streamCount + 1,
       streams := s.streams + [Stream(id, 0, Active, body)])
  }

  function NewReadBody(path: Path, file: Bytes): Body {
    Reads(ReadState(path, file, 0, [seq(CHUNK, _ => 0), seq(CHUNK, _ => 0)], 0, RTop))
  }

  function NewWriteBody(path: Path): Body {
    Writes(WriteState(path, Temp([]), [], [], [], WTop))
  }

  function NewCopyBody(from: Path, to: Path): Body {
    Copies(CopyState(from, to, NotCreated, [], 0, COpen))
  }

  // Reader

  datatype ReaderAct =
    | ReaderStop          // `done` is closed
    | ReadNext(text: Bytes) // one `Read`; `text` words a format error
    | ReadCut(n: nat, text: Bytes) // the deadline passes in a size line, after `n` bytes
    | ReadFail            // the connection fails, or the deadline passes anywhere else
    | Dispatch(text: Bytes)
    | PushItem
    | PushFrame

  /** A deadline that passes in a size line, at any depth, is a format error like the end of the stream there:
      what has arrived of the value is dropped, and reading goes on with what arrives later. */
  predicate ReaderEnabled(k: Params, s: State, a: ReaderAct) {
    match a
    case ReaderStop => s.reader == ReadTop && s.done
    case ReadNext(_) =>
      && s.reader == ReadTop && !s.done && !Read(k.cfg, s.input).Panic?
      && (Read(k.cfg, s.input).IO? ==> s.terminations < TERMINATE_CAP)
    case ReadCut(n, _) =>
      s.reader == ReadTop && !s.done && n <= |s.input| && Read(k.cfg, s.input[..n]) == Format([])
    case ReadFail => s.reader == ReadTop && !s.done && s.terminations < TERMINATE_CAP
    case Dispatch(_) => s.reader.Got?
    case PushItem => s.reader.Pushing? && |s.commands| < COMMANDS_CAP
    case PushFrame =>
      && s.reader.Routing? && s.reader.i < |s.streams| && s.streams[s.reader.i].body.Writes?
      && |s.streams[s.reader.i].body.w.frames| < FRAMES_CAP
  }

  function ReaderNext(k: Params, s: State, a: ReaderAct): State
    requires ReaderEnabled(k, s, a)
  {
    match a
    case ReaderStop => s.(reader := ReaderGone)
    case ReadCut(n, text) => Produce(s.(input := s.input[n..]), ProtocolError(k.cfg, text))
    case ReadFail => s.(reader := ReaderGone, terminations := s.terminations + 1)
    case ReadNext(text) =>
      (match Read(k.cfg, s.input)
       case Ok(v, rest) => s.(reader := Got(v), input := rest)
       case Format(rest) => Produce(s.(input := rest), ProtocolError(k.cfg, text))
       case _ => s.(reader := ReaderGone, terminations := s.terminations + 1))
    case Dispatch(text) =>
      (match Route(k.cfg, s, s.reader.v, text)
       case Pushing(item) => Produce(s, item)
       case other => s.(reader := other))
    case PushItem => s.(reader := ReadTop, commands := s.commands + [s.reader.item])
    case PushFrame =>
      var (i, f) := (s.reader.i, s.reader.frame);
      var w := s.streams[i].body.w;
      var body := Writes(w.(frames := w.frames + [f], routed := w.routed + [f]));
      s.(reader := ReadTop, streams := s.streams[i := s.streams[i].(body := body)])
  }

  function Produce(s: State, item: Item): State {
    s.(reader := Pushing(item), produced := s.produced + [item])
  }

  predicate IsCommand(v: Value) {
    v.Arr? && v.vs != [] && v.vs[0].Str?
  }

  /** The id of the stream that a value is a frame for, and the frame. */
  function AsFrame(v: Value): Option<(int, Frame)> {
    if !v.Tagged? || Atoi(v.tag) == None then None
    else
      match v.inner
      case Blob(data) => Some((Atoi(v.tag).value, Data(data)))
      case Null => Some((Atoi(v.tag).value, End))
      case _ => None
  }

  function LiveWriter(s: State, id: int): Option<nat> {
    var i := GetStream(s, id);
    if i.Some? && i.value < |s.streams| && s.streams[i.value].body.Writes? then i else None
  }

  /** A frame is refused under its own tag, anything else as a breach of the protocol. */
  predicate Refuses(v: Value, response: Value) {
    if AsFrame(v).Some? then
      response.Tagged? && response.tag == v.tag && response.inner.Err? && response.inner.code == Ascii("ARG")
    else IsBreach(response)
  }

  predicate IsBreach(response: Value) {
    response.Err? && response.code == Ascii("PROTO")
  }

  /** What the reader does with a value: a stream frame goes to a live write stream, a command to the
      worker, and everything else is answered with an error. */
  function Route(cfg: Config, s: State, v: Value, text: Bytes): (pc: ReaderPc)
    ensures
      if AsFrame(v).Some? && LiveWriter(s, AsFrame(v).value.0).Some? then
        pc == Routing(LiveWriter(s, AsFrame(v).value.0).value, AsFrame(v).value.1)
      else if IsCommand(v) then pc == Pushing(Command(v.vs))
      else pc.Pushing? && pc.item.Ready? && Refuses(v, pc.item.response)
  {
    match v
    case Tagged(tag, inner) =>
      if !inner.Blob? && !inner.Null? then Pushing(ProtocolError(cfg, text))
      else if Atoi(tag) == None then Pushing(ProtocolError(cfg, text))
      else
        (match GetStream(s, Atoi(tag).value)
         case None => Pushing(StreamError(cfg, text, tag))
         case Some(i) =>
           if i < |s.streams| && s.streams[i].body.Writes? then
             Routing(i, if inner.Blob? then Data(inner.data) else End)
           else Pushing(StreamError(cfg, text, tag)))
    case Arr(vs) =>
      if vs == [] || !vs[0].Str? then Pushing(ProtocolError(cfg, text)) else Pushing(Command(vs))
    case _ => Pushing(ProtocolError(cfg, text))
  }

  // Worker

  /** While the worker is calling back, the callback may open and close streams, change files, ask for
      termination, and finally return any response. */
  datatype WorkerAct =
    | WorkerStop
    | WorkerLook
    | TakeCommand
    | OpenRead(path: Path)
    | OpenWrite(path: Path)
    | OpenCopy(from: Path, path: Path)
    | CloseById(id: int)
    | Signal
    | AwaitDone
    | ChangeFiles(fs: Files)
    | AskToTerminate
    | Return(v: Value)
    | PushReply
    | CloseOut

  predicate WorkerEnabled(s: State, a: WorkerAct) {
    match a
    case WorkerStop => (s.worker == WorkTop || s.worker == Selecting) && s.done
    case WorkerLook => s.worker == WorkTop && !s.done
    case TakeCommand => s.worker == Selecting && s.commands != []
    case OpenRead(path) => s.worker.Calling? && path in s.fs && FreeSlot(s.slots) < |s.slots|
    case OpenWrite(_) => s.worker.Calling? && FreeSlot(s.slots) < |s.slots|
    case OpenCopy(_, _) => s.worker.Calling? && FreeSlot(s.slots) < |s.slots|
    case CloseById(id) => s.worker.Calling? && GetStream(s, id).Some?
    case Signal =>
      && s.worker.Closing? && !s.worker.signalled
      && s.worker.i < |s.streams| && s.streams[s.worker.i].cancels < CANCEL_CAP
    case AwaitDone =>
      && s.worker.Closing? && s.worker.signalled
      && s.worker.i < |s.streams| && DoneClosed(s.streams[s.worker.i])
    case ChangeFiles(_) => s.worker.Calling?
    case AskToTerminate => s.worker.Calling? && s.terminations < TERMINATE_CAP
    case Return(_) => s.worker.Calling?
    case PushReply => s.worker.Responding? && |s.cmdOut| < CMD_OUT_CAP
    case CloseOut => s.worker == Quitting
  }

  predicate DoneClosed(st: Stream) {
    st.life == Closed || st.life == Released
  }

  function WorkerNext(s: State, a: WorkerAct): State
    requires WorkerEnabled(s, a)
  {
    match a
    case WorkerStop => s.(worker := WorkerGone)
    case WorkerLook => s.(worker := Selecting)
    case TakeCommand =>
      var (item, rest) := (s.commands[0], s.commands[1..]);
      (match item
       case Ready(v) => Answer(s.(commands := rest), item, v, false)
       case Command(args) =>
         if QuitItem(item) then Answer(s.(commands := rest), item, OK, true)
         else s.(commands := rest, worker := Calling(args)))
    case OpenRead(path) => Opened(s, NewReadBody(path, s.fs[path]))
    case OpenWrite(path) => Opened(s, NewWriteBody(path))
    case OpenCopy(from, path) => Opened(s, NewCopyBody(from, path))
    case CloseById(id) => s.(worker := Closing(s.worker.cmd, id, GetStream(s, id).value, false))
    case Signal =>
      var st := s.streams[s.worker.i];
      s.(worker := s.worker.(signalled := true),
         streams := s.streams[s.worker.i := st.(cancels := st.cancels + 1)])
    case AwaitDone => s.(worker := Calling(s.worker.cmd))
    case ChangeFiles(fs) => s.(fs := fs)
    case AskToTerminate => s.(terminations := s.terminations + 1)
    case Return(v) => Answer(s, Command(s.worker.cmd), v, false)
    case PushReply =>
      s.(cmdOut := s.cmdOut + [s.worker.v], worker := if s.worker.quit then Quitting else WorkTop)
    case CloseOut => s.(cmdOutClosed := true, worker := WorkerGone)
  }

  function Answer(s: State, item: Item, v: Value, quit: bool): State {
    s.(worker := Responding(v, quit), answered := s.answered + [(item, v)])
  }

  // Writer

  datatype WriterAct =
    | WriterStop
    | WriterLook
    | TakeReply
    | Drain
    | WriterWait
    | TakeData(i: nat) // rendezvous with stream `i`
    | TakeQueued       // only with a buffered `dataOut`
    | CopyByte
    | Emit
    | WriteFail

  predicate WriterEnabled(k: Params, s: State, a: WriterAct) {
    match a
    case WriterStop => (s.writer == WriteTop || s.writer == Waiting) && s.done
    case WriterLook => s.writer == WriteTop && !s.done
    case TakeReply => (s.writer == Polling || s.writer == Waiting) && s.cmdOut != []
    case Drain =>
      && (s.writer == Polling || s.writer == Waiting) && s.cmdOut == [] && s.cmdOutClosed
      && s.terminations < TERMINATE_CAP
    case WriterWait => s.writer == Polling && s.cmdOut == [] && !s.cmdOutClosed
    case TakeData(i) => s.writer == Waiting && k.dataCap == 0 && i < |s.streams| && Offered(s.streams[i]).Some?
    case TakeQueued => s.writer == Waiting && s.dataOut != []
    case CopyByte => CopiesByte(s)
    case Emit => s.writer.Writing? && !CopiesByte(s) && Serialised(s.writer.msg, s.writer.copied)
    case WriteFail => s.writer.Writing? && s.terminations < TERMINATE_CAP
  }

  /** The writer is in the middle of a chunk, reading the handler's buffer. */
  predicate CopiesByte(s: State) {
    && s.writer.Writing? && s.writer.msg.FromStream? && s.writer.msg.p.Chunk?
    && s.writer.msg.i < |s.streams| && s.streams[s.writer.msg.i].body.Reads?
    && BufferAt(s.streams[s.writer.msg.i].body.r, s.writer.msg.p, |s.writer.copied|).Some?
  }

  /** Byte `j` of a chunk, as the handler's buffer holds it now. */
  function BufferAt(r: ReadState, p: Payload, j: nat): Option<byte>
    requires p.Chunk?
  {
    if p.buf < |r.bufs| && j < p.n <= |r.bufs[p.buf]| then Some(r.bufs[p.buf][j]) else None
  }

  predicate Serialised(msg: Msg, copied: Bytes) {
    msg.FromStream? && msg.p.Chunk? ==> |copied| == msg.p.n
  }

  function WriterNext(k: Params, s: State, a: WriterAct): State
    requires WriterEnabled(k, s, a)
  {
    match a
    case WriterStop => s.(writer := WriterGone(false, None))
    case WriterLook => s.(writer := Polling)
    case TakeReply => s.(writer := Writing(Reply(s.cmdOut[0]), []), cmdOut := s.cmdOut[1..])
    case Drain => s.(writer := WriterGone(true, None), terminations := s.terminations + 1)
    case WriterWait => s.(writer := Waiting)
    case TakeData(i) =>
      s.(writer := Writing(FromStream(i, Offered(s.streams[i]).value), []),
         streams := s.streams[i := AfterSend(s.streams[i])])
    case TakeQueued => s.(writer := Writing(s.dataOut[0], []), dataOut := s.dataOut[1..])
    case CopyByte =>
      var b := BufferAt(s.streams[s.writer.msg.i].body.r, s.writer.msg.p, |s.writer.copied|).value;
      s.(writer := Writing(s.writer.msg, s.writer.copied + [b]))
    case Emit => s.(writer := WriteTop, out := s.out + [Written(s.writer.msg, s.writer.copied)])
    case WriteFail => s.(writer := WriterGone(false, Some(s.writer.msg)), terminations := s.terminations + 1)
  }

  function Written(msg: Msg, copied: Bytes): Emission {
    match msg
    case Reply(v) => Response(v)
    case FromStream(i, Chunk(_, _, _)) => StreamFrame(i, Blob(copied))
    case FromStream(i, EndOfStream) => StreamFrame(i, Null)
    case FromStream(i, Failure(e)) => StreamFrame(i, e)
  }

  // Stream handlers

  /** What the handler is blocked on sending to `dataOut`. */
  function Offered(st: Stream): Option<Payload> {
    if st.life != Active then None
    else
      match st.body
      case Reads(r) => if r.pc.RSending? then Some(r.pc.p) else None
      case Writes(w) => if w.pc.WSending? then Some(w.pc.p) else None
      case Copies(c) => if c.pc.CSending? then Some(c.pc.p) else None
  }

  /** After a chunk the reading loop goes on; after anything else the handler returns. */
  function AfterSend(st: Stream): Stream
    requires Offered(st).Some?
  {
    if Offered(st).value.Chunk? && st.body.Reads? then st.(body := Reads(st.body.r.(pc := RTop)))
    else st.(life := Returned)
  }

  function IoError(text: Bytes): Payload {
    Failure(Err(Ascii("IO"), text))
  }

  function TimeoutError(text: Bytes): Payload {
    Failure(Err(Ascii("TIMEOUT"), text))
  }

  function ChunkSize(left: nat): nat {
    if left < CHUNK then left else CHUNK
  }

  // A read stream fills its two buffers in turn

  datatype ReadAct = BeginRead(n: nat) | FillByte | EndRead | ReadEof | ReadError(text: Bytes)

  predicate ReadEnabled(r: ReadState, undisturbed: bool, a: ReadAct) {
    match a
    case BeginRead(n) => r.pc == RTop && undisturbed && r.off < |r.file| && 1 <= n <= ChunkSize(|r.file| - r.off)
    case FillByte =>
      && r.pc.Filling? && r.pc.filled < r.pc.n
      && r.cur < |r.bufs| && r.pc.filled < |r.bufs[r.cur]| && r.off + r.pc.filled < |r.file|
    case EndRead => r.pc.Filling? && r.pc.filled == r.pc.n
    case ReadEof => r.pc == RTop && undisturbed && r.off == |r.file|
    case ReadError(_) => (r.pc == RTop && undisturbed) || r.pc.Filling?
  }

  function ReadStep(r: ReadState, a: ReadAct): ReadState
    requires ReadEnabled(r, true, a)
  {
    match a
    case BeginRead(n) => r.(cur := (r.cur + 1) % 2, pc := Filling(0, n))
    case FillByte =>
      var f := r.pc.filled;
      r.(bufs := r.bufs[r.cur := r.bufs[r.cur][f := r.file[r.off + f]]], pc := Filling(f + 1, r.pc.n))
    case EndRead => r.(pc := RSending(Chunk(r.cur, r.off, r.pc.n)), off := r.off + r.pc.n)
    case ReadEof => r.(cur := (r.cur + 1) % 2, pc := RSending(EndOfStream))
    case ReadError(text) =>
      r.(cur := if r.pc == RTop then (r.cur + 1) % 2 else r.cur,
         pc := RSending(IoError(text)))
  }

  // A write stream appends to a temporary file and renames it

  datatype WriteAct = EnterSelect | TimeOut(text: Bytes) | TakeFrame(ok: bool, text: Bytes)

  predicate WriteEnabled(w: WriteState, undisturbed: bool, a: WriteAct) {
    match a
    case EnterSelect => w.pc == WTop && undisturbed
    case TimeOut(_) => w.pc == WTop || w.pc == WSelect
    case TakeFrame(_, _) => w.pc == WSelect && w.frames != [] && w.tmp.Temp?
  }

  /** The new record, the files, and whether the handler returns. */
  function WriteStep(w: WriteState, fs: Files, a: WriteAct): (WriteState, Files, bool)
    requires WriteEnabled(w, true, a)
  {
    match a
    case EnterSelect => (w.(pc := WSelect), fs, false)
    case TimeOut(text) => (w.(tmp := Removed, pc := WSending(TimeoutError(text))), fs, false)
    case TakeFrame(ok, text) =>
      Consume(w.(frames := w.frames[1..], taken := w.taken + w.frames[..1]), fs, w.frames[0], ok, text)
  }

  /** The end frame publishes; a data frame is appended. Either may fail. */
  function Consume(w: WriteState, fs: Files, frame: Frame, ok: bool, text: Bytes): (WriteState, Files, bool)
    requires w.tmp.Temp?
  {
    var content := w.tmp.content;
    match frame
    case End =>
      if ok then (w.(tmp := Published(content)), fs[w.path := content], true)
      else (w.(pc := WSending(IoError(text))), fs, false)
    case Data(payload) =>
      if ok then (w.(tmp := Temp(content + payload), pc := WTop), fs, false)
      else (w.(tmp := Removed, pc := WSending(IoError(text))), fs, false)
  }

  // A copy stream copies chunk by chunk to a temporary file and renames it

  datatype CopyAct =
    | OpenSource(ok: bool, text: Bytes)
    | CreateTemp(ok: bool, text: Bytes)
    | EnterCopy
    | CopyChunk(ok: bool, k: nat, text: Bytes) // after `k` bytes when it fails
    | Rename(ok: bool, text: Bytes)

  predicate CopyEnabled(c: CopyState, undisturbed: bool, fs: Files, a: CopyAct) {
    match a
    case OpenSource(ok, _) => c.pc == COpen && (ok ==> c.from in fs)
    case CreateTemp(_, _) => c.pc == CCreate
    case EnterCopy => c.pc == CTop && undisturbed
    case CopyChunk(ok, k, _) =>
      c.pc == CCopy && c.tmp.Temp? && c.off <= |c.src| && (!ok ==> k <= ChunkSize(|c.src| - c.off))
    case Rename(_, _) => c.pc == CRename && c.tmp.Temp?
  }

  function CopyStep(c: CopyState, fs: Files, a: CopyAct): (CopyState, Files)
    requires CopyEnabled(c, true, fs, a)
  {
    match a
    case OpenSource(ok, text) =>
      (if ok then c.(src := fs[c.from], pc := CCreate)
       else c.(pc := CSending(IoError(text))), fs)
    case CreateTemp(ok, text) =>
      (if ok then c.(tmp := Temp([]), pc := CTop)
       else c.(pc := CSending(IoError(text))), fs)
    case EnterCopy => (c.(pc := CCopy), fs)
    case CopyChunk(ok, k, text) =>
      var n := if ok then ChunkSize(|c.src| - c.off) else k;
      var next :=
        if !ok then CSending(IoError(text))
        else if n < CHUNK then CRename
        else CTop;
      (c.(tmp := Temp(c.tmp.content + c.src[c.off..c.off + n]), off := c.off + n, pc := next), fs)
    case Rename(ok, text) =>
      if ok then (c.(tmp := Published(c.tmp.content), pc := CSending(EndOfStream)), fs[c.path := c.tmp.content])
      else (c.(pc := CSending(IoError(text))), fs)
  }

  // Any handler

  datatype StreamAct =
    | Stop(viaCancel: bool)
    | CloseDone
    | OfRead(ra: ReadAct)
    | OfWrite(wa: WriteAct)
    | OfCopy(ca: CopyAct)

  /** Whether the handler stands where it looks at `done` and `cancel`. */
  predicate AtCheck(b: Body) {
    match b
    case Reads(r) => r.pc == RTop
    case Writes(w) => w.pc == WTop || w.pc == WSelect
    case Copies(c) => c.pc == CTop
  }

  /** Stopping closes and removes the temporary file. */
  function Abandon(b: Body): Body {
    match b
    case Reads(_) => b
    case Writes(w) => Writes(w.(tmp := Removed))
    case Copies(c) => Copies(c.(tmp := Removed))
  }

  predicate LocalEnabled(st: Stream, done: bool, fs: Files, a: StreamAct) {
    var undisturbed := !done && st.cancels == 0;
    match a
    case CloseDone => st.life == Returned
    case Stop(viaCancel) => st.life == Active && AtCheck(st.body) && (if viaCancel then st.cancels > 0 else done)
    case OfRead(ra) => st.life == Active && st.body.Reads? && ReadEnabled(st.body.r, undisturbed, ra)
    case OfWrite(wa) => st.life == Active && st.body.Writes? && WriteEnabled(st.body.w, undisturbed, wa)
    case OfCopy(ca) => st.life == Active && st.body.Copies? && CopyEnabled(st.body.c, undisturbed, fs, ca)
  }

  /** A step of one handler: its own record and, when it publishes, the files. */
  function Local(st: Stream, done: bool, fs: Files, a: StreamAct): (Stream, Files)
    requires LocalEnabled(st, done, fs, a)
  {
    match a
    case CloseDone => (st.(life := Closed), fs)
    case Stop(viaCancel) =>
      (Stream(st.id, if viaCancel then st.cancels - 1 else st.cancels, Returned, Abandon(st.body)), fs)
    case OfRead(ra) => (st.(body := Reads(ReadStep(st.body.r, ra))), fs)
    case OfWrite(wa) =>
      var (w, fs', finished) := WriteStep(st.body.w, fs, wa);
      (st.(body := Writes(w), life := if finished then Returned else Active), fs')
    case OfCopy(ca) =>
      var (c, fs') := CopyStep(st.body.c, fs, ca);
      (st.(body := Copies(c)), fs')
  }

  // The whole system

  datatype Action =
    | ByReader(r: ReaderAct)
    | ByWorker(w: WorkerAct)
    | ByWriter(o: WriterAct)
    | ByHandler(i: nat, h: StreamAct)
    | Queue(i: nat)   // a handler's send enters a buffered `dataOut`
    | Free(i: nat)    // releaseStream
    | CloseSession    // `Handle` closes `done`

  predicate Enabled(k: Params, s: State, a: Action) {
    match a
    case ByReader(r) => ReaderEnabled(k, s, r)
    case ByWorker(w) => WorkerEnabled(s, w)
    case ByWriter(o) => WriterEnabled(k, s, o)
    case ByHandler(i, h) => i < |s.streams| && LocalEnabled(s.streams[i], s.done, s.fs, h)
    case Queue(i) => i < |s.streams| && Offered(s.streams[i]).Some? && |s.dataOut| < k.dataCap
    case Free(i) => i < |s.streams| && s.streams[i].life == Closed && s.streams[i].id < |s.slots|
    case CloseSession => s.terminations > 0 && !s.done
  }

  function Next(k: Params, s: State, a: Action): State
    requires Enabled(k, s, a)
  {
    match a
    case ByReader(r) => ReaderNext(k, s, r)
    case ByWorker(w) => WorkerNext(s, w)
    case ByWriter(o) => WriterNext(k, s, o)
    case ByHandler(i, h) =>
      var (st, fs) := Local(s.streams[i], s.done, s.fs, h);
      s.(streams := s.streams[i := st], fs := fs)
    case Queue(i) =>
      s.(dataOut := s.dataOut + [FromStream(i, Offered(s.streams[i]).value)],
         streams := s.streams[i := AfterSend(s.streams[i])])
    case Free(i) =>
      s.(streams := s.streams[i := s.streams[i].(life := Released)],
         slots := s.slots[s.streams[i].id := None],
         streamCount := s.streamCount - 1)
    case CloseSession => s.(done := true, terminations := s.terminations - 1)
  }

  ghost predicate Step(k: Params, s: State, t: State) {
    exists a: Action :: Enabled(k, s, a) && t == Next(k, s, a)
  }

  ghost predicate StepAt(k: Params, run: seq<State>, j: nat)
    requires 0 < j < |run|
  {
    Step(k, run[j - 1], run[j])
  }

  /** A finite run from an initial state, each state one step of some goroutine after the one before. */
  ghost predicate Run(k: Params, run: seq<State>) {
    && run != [] && Initial(run[0])
    && forall j :: 0 < j < |run| ==> StepAt(k, run, j)
  }
}
