/** Why an upload must not be interrupted by the read deadline inside a size line: a run exists in which it is,
    and a file is published that is not the one the client sent. */
module UploadInterrupted {
  import opened ByteStrings
  import opened Wire
  import WireLaws
  import opened SessionModel
  import opened SessionStart
  import opened Upload
  import opened SessionRouting
  import opened UploadRuns

  /** The file happens to hold what a closing null looks like on the wire. */
  const NULL_FRAME: Bytes := [64, 48, 10, 95, 10]
  const CHUNKS: seq<Bytes> := [NULL_FRAME]

  /** The upload up to where the deadline passes, and the rest of it. */
  const HEAD: Bytes := [64, 48, 10, 36, 53]
  const TAIL: Bytes := [LF] + (NULL_FRAME + ([LF] + NULL_FRAME))

  function TheUpload(): Job {
    Job(UploadValues(CHUNKS, 0), 0, 0, [])
  }

  function SentBytes(): Bytes {
    Remaining(TheUpload(), 0)
  }

  lemma NullPrinted()
    ensures Print(Tagged(Itoa(0), Null)) == NULL_FRAME
  {
    assert Itoa(0) == [48];
    assert Print(Null) == [95, 10];
    assert PrintBody(Tagged(Itoa(0), Null)) == [48] + [10] + Print(Null);
  }

  lemma BlobPrinted()
    ensures Print(Tagged(Itoa(0), Blob(NULL_FRAME))) == HEAD + ([LF] + (NULL_FRAME + [LF]))
  {
    assert Itoa(0) == [48] && Itoa(5) == [53];
    var blob := Blob(NULL_FRAME);
    assert Print(blob) == [36] + ([53] + [10] + (NULL_FRAME + [10]));
    assert PrintBody(Tagged(Itoa(0), blob)) == [48] + [10] + Print(blob);
  }

  lemma BytesSent()
    ensures SentBytes() == HEAD + TAIL
  {
    var values := UploadValues(CHUNKS, 0);
    assert values == [Tagged(Itoa(0), Blob(NULL_FRAME)), Tagged(Itoa(0), Null)];
    NextIsPrinted(values, 0, []);
    NextIsPrinted(values, 1, []);
    assert values[2..] == [] && values[0..] == values;
    NullPrinted();
    BlobPrinted();
    assert PrintAll(values[1..]) + [] == NULL_FRAME;
    assert SentBytes() == HEAD + ([LF] + (NULL_FRAME + [LF])) + NULL_FRAME;
  }

  lemma HeadIsCut(cfg: Config)
    ensures Read(cfg, HEAD) == Format([])
  {
    var inp := HEAD[1..];
    assert inp == [48, 10, 36, 53];
    var blob: Bytes := [36, 53];
    var size: Bytes := [53];
    assert IndexOf(size, LF) == 1;
    assert ReadSizedBlob(cfg, size) == Format([]);
    assert blob[1..] == size;
    assert ReadBody(cfg, BLOB_MARK, size, false) == Format([]);
    assert ReadValue(cfg, blob, false) == Format([]);
    assert inp[1..][0] == 10 && IndexOf(inp[1..], LF) == 0 && IndexOf(inp, LF) == 1;
    assert inp[2..] == blob;
    assert ReadTagged(cfg, inp, true) == Format([]);
    assert ReadBody(cfg, TAG_MARK, inp, true) == Format([]);
  }

  lemma TailIsMisread(cfg: Config)
    ensures Read(cfg, TAIL) == Format(TAIL[1..])
    ensures Read(cfg, TAIL[1..]) == Ok(Tagged(Itoa(0), Null), [LF] + NULL_FRAME)
  {
    assert TAIL[1..] == NULL_FRAME + ([LF] + NULL_FRAME);
    assert ReadBody(cfg, LF, TAIL[1..], true) == Format(TAIL[1..]);
    NullPrinted();
    AtoiItoa(0);
    WireLaws.RoundTrip(cfg, Tagged(Itoa(0), Null), true, [LF] + NULL_FRAME);
  }

  // The run

  /** The write stream is open, and the reader stands before `input`. */
  predicate Open(s: State, input: Bytes, frames: seq<Frame>, queued: nat) {
    && s.reader == ReadTop && s.input == input && |s.commands| == queued && !s.done
    && s.streams == [Stream(0, 0, Active, Writes(WriteState(PATH, Temp([]), frames, frames, [], WTop)))]
    && |s.slots| == SLOTS && s.slots[0] == Some(0)
  }

  lemma StreamOpens(k: Params) returns (run: seq<State>)
    ensures Run(k, run) && Open(Last(run), SentBytes(), [], 0)
  {
    run := CommandArrives(k, SentBytes(), map[]);
    run := Extend(k, run, ByWorker(TakeCommand));
    run := Extend(k, run, ByWorker(OpenWrite(PATH)));
  }

  lemma DeadlinePasses(k: Params, run: seq<State>) returns (longer: seq<State>)
    requires Run(k, run) && Open(Last(run), SentBytes(), [], 0)
    ensures Run(k, longer) && |longer| == |run| + 2 && longer[..|run|] == run
    ensures Open(Last(longer), TAIL, [], 1)
  {
    BytesSent();
    HeadIsCut(k.cfg);
    assert SentBytes()[..5] == HEAD && SentBytes()[5..] == TAIL;
    longer := Extend(k, run, ByReader(ReadCut(5, [])));
    longer := Extend(k, longer, ByReader(PushItem));
  }

  lemma LineFeedIsSkipped(k: Params, run: seq<State>) returns (longer: seq<State>)
    requires Run(k, run) && Open(Last(run), TAIL, [], 1)
    ensures Run(k, longer) && |longer| == |run| + 2 && longer[..|run|] == run
    ensures Open(Last(longer), TAIL[1..], [], 2)
  {
    TailIsMisread(k.cfg);
    longer := Extend(k, run, ByReader(ReadNext([])));
    longer := Extend(k, longer, ByReader(PushItem));
  }

  lemma NullIsRouted(cfg: Config, s: State)
    requires |s.slots| == SLOTS && s.slots[0] == Some(0) && s.streams != [] && s.streams[0].body.Writes?
    ensures Route(cfg, s, Tagged(Itoa(0), Null), []) == Routing(0, End)
  {
    AtoiItoa(0);
  }

  lemma DataIsTakenForTheEnd(k: Params, run: seq<State>) returns (longer: seq<State>)
    requires Run(k, run) && Open(Last(run), TAIL[1..], [], 2)
    ensures Run(k, longer) && |longer| == |run| + 2 && longer[..|run|] == run
    ensures Last(longer) == Last(run).(reader := Routing(0, End), input := [LF] + NULL_FRAME)
  {
    TailIsMisread(k.cfg);
    longer := Extend(k, run, ByReader(ReadNext([])));
    NullIsRouted(k.cfg, Last(longer));
    longer := Extend(k, longer, ByReader(Dispatch([])));
  }

  lemma EndIsPushed(k: Params, run: seq<State>, before: State) returns (longer: seq<State>)
    requires Run(k, run) && Open(before, TAIL[1..], [], 2)
    requires Last(run) == before.(reader := Routing(0, End), input := [LF] + NULL_FRAME)
    ensures Run(k, longer) && |longer| == |run| + 1 && longer[..|run|] == run
    ensures Open(Last(longer), [LF] + NULL_FRAME, [End], 2)
  {
    longer := Extend(k, run, ByReader(PushFrame));
    assert [] + [End] == [End];
  }

  lemma EmptyFileIsPublished(k: Params, run: seq<State>) returns (longer: seq<State>)
    requires Run(k, run) && Open(Last(run), [LF] + NULL_FRAME, [End], 2)
    ensures Run(k, longer) && |longer| == |run| + 2 && longer[..|run|] == run
    ensures |Last(longer).streams| == 1 && Last(longer).streams[0].body.Writes?
    ensures Last(longer).streams[0].body.w.tmp == Published([]) && Last(longer).fs == Last(run).fs[PATH := []]
  {
    longer := Extend(k, run, ByHandler(0, OfWrite(EnterSelect)));
    longer := Extend(k, longer, ByHandler(0, OfWrite(TakeFrame(true, []))));
  }

  lemma UploadBegins(k: Params, s: State)
    requires k.dataCap == 0 && k.cfg.maxBlob == CHUNK && Open(s, SentBytes(), [], 0)
    ensures SendingStarts(k, s, TheUpload()) && Sent(TheUpload()) == UploadFrames(CHUNKS)
  {
    OneChunk();
    UploadIsPrintable(k.cfg, CHUNKS, 0);
    UploadIsFrames(CHUNKS, 0);
  }

  lemma OneChunk()
    ensures Concat(CHUNKS) == NULL_FRAME && FitBuffer(CHUNKS)
  {
    assert CHUNKS[..0] == [];
    assert Concat([]) + NULL_FRAME == NULL_FRAME;
  }

  lemma EmptyFileIsWrong(run: seq<State>, p: nat, q: nat)
    requires q < |run| && |run[q].streams| == 1 && run[q].streams[0].body.Writes?
    requires run[q].streams[0].body.w.tmp == Published([])
    ensures !Arrived(run, p, q, 0, Concat(CHUNKS))
  {
    OneChunk();
  }

  lemma HasBeenInterrupted(k: Params, run: seq<State>, p: nat, q: nat)
    requires Run(k, run) && p <= q < |run| && SendingStarts(k, run[p], TheUpload())
    requires Sent(TheUpload()) == UploadFrames(CHUNKS) && !Arrived(run, p, q, 0, Concat(CHUNKS))
    ensures !Uninterrupted(k, run, p, q, TheUpload())
  {
    if Uninterrupted(k, run, p, q, TheUpload()) {
      UploadArrives(k, run, p, q, TheUpload(), CHUNKS);
      assert false;
    }
  }

  /** The upload starts, and its stream ends with an empty file under the target. */
  lemma InterruptedUploadIsWrong(k: Params) returns (run: seq<State>, p: nat, q: nat)
    requires k.dataCap == 0 && k.cfg.maxBlob == CHUNK
    ensures Run(k, run) && p <= q < |run| && SendingStarts(k, run[p], TheUpload())
    ensures !Arrived(run, p, q, 0, Concat(CHUNKS)) && PATH in run[q].fs && run[q].fs[PATH] != Concat(CHUNKS)
    ensures !Uninterrupted(k, run, p, q, TheUpload())
  {
    var open := StreamOpens(k);
    p := |open| - 1;
    UploadBegins(k, open[p]);
    run := DeadlinePasses(k, open);
    run := LineFeedIsSkipped(k, run);
    var before := Last(run);
    run := DataIsTakenForTheEnd(k, run);
    run := EndIsPushed(k, run, before);
    run := EmptyFileIsPublished(k, run);
    q := |run| - 1;
    assert run[p] == Last(open);
    EmptyFileIsWrong(run, p, q);
    OneChunk();
    HasBeenInterrupted(k, run, p, q);
  }
}
