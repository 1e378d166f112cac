/** Why `dataOut` has to be unbuffered: with room for a single message the two buffers of a read stream are
    not enough, and a run exists that sends a client bytes that are not in the file at that place. */
module SessionBuffered {
  import opened ByteStrings
  import opened Wire
  import opened SessionModel
  import opened SessionStart
  import opened SessionBuffers
  import opened SessionRuns

  ghost predicate SafeChannel(k: Params) {
    forall run: seq<State>, q: nat :: Run(k, run) && q < |run| ==> DeliversFiles(run[q])
  }

  const FILE: Bytes := [1, 2, 3]
  /** One read stream is open, and nothing else is going on. */
  predicate Quiet(s: State, r: ReadState) {
    && s.streams == [Stream(0, 0, Active, Reads(r))]
    && !s.done && s.cmdOut == [] && !s.cmdOutClosed && s.out == []
  }

  lemma StreamOpens(k: Params) returns (run: seq<State>)
    ensures Run(k, run) && Quiet(Last(run), NewReadBody(PATH, FILE).r)
    ensures Last(run).writer == WriteTop && Last(run).dataOut == []
  {
    run := CommandArrives(k, [], map[PATH := FILE]);
    run := Extend(k, run, ByWorker(TakeCommand));
    run := Extend(k, run, ByWorker(OpenRead(PATH)));
  }

  /** The handler reads one byte into its other buffer. */
  function WithByte(r: ReadState): ReadState
    requires BuffersFit(r) && r.off < |r.file|
  {
    var c := (r.cur + 1) % 2;
    r.(cur := c, bufs := r.bufs[c := r.bufs[c][0 := r.file[r.off]]],
       pc := RSending(Chunk(c, r.off, 1)), off := r.off + 1)
  }

  lemma ReadsByte(k: Params, run: seq<State>, r: ReadState) returns (longer: seq<State>)
    requires Run(k, run) && Quiet(Last(run), r) && BuffersFit(r) && r.pc == RTop && r.off < |r.file|
    ensures Run(k, longer)
    ensures Last(longer) == Last(run).(streams := [Stream(0, 0, Active, Reads(WithByte(r)))])
  {
    longer := FillsByte(k, run, r);
    longer := Extend(k, longer, ByHandler(0, OfRead(EndRead)));
  }

  lemma FillsByte(k: Params, run: seq<State>, r: ReadState) returns (longer: seq<State>)
    requires Run(k, run) && Quiet(Last(run), r) && BuffersFit(r) && r.pc == RTop && r.off < |r.file|
    ensures Run(k, longer)
    ensures var filled := WithByte(r).(pc := Filling(1, 1), off := r.off);
      Last(longer) == Last(run).(streams := [Stream(0, 0, Active, Reads(filled))])
  {
    longer := Extend(k, run, ByHandler(0, OfRead(BeginRead(1))));
    longer := Extend(k, longer, ByHandler(0, OfRead(FillByte)));
  }

  lemma Queues(k: Params, run: seq<State>, r: ReadState) returns (longer: seq<State>)
    requires k.dataCap > 0 && Run(k, run) && Quiet(Last(run), r) && Last(run).dataOut == []
    requires r.pc.RSending? && r.pc.p.Chunk?
    ensures Run(k, longer)
    ensures Last(longer) == Last(run).(streams := [Stream(0, 0, Active, Reads(r.(pc := RTop)))],
                                       dataOut := [FromStream(0, r.pc.p)])
  {
    longer := Extend(k, run, Queue(0));
  }

  lemma WriterTakes(k: Params, run: seq<State>, r: ReadState) returns (longer: seq<State>)
    requires Run(k, run) && Quiet(Last(run), r) && Last(run).writer == WriteTop && |Last(run).dataOut| == 1
    ensures Run(k, longer)
    ensures Last(longer) == Last(run).(writer := Writing(Last(run).dataOut[0], []), dataOut := [])
  {
    longer := Extend(k, run, ByWriter(WriterLook));
    longer := Extend(k, longer, ByWriter(WriterWait));
    longer := Extend(k, longer, ByWriter(TakeQueued));
  }

  /** While the writer still holds the first chunk, the third byte lands in its buffer. */
  lemma HeldBufferIsRefilled(k: Params) returns (run: seq<State>, r: ReadState)
    requires k.dataCap > 0
    ensures Run(k, run) && Quiet(Last(run), r)
    ensures Last(run).writer == Writing(FromStream(0, Chunk(1, 0, 1)), [])
    ensures BuffersFit(r) && r.file == FILE && r.bufs[1][0] == 3
  {
    run := StreamOpens(k);
    r := NewReadBody(PATH, FILE).r;
    run := ReadsByte(k, run, r);
    run := Queues(k, run, WithByte(r));
    r := WithByte(r).(pc := RTop);
    run := WriterTakes(k, run, r);
    run := ReadsByte(k, run, r);
    run := Queues(k, run, WithByte(r));
    r := WithByte(r).(pc := RTop);
    run := ReadsByte(k, run, r);
    r := WithByte(r);
  }

  lemma CopiesWrongByte(k: Params) returns (run: seq<State>, r: ReadState)
    requires k.dataCap > 0
    ensures Run(k, run) && Quiet(Last(run), r) && r.file == FILE
    ensures Last(run).writer == Writing(FromStream(0, Chunk(1, 0, 1)), [3])
  {
    run, r := HeldBufferIsRefilled(k);
    run := Extend(k, run, ByWriter(CopyByte));
  }

  lemma WrongBytesGoOut(k: Params) returns (run: seq<State>)
    requires k.dataCap > 0
    ensures Run(k, run) && !DeliversFiles(Last(run))
  {
    var r;
    run, r := CopiesWrongByte(k);
    var before := Last(run);
    run := Extend(k, run, ByWriter(Emit));
    assert Last(run) == before.(writer := WriteTop, out := before.out + [StreamFrame(0, Blob([3]))]);
    WrongBytesShow(Last(run), r);
  }

  lemma WrongBytesShow(s: State, r: ReadState)
    requires s.streams == [Stream(0, 0, Active, Reads(r))] && r.file == FILE
    requires s.out == [StreamFrame(0, Blob([3]))]
    ensures !DeliversFiles(s)
  {
    FramesAppend([], s.out[0], 0);
    var frames := FramesOf(s.out, 0);
    assert [] + [s.out[0]] == s.out && frames == [Blob([3])];
    assert frames[..0] == [] && BlobBytes(frames) == [3];
    assert BlobBytes(frames)[0] != FILE[0];
    assert !DeliversFile(s, 0);
  }

  /** The comment beside the channel's creation, as a theorem. */
  lemma UnbufferedIsNeeded(k: Params)
    ensures SafeChannel(k) <==> k.dataCap == 0
  {
    if k.dataCap == 0 {
      forall run: seq<State>, q: nat | Run(k, run) && q < |run|
        ensures DeliversFiles(run[q])
      {
        ReadStreamsDeliverFiles(k, run, q);
      }
    } else {
      var run := WrongBytesGoOut(k);
      var q: nat := |run| - 1;
      assert Run(k, run) && q < |run| && !DeliversFiles(run[q]);
    }
  }
}
