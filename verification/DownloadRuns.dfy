/** End to end: what a client downloads from a read stream is the file the stream was opened on. */
module DownloadRuns {
  import opened ByteStrings
  import opened Wire
  import WireLaws
  import opened Download
  import opened SessionModel
  import opened SessionFootprints
  import opened SessionSlots
  import opened SessionBuffers
  import SessionTags
  import opened SessionRuns
  import opened SessionSources
  import opened SessionWire

  // On the connection as values

  function Collected(vs: seq<Value>, tag: Bytes, sofar: Bytes): Option<Bytes> {
    if vs == [] || !vs[0].Tagged? || vs[0].tag != tag then None
    else
      match vs[0].inner
      case Null => Some(sofar)
      case Blob(data) => Collected(vs[1..], tag, sofar + data)
      case _ => None
  }

  lemma {:induction false} FetchIsCollected(cfg: Config, vs: seq<Value>, tag: Bytes, sofar: Bytes)
    requires WireLaws.AllPrintableAtTop(cfg, vs)
    ensures Fetch(cfg, PrintAll(vs), tag, sofar) == Collected(vs, tag, sofar)
    decreases |vs|
  {
    if vs != [] {
      WireLaws.RoundTrip(cfg, vs[0], true, PrintAll(vs[1..]));
      if vs[0].Tagged? && vs[0].inner.Blob? {
        FetchIsCollected(cfg, vs[1..], tag, sofar + vs[0].inner.data);
      }
    }
  }

  // Streams that have ended earlier are silent

  predicate DoneAt(s: State, i: nat) {
    i < |s.streams| && DoneClosed(s.streams[i])
  }

  /** Of streams that were done in `s`, at most the message the writer held then is still written. */
  ghost predicate OnlyLiveSpeak(s: State, t: State) {
    && |s.out| <= |t.out|
    && (forall x :: |s.out| < x < |t.out| && t.out[x].StreamFrame? ==> !DoneAt(s, t.out[x].i))
    && (|s.out| < |t.out| && Held(t.writer).Some? && Held(t.writer).value.FromStream? ==>
         !DoneAt(s, Held(t.writer).value.i))
  }

  lemma StepKeepsSilence(k: Params, s: State, t: State, u: State)
    requires k.dataCap == 0 && BufferInv(t) && AllEvolve(s, t) && OnlyLiveSpeak(s, t) && Step(k, t, u)
    ensures OnlyLiveSpeak(s, u)
  {
    var a: Action :| Enabled(k, t, a) && u == Next(k, t, a);
    if a.ByWriter? {
      WriterKeepsSilence(k, s, t, a.o);
    } else {
      SessionTags.OthersKeepOutput(k, t, a);
    }
  }

  lemma WriterKeepsSilence(k: Params, s: State, t: State, o: WriterAct)
    requires BufferInv(t) && AllEvolve(s, t) && OnlyLiveSpeak(s, t) && WriterEnabled(k, t, o)
    ensures OnlyLiveSpeak(s, WriterNext(k, t, o))
  {
    match o
    case Emit => EmitKeepsSilence(k, s, t);
    case TakeData(i) => TakeKeepsSilence(k, s, t, i);
    case CopyByte => WriterFootprint(k, t, o);
    case _ =>
      WriterFootprint(k, t, o);
      WaitingHoldsTheSame(k, t, o);
  }

  lemma EmitKeepsSilence(k: Params, s: State, t: State)
    requires OnlyLiveSpeak(s, t) && WriterEnabled(k, t, Emit)
    ensures OnlyLiveSpeak(s, WriterNext(k, t, Emit))
  {
    assert WriterNext(k, t, Emit).out == t.out + [Written(t.writer.msg, t.writer.copied)];
  }

  lemma TakeKeepsSilence(k: Params, s: State, t: State, i: nat)
    requires AllEvolve(s, t) && OnlyLiveSpeak(s, t) && WriterEnabled(k, t, TakeData(i))
    ensures OnlyLiveSpeak(s, WriterNext(k, t, TakeData(i)))
  {
    assert t.streams[i].life == Active;
    assert DoneAt(s, i) ==> Evolves(s.streams[i], t.streams[i]);
  }

  lemma {:induction false} SilenceAlong(run: seq<State>, p: nat, q: nat)
    requires p <= q < |run| && OnlyLiveSpeak(run[p], run[p])
    requires forall j: nat :: p <= j < q && OnlyLiveSpeak(run[p], run[j]) ==> OnlyLiveSpeak(run[p], run[j + 1])
    ensures OnlyLiveSpeak(run[p], run[q])
    decreases q - p
  {
    if p < q {
      SilenceAlong(run, p, q - 1);
      assert OnlyLiveSpeak(run[p], run[(q - 1) + 1]);
    }
  }

  lemma EarlierStreamsAreSilent(k: Params, run: seq<State>, p: nat, q: nat)
    requires k.dataCap == 0 && Run(k, run) && p <= q < |run|
    ensures OnlyLiveSpeak(run[p], run[q])
  {
    forall j: nat | p <= j < q && OnlyLiveSpeak(run[p], run[j])
      ensures OnlyLiveSpeak(run[p], run[j + 1])
    {
      SilenceGoesOn(k, run, p, j);
    }
    SilenceAlong(run, p, q);
  }

  lemma SilenceGoesOn(k: Params, run: seq<State>, p: nat, q: nat)
    requires k.dataCap == 0 && Run(k, run) && p <= q && q + 1 < |run| && OnlyLiveSpeak(run[p], run[q])
    ensures OnlyLiveSpeak(run[p], run[q + 1])
  {
    InvThroughout(k, run, q);
    AllEvolveAlong(k, run, p, q);
    StepOfRun(k, run, q);
    StepKeepsSilence(k, run[p], run[q], run[q + 1]);
  }

  lemma AllEvolveAlong(k: Params, run: seq<State>, p: nat, q: nat)
    requires Run(k, run) && p <= q < |run|
    ensures AllEvolve(run[p], run[q])
  {
    var n := |run[p].streams|;
    if n > 0 {
      JobsAreFixed(k, run, p, q, n - 1);
    }
    forall i | 0 <= i < n
      ensures Evolves(run[p].streams[i], run[q].streams[i])
    {
      JobsAreFixed(k, run, p, q, i);
    }
  }

  // The frames that are collected

  /** From `c` on, everything that could be collected under the id is the stream's own. */
  ghost predicate OwnFrames(s: State, i: nat, c: nat)
    requires i < |s.streams|
  {
    forall x :: c <= x < |s.out| ==>
      match s.out[x]
      case Response(v) => v.Tagged? ==> !v.inner.Blob? && v.inner != Null
      case StreamFrame(y, _) => y < |s.streams| && (s.streams[y].id == s.streams[i].id ==> y == i)
  }

  lemma {:induction false} CollectedIsDelivered(s: State, i: nat, c: nat, sofar: Bytes) returns (m: nat)
    requires i < |s.streams| && c <= |s.out| && OwnFrames(s, i, c)
    requires (forall y :: 0 <= y < |s.streams| ==> s.streams[y].id < SLOTS)
    requires sofar == BlobBytes(FramesOf(s.out[..c], i))
    requires Collected(WireValues(s)[c..], Itoa(s.streams[i].id), sofar).Some?
    ensures c < m <= |s.out|
    ensures var frames := FramesOf(s.out[..m], i);
      && frames != [] && frames[|frames| - 1] == Null
      && Collected(WireValues(s)[c..], Itoa(s.streams[i].id), sofar) == Some(BlobBytes(frames))
    decreases |s.out| - c
  {
    NextIsOwn(s, i, c);
    OneMoreFrame(FramesOf(s.out[..c], i), s.out[c].v);
    if s.out[c].v == Null {
      m := c + 1;
    } else {
      m := CollectedIsDelivered(s, i, c + 1, sofar + s.out[c].v.data);
    }
  }

  lemma OneMoreFrame(frames: seq<Value>, v: Value)
    ensures BlobBytes(frames + [v]) == BlobBytes(frames) + (if v.Blob? then v.data else [])
    ensures !v.Blob? ==> BlobBytes(frames + [v]) == BlobBytes(frames)
  {
    assert (frames + [v])[..|frames|] == frames;
  }

  /** The next value that is collected is the next frame of the stream. */
  lemma NextIsOwn(s: State, i: nat, c: nat)
    requires i < |s.streams| && c < |s.out| && OwnFrames(s, i, c)
    requires (forall y :: 0 <= y < |s.streams| ==> s.streams[y].id < SLOTS)
    requires var v := WireValues(s)[c..][0];
      v.Tagged? && v.tag == Itoa(s.streams[i].id) && (v.inner == Null || v.inner.Blob?)
    ensures FramesOf(s.out[..c + 1], i) == FramesOf(s.out[..c], i) + [s.out[c].v]
    ensures WireValues(s)[c..][0].inner == s.out[c].v && WireValues(s)[c..][1..] == WireValues(s)[c + 1..]
  {
    OwnFrame(s, i, c);
    assert s.out[..c + 1] == s.out[..c] + [s.out[c]];
    FramesAppend(s.out[..c], s.out[c], i);
  }

  lemma OwnFrame(s: State, i: nat, c: nat)
    requires i < |s.streams| && c < |s.out| && OwnFrames(s, i, c)
    requires (forall y :: 0 <= y < |s.streams| ==> s.streams[y].id < SLOTS)
    requires var v := OnWire(s.streams, s.out[c]);
      v.Tagged? && v.tag == Itoa(s.streams[i].id) && (v.inner == Null || v.inner.Blob?)
    ensures s.out[c].StreamFrame? && s.out[c].i == i && OnWire(s.streams, s.out[c]).inner == s.out[c].v
  {
    AtoiItoa(s.streams[i].id);
    if s.out[c].StreamFrame? {
      AtoiItoa(s.streams[s.out[c].i].id);
    }
  }

  lemma {:induction false} FramesOfPrefix(out: seq<Emission>, m: nat, i: nat)
    requires m <= |out|
    ensures FramesOf(out[..m], i) <= FramesOf(out, i)
  {
    if m == |out| {
      assert out[..m] == out;
    } else {
      FramesOfPrefix(out[..|out| - 1], m, i);
      assert out[..|out| - 1][..m] == out[..m];
    }
  }

  /** A null closes a stream's frames, so what was collected up to it is everything. */
  lemma ClosedIsWhole(s: State, i: nat, m: nat)
    requires i < |s.streams| && s.streams[i].body.Reads? && DeliversFile(s, i) && m <= |s.out|
    requires var frames := FramesOf(s.out[..m], i); frames != [] && frames[|frames| - 1] == Null
    ensures BlobBytes(FramesOf(s.out[..m], i)) == s.streams[i].body.r.file
  {
    FramesOfPrefix(s.out, m, i);
    var (few, all) := (FramesOf(s.out[..m], i), FramesOf(s.out, i));
    assert all[|few| - 1] == Null;
    assert few == all;
  }

  // The theorem

  /** Reading starts behind the first message written after the stream was open; the stream has not spoken
      before, its id has not been given away again, and no response looks like a stream frame with data. */
  ghost predicate DownloadStarts(run: seq<State>, p: nat, q: nat, i: nat, c: nat)
    requires p <= q < |run|
  {
    var (s, t) := (run[p], run[q]);
    && i < |s.streams| && i < |t.streams| && s.streams[i].body.Reads? && |s.out| < c <= |t.out|
    && FramesOf(t.out[..c], i) == []
    && (forall y :: i < y < |t.streams| ==> t.streams[y].id != t.streams[i].id)
    && (forall e :: e in t.out && e.Response? && e.v.Tagged? ==> !e.v.inner.Blob? && e.v.inner != Null)
  }

  /** Whatever else is going on in the session: if the client gets to the end of its loop, it has the file, as it
      was when the stream was opened on it. */
  lemma DownloadIsTheFile(k: Params, client: Config, run: seq<State>, p: nat, q: nat, i: nat, c: nat)
    requires k.dataCap == 0 && Run(k, run) && p <= q < |run| && client.maxBlob >= CHUNK
    requires DownloadStarts(run, p, q, i, c) && PrintableTexts(client, run[q].out[c..])
    ensures var got := Fetch(client, PrintAll(WireValues(run[q])[c..]), Itoa(run[p].streams[i].id), []);
      && (got.Some? ==> got.value == run[p].streams[i].body.r.file)
      && exists j: nat :: j < p && OpenedOn(run[j], i, run[p].streams[i].body)
  {
    var s := run[q];
    SourcesAreFiles(k, run, p, i);
    InvThroughout(k, run, q);
    JobsAreFixed(k, run, p, q, i);
    FramesAreOwn(k, run, p, q, i, c);
    ReadStreamDelivers(s, i);
    var (values, tag) := (WireValues(s)[c..], Itoa(s.streams[i].id));
    RestIsPrintable(client, s, c);
    FetchIsCollected(client, values, tag, []);
    if Collected(values, tag, []).Some? {
      var m := CollectedIsDelivered(s, i, c, []);
      ClosedIsWhole(s, i, m);
    }
  }

  lemma RestIsPrintable(client: Config, s: State, c: nat)
    requires TableInv(s) && BufferInv(s) && client.maxBlob >= CHUNK && c <= |s.out|
    requires PrintableTexts(client, s.out[c..])
    ensures WireLaws.AllPrintableAtTop(client, WireValues(s)[c..])
  {
    forall j | 0 <= j < |s.out| - c
      ensures Printable(client, WireValues(s)[c..][j], true)
    {
      assert s.out[c..][j] == s.out[c + j];
      EmissionIsPrintable(client, s, c + j);
    }
  }

  /** Every earlier stream with this id was done when this one was opened. */
  lemma FramesAreOwn(k: Params, run: seq<State>, p: nat, q: nat, i: nat, c: nat)
    requires k.dataCap == 0 && Run(k, run) && p <= q < |run| && DownloadStarts(run, p, q, i, c)
    ensures OwnFrames(run[q], i, c)
  {
    var (s, t) := (run[p], run[q]);
    InvThroughout(k, run, p);
    InvThroughout(k, run, q);
    EarlierStreamsAreSilent(k, run, p, q);
    AllEvolveAlong(k, run, p, q);
    forall x | c <= x < |t.out|
      ensures match t.out[x]
        case Response(v) => v.Tagged? ==> !v.inner.Blob? && v.inner != Null
        case StreamFrame(y, _) => y < |t.streams| && (t.streams[y].id == t.streams[i].id ==> y == i)
    {
      assert t.out[x] in t.out;
      if t.out[x].StreamFrame? {
        EarlierIsDone(s, t, i, t.out[x].i);
      }
    }
  }

  lemma EarlierIsDone(s: State, t: State, i: nat, y: nat)
    requires TableInv(s) && AllEvolve(s, t) && i < |s.streams| && y < |t.streams|
    ensures y < i && t.streams[y].id == t.streams[i].id ==> DoneAt(s, y)
  {
  }
}
