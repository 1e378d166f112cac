/** End to end: what a client uploads to a live write stream is what the stream publishes, whatever else the
    client sends in between. */
module UploadRuns {
  import opened ByteStrings
  import opened Wire
  import WireLaws
  import opened Upload
  import opened SessionModel
  import opened SessionFiles
  import opened SessionRuns
  import opened SessionEndings
  import opened SessionRouting

  /** The frames that the upload's values become. */
  function UploadFrames(chunks: seq<Bytes>): (fs: seq<Frame>)
    ensures |fs| == |chunks| + 1
  {
    DataFrames(chunks) + [End]
  }

  function DataFrames(chunks: seq<Bytes>): seq<Frame> {
    seq(|chunks|, j requires 0 <= j < |chunks| => Data(chunks[j]))
  }

  lemma {:induction false} PayloadsOfChunks(chunks: seq<Bytes>)
    ensures Payloads(DataFrames(chunks)) == Concat(chunks)
  {
    if chunks != [] {
      var front := chunks[..|chunks| - 1];
      assert DataFrames(chunks)[..|chunks| - 1] == DataFrames(front);
      PayloadsOfChunks(front);
    }
  }

  lemma PayloadsOfUpload(chunks: seq<Bytes>)
    ensures Payloads(UploadFrames(chunks)) == Concat(chunks)
  {
    PayloadsOfChunks(chunks);
    PayloadsAppend(DataFrames(chunks), End);
  }

  // The values of an upload

  lemma UploadIsPrintable(cfg: Config, chunks: seq<Bytes>, id: nat)
    requires cfg.maxBlob == CHUNK && FitBuffer(chunks) && id < SLOTS
    ensures WireLaws.AllPrintableAtTop(cfg, UploadValues(chunks, id))
  {
    AtoiItoa(id);
  }

  lemma {:induction false} BlobsAreFrames(chunks: seq<Bytes>, id: nat)
    requires id < SLOTS
    ensures FramesFor(BlobValues(chunks, id), id) == DataFrames(chunks)
  {
    if chunks != [] {
      var front := chunks[..|chunks| - 1];
      assert BlobValues(chunks, id)[..|chunks| - 1] == BlobValues(front, id);
      BlobsAreFrames(front, id);
      AtoiItoa(id);
      assert DataFrames(chunks) == DataFrames(front) + [Data(chunks[|chunks| - 1])];
    }
  }

  /** A client that sends nothing but the upload sends its frames. */
  lemma UploadIsFrames(chunks: seq<Bytes>, id: nat)
    requires id < SLOTS
    ensures FramesFor(UploadValues(chunks, id), id) == UploadFrames(chunks)
  {
    var values := UploadValues(chunks, id);
    assert values[..|chunks|] == BlobValues(chunks, id);
    BlobsAreFrames(chunks, id);
    AtoiItoa(id);
  }

  /** Frames taken up to and including an end frame are exactly the upload. */
  lemma TakenIsUpload(taken: seq<Frame>, routed: seq<Frame>, chunks: seq<Bytes>)
    requires taken <= routed && EndsWithEnd(taken)
    requires routed <= UploadFrames(chunks) || UploadFrames(chunks) <= routed
    ensures taken == UploadFrames(chunks)
  {
    var all := UploadFrames(chunks);
    assert forall j :: 0 <= j < |chunks| ==> !all[j].End?;
    assert all[|chunks|].End?;
    assert forall j :: 0 <= j < |taken| ==> taken[j] == routed[j];
    assert forall j :: 0 <= j < |all| && j < |routed| ==> all[j] == routed[j];
    assert |taken| == |all|;
  }

  lemma PublishedIsUpload(k: Params, s: State, u: Job, chunks: seq<Bytes>)
    requires Inv(s) && JobFits(k, s, u) && InOrder(s, u) && Sent(u) == UploadFrames(chunks)
    ensures var w := s.streams[u.i].body.w; w.tmp.Published? ==> w.tmp.content == Concat(chunks)
  {
    var w := s.streams[u.i].body.w;
    if w.tmp.Published? {
      assert FileInv(s.streams[u.i]);
      assert w.taken <= w.routed;
      TakenIsUpload(w.taken, w.routed, chunks);
      PayloadsOfUpload(chunks);
    }
  }

  /** What becomes of `data`: a stream that has returned, having taken the end frame and reporting no error, has
      put it in place; one that has not taken it and reports nothing was stopped, and has removed its temporary
      file; and nothing else is ever published. */
  ghost predicate Arrived(run: seq<State>, p: nat, q: nat, i: nat, data: Bytes)
    requires q < |run|
  {
    && i < |run[q].streams| && run[q].streams[i].body.Writes?
    && var (life, w) := (run[q].streams[i].life, run[q].streams[i].body.w);
    && (w.tmp.Published? ==> w.tmp.content == data && InPlace(run, p, q, i, w.path, data))
    && (life != Active && SentNothing(run[q], i) ==>
          if End in w.taken then w.tmp == Published(data) && InPlace(run, p, q, i, w.path, data)
          else w.tmp == Removed && exists m: nat :: m < q && Stopped(run, m, i))
  }

  lemma NotPublishedAtStart(k: Params, s: State, u: Job)
    requires Inv(s) && SendingStarts(k, s, u)
    ensures !PublishedAt(s, u.i)
  {
    assert FileInv(s.streams[u.i]);
    assert |s.streams[u.i].body.w.taken| == 0;
  }

  /** Whatever the schedule, and whatever other commands and frames the client sends in between: the upload
      arrives as a whole, in one step and under the stream's target. */
  lemma UploadArrives(k: Params, run: seq<State>, p: nat, q: nat, u: Job, chunks: seq<Bytes>)
    requires Run(k, run) && p <= q < |run| && SendingStarts(k, run[p], u) && Uninterrupted(k, run, p, q, u)
    requires Sent(u) == UploadFrames(chunks)
    ensures Arrived(run, p, q, u.i, Concat(chunks))
  {
    FramesReachTheirStream(k, run, p, q, u);
    PublishedIsUpload(k, run[q], u, chunks);
    InvThroughout(k, run, p);
    NotPublishedAtStart(k, run[p], u);
    if PublishedAt(run[q], u.i) {
      PublishedIsDelivered(k, run, p, q, u.i);
    }
    if run[q].streams[u.i].life != Active {
      ClosingIsReport(run[q], u.i);
      SilenceMeansSuccess(run[q], u.i);
      HandlersCleanUp(k, run, q, u.i);
    }
  }

  /** The client's half joined to the server's: once the bytes that `SendFile` appended to the connection stand
      next in the input, the file it read is what arrives. */
  lemma SentFileArrives(k: Params, run: seq<State>, p: nat, q: nat, data: Bytes, sent: Bytes, chunks: seq<Bytes>,
                        u: Job)
    requires FitBuffer(chunks) && Concat(chunks) == data && sent == PrintAll(UploadValues(chunks, u.id))
    requires u.vs == UploadValues(chunks, u.id) && k.cfg.maxBlob == CHUNK && k.dataCap == 0 && u.id < SLOTS
    requires Run(k, run) && p <= q < |run| && Uninterrupted(k, run, p, q, u)
    requires run[p].reader == ReadTop && run[p].input == sent + u.rest
    requires u.i < |run[p].streams| && run[p].streams[u.i].id == u.id && run[p].streams[u.i].body.Writes?
    requires run[p].streams[u.i].life != Released && RoutedTo(run[p], u.i) == []
    ensures Arrived(run, p, q, u.i, data)
  {
    UploadIsPrintable(k.cfg, chunks, u.id);
    UploadIsFrames(chunks, u.id);
    assert u.vs[0..] == u.vs;
    UploadArrives(k, run, p, q, u, chunks);
  }
}
