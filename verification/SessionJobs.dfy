/** What the callback asks for is what the streams do: a stream works on the files that it was opened for. */
module SessionJobs {
  import opened ByteStrings
  import opened Wire
  import opened SessionModel
  import opened SessionSlots
  import opened SessionBuffers
  import opened SessionFiles
  import opened SessionRuns
  import opened SessionEndings
  import opened SessionSources
  import opened SessionActions

  /** The stream that the p-th step opens. */
  ghost predicate OpensWith(run: seq<State>, acts: seq<Action>, p: nat, q: nat, w: WorkerAct) {
    && p < |acts| && p < q < |run| && acts[p] == ByWorker(w)
  }

  lemma NewStreamStays(k: Params, run: seq<State>, acts: seq<Action>, p: nat, q: nat, w: WorkerAct)
    requires ActRun(k, run, acts) && OpensWith(run, acts, p, q, w) && OpensStream(w)
    ensures Run(k, run) && WorkerEnabled(run[p], w)
    ensures var i := |run[p].streams|;
      && run[p + 1] == WorkerNext(run[p], w) && i < |run[p + 1].streams| && i < |run[q].streams|
      && Evolves(run[p + 1].streams[i], run[q].streams[i])
  {
    ActRunIsRun(k, run, acts);
    assert ActAt(k, run, acts, p);
    OpensOne(run[p], w);
    JobsAreFixed(k, run, p + 1, q, |run[p].streams|);
  }

  lemma OpensOne(s: State, w: WorkerAct)
    requires WorkerEnabled(s, w) && OpensStream(w)
    ensures |WorkerNext(s, w).streams| == |s.streams| + 1
  {
  }

  /** Reading: what the stream delivers under the least free id is what the path held at the call. */
  lemma OpenReadDelivers(k: Params, run: seq<State>, acts: seq<Action>, p: nat, q: nat, path: Path)
    requires k.dataCap == 0 && ActRun(k, run, acts) && OpensWith(run, acts, p, q, OpenRead(path))
    ensures var i := |run[p].streams|;
      && path in run[p].fs && i < |run[q].streams| && run[q].streams[i].id == FreeSlot(run[p].slots)
      && BlobBytes(FramesOf(run[q].out, i)) <= run[p].fs[path]
      && (ClosingValue(run[q], i) == Some(Null) && HeldFrom(run[q].writer, i) == None ==>
            BlobBytes(FramesOf(run[q].out, i)) == run[p].fs[path])
  {
    var i := |run[p].streams|;
    NewStreamStays(k, run, acts, p, q, OpenRead(path));
    OpenedReads(run[p], path);
    ReadStreamsDeliverFiles(k, run, q);
    assert DeliversFile(run[q], i);
  }

  lemma OpenedReads(s: State, path: Path)
    requires WorkerEnabled(s, OpenRead(path))
    ensures var st := WorkerNext(s, OpenRead(path)).streams[|s.streams|];
      st.body.Reads? && st.body.r.file == s.fs[path] && st.id == FreeSlot(s.slots)
  {
  }

  /** Writing: what the stream publishes goes to the path of the call, and to no other. */
  lemma OpenWritePublishes(k: Params, run: seq<State>, acts: seq<Action>, p: nat, q: nat, path: Path)
    requires k.dataCap == 0 && ActRun(k, run, acts) && OpensWith(run, acts, p, q, OpenWrite(path))
    ensures var i := |run[p].streams|;
      && i < |run[q].streams| && run[q].streams[i].id == FreeSlot(run[p].slots) && run[q].streams[i].body.Writes?
      && (PublishedAt(run[q], i) ==>
            InPlace(run, p + 1, q, i, path, TempOf(run[q].streams[i].body).content))
  {
    var i := |run[p].streams|;
    NewStreamStays(k, run, acts, p, q, OpenWrite(path));
    OpenedWrites(run[p], path);
    if PublishedAt(run[q], i) {
      PublishedIsDelivered(k, run, p + 1, q, i);
    }
  }

  lemma OpenedWrites(s: State, path: Path)
    requires WorkerEnabled(s, OpenWrite(path))
    ensures var st := WorkerNext(s, OpenWrite(path)).streams[|s.streams|];
      && st.body.Writes? && st.body.w.path == path && st.id == FreeSlot(s.slots)
      && !PublishedAt(WorkerNext(s, OpenWrite(path)), |s.streams|)
  {
  }

  /** After the p-th state the source held the data, and a step after that set the target to it. */
  ghost predicate HasCopied(run: seq<State>, p: nat, q: nat, i: nat, from: Path, to: Path)
    requires q < |run|
  {
    exists m: nat, j: nat, data: Bytes ::
      p < m <= j < q && Holds(run[m], from, data) && SetsTo(run, j, i, to, data)
  }

  ghost predicate SetsTo(run: seq<State>, j: nat, i: nat, to: Path, data: Bytes) {
    PutInPlace(run, j, i, data) && Target(run[j].streams[i].body) == to
  }

  /** Copying: a stream that reports success has set the second path to what the first one held. */
  lemma OpenCopyCopies(k: Params, run: seq<State>, acts: seq<Action>, p: nat, q: nat, from: Path, to: Path)
    requires k.dataCap == 0 && ActRun(k, run, acts) && OpensWith(run, acts, p, q, OpenCopy(from, to))
    ensures var i := |run[p].streams|;
      && i < |run[q].streams| && run[q].streams[i].id == FreeSlot(run[p].slots)
      && (ClosingValue(run[q], i) == Some(Null) ==> HasCopied(run, p, q, i, from, to))
  {
    var i := |run[p].streams|;
    NewStreamStays(k, run, acts, p, q, OpenCopy(from, to));
    OpenedCopies(run[p], from, to);
    if ClosingValue(run[q], i) == Some(Null) {
      InvThroughout(k, run, q);
      SuccessIsPublished(run[q], i);
      PublishedByStep(k, run, p + 1, q, i);
      var j: nat :| p + 1 <= j < q && PutInPlace(run, j, i, TempOf(run[q].streams[i].body).content);
      CopiedBy(k, run, p, j, q, i, from, to, TempOf(run[q].streams[i].body).content);
    }
  }

  lemma OpenedCopies(s: State, from: Path, to: Path)
    requires WorkerEnabled(s, OpenCopy(from, to))
    ensures var t := WorkerNext(s, OpenCopy(from, to));
      var st := t.streams[|s.streams|];
      && st.body.Copies? && st.body.c.from == from && st.body.c.path == to && st.id == FreeSlot(s.slots)
      && !OpenAt(t, |s.streams|) && !PublishedAt(t, |s.streams|)
  {
  }

  lemma SuccessIsPublished(s: State, i: nat)
    requires BufferInv(s) && FilesInv(s) && i < |s.streams| && s.streams[i].body.Copies?
    requires ClosingValue(s, i) == Some(Null)
    ensures PublishedAt(s, i)
  {
    assert FileInv(s.streams[i]);
    assert StreamInv(s.streams[i], FramesOf(s.out, i), HeldFrom(s.writer, i), Copied(s.writer));
    ClosingIsReport(s, i);
  }

  predicate CopiesFrom(s: State, i: nat, from: Path, to: Path) {
    && i < |s.streams| && s.streams[i].body.Copies?
    && s.streams[i].body.c.from == from && s.streams[i].body.c.path == to
  }

  lemma CopyStays(k: Params, run: seq<State>, p: nat, q: nat, i: nat, from: Path, to: Path)
    requires Run(k, run) && p <= q < |run| && CopiesFrom(run[p], i, from, to)
    ensures CopiesFrom(run[q], i, from, to)
  {
    JobsAreFixed(k, run, p, q, i);
  }

  lemma CopiedBy(k: Params, run: seq<State>, p: nat, j: nat, q: nat, i: nat, from: Path, to: Path, data: Bytes)
    requires k.dataCap == 0 && Run(k, run) && p < j < q < |run|
    requires CopiesFrom(run[p + 1], i, from, to) && !OpenAt(run[p + 1], i) && PutInPlace(run, j, i, data)
    ensures HasCopied(run, p, q, i, from, to)
  {
    CopyStays(k, run, p + 1, j, i, from, to);
    CopyStays(k, run, p + 1, j + 1, i, from, to);
    PutIsPublished(run, j, i, data);
    PublishedWasSource(k, run, j + 1, i);
    var m := SourceWasOpened(k, run, p + 1, j + 1, i);
    CopyIsComplete(run, p, m, j, q, i, from, to, data);
  }

  lemma PublishedWasSource(k: Params, run: seq<State>, q: nat, i: nat)
    requires k.dataCap == 0 && Run(k, run) && q < |run|
    requires i < |run[q].streams| && run[q].streams[i].body.Copies? && PublishedAt(run[q], i)
    ensures OpenAt(run[q], i) && SourceData(run[q].streams[i].body) == TempOf(run[q].streams[i].body).content
  {
    InvThroughout(k, run, q);
    PublishedIsSource(run[q], i);
  }

  lemma SourceWasOpened(k: Params, run: seq<State>, p: nat, q: nat, i: nat) returns (m: nat)
    requires k.dataCap == 0 && Run(k, run) && p <= q < |run| && !OpenAt(run[p], i) && OpenAt(run[q], i)
    ensures var b := run[q].streams[i].body;
      p <= m < q && !b.Writes? && Holds(run[m], SourcePath(b), SourceData(b))
  {
    OpenedBetween(k, run, p, q, i);
    m :| p <= m < q && OpenedOn(run[m], i, run[q].streams[i].body);
  }

  lemma CopyIsComplete(run: seq<State>, p: nat, m: nat, j: nat, q: nat, i: nat, from: Path, to: Path, data: Bytes)
    requires p < m <= j < q < |run| && Holds(run[m], from, data) && PutInPlace(run, j, i, data)
    requires Target(run[j].streams[i].body) == to
    ensures HasCopied(run, p, q, i, from, to)
  {
    assert SetsTo(run, j, i, to, data);
  }

  lemma PutIsPublished(run: seq<State>, j: nat, i: nat, data: Bytes)
    requires PutInPlace(run, j, i, data)
    ensures i < |run[j + 1].streams| && TempOf(run[j + 1].streams[i].body) == Published(data)
  {
    var (s, t) := (run[j], run[j + 1]);
    var (b, fs) := (s.streams[i].body, s.fs);
    assert t.fs[Target(b)] == Publication(b);
    assert t.fs[Target(b)] == data;
  }

  lemma PublishedIsSource(s: State, i: nat)
    requires FilesInv(s) && i < |s.streams| && s.streams[i].body.Copies? && PublishedAt(s, i)
    ensures OpenAt(s, i) && SourceData(s.streams[i].body) == TempOf(s.streams[i].body).content
  {
    assert FileInv(s.streams[i]);
  }
}
