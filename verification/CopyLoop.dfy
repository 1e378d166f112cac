/** The loop of a copy stream, chunk by chunk, as code and as a schedule of the model's copy steps. */
module CopyLoop {
  import opened ByteStrings
  import opened SessionModel
  import opened Disks

  /** How often the loop runs over `n` bytes: full chunks, and one that is short, perhaps empty. */
  function Iterations(n: nat): nat {
    n / CHUNK + 1
  }

  lemma LastIteration(n: nat, count: nat)
    requires count * CHUNK <= n
    ensures count < Iterations(n)
    ensures n - count * CHUNK < CHUNK <==> count + 1 == Iterations(n)
  {
  }

  lemma PrefixGrows(src: Bytes, a: nat, n: nat)
    requires a + n <= |src|
    ensures src[..a] + src[a..a + n] == src[..a + n]
  {
  }

  // The code

  datatype Ending = Finished | Cancelled | Failed

  /** `stopped(j)` says that the j-th look at the channels finds a cancel or the session's end; `fault(j)`
      that the j-th chunk fails after so many bytes. */
  predicate Disturbed(stopped: nat -> bool, fault: nat -> Option<nat>, j: nat) {
    stopped(j) || fault(j).Some?
  }

  ghost predicate Undisturbed(stopped: nat -> bool, fault: nat -> Option<nat>, n: nat) {
    forall j: nat :: j < n ==> !Disturbed(stopped, fault, j)
  }

  method CopyChunks(src: Bytes, stopped: nat -> bool, fault: nat -> Option<nat>)
    returns (tmp: Bytes, ending: Ending, count: nat)
    ensures |tmp| <= |src| && tmp == src[..|tmp|]
    ensures 1 <= count <= Iterations(|src|)
    ensures ending == Finished <==> Undisturbed(stopped, fault, Iterations(|src|))
    ensures ending == Finished ==> tmp == src && count == Iterations(|src|)
    ensures ending != Finished ==> Undisturbed(stopped, fault, count - 1)
    ensures ending == Cancelled ==> stopped(count - 1) && |tmp| == (count - 1) * CHUNK
    ensures ending == Failed ==> !stopped(count - 1) && fault(count - 1).Some?
  {
    tmp, count := [], 0;
    while true
      invariant count * CHUNK == |tmp| <= |src| && tmp == src[..|tmp|]
      invariant Undisturbed(stopped, fault, count)
      decreases |src| - |tmp|
    {
      LastIteration(|src|, count);
      if stopped(count) {
        assert Disturbed(stopped, fault, count);
        return tmp, Cancelled, count + 1;
      }
      var n := ChunkSize(|src| - |tmp|);
      var failure := fault(count);
      if failure.Some? {
        assert Disturbed(stopped, fault, count);
        n := if failure.value <= n then failure.value else n;
        PrefixGrows(src, |tmp|, n);
        return tmp + src[|tmp|..|tmp| + n], Failed, count + 1;
      }
      PrefixGrows(src, |tmp|, n);
      tmp := tmp + src[|tmp|..|tmp| + n];
      count := count + 1;
      if n < CHUNK {
        return tmp, Finished, count;
      }
    }
  }

  /** The handler from the temporary file on: the destination gets the whole source or is left alone, and
      only a cancel removes the temporary file. */
  method CopyTo(disk: Disk, src: Bytes, to: Path, stopped: nat -> bool, fault: nat -> Option<nat>, renameOk: bool)
    returns (ending: Ending)
    requires disk.temp == None
    modifies disk
    ensures ending == Finished <==> renameOk && Undisturbed(stopped, fault, Iterations(|src|))
    ensures disk.files == if ending == Finished then old(disk.files)[to := src] else old(disk.files)
    ensures disk.temp.None? <==> ending != Failed
    ensures disk.temp.Some? ==> |disk.temp.value| <= |src| && disk.temp.value == src[..|disk.temp.value|]
  {
    var tmp, e, count := CopyChunks(src, stopped, fault);
    disk.temp := Some(tmp);
    ending := e;
    match e
    case Cancelled => disk.temp := None;
    case Failed =>
    case Finished =>
      disk.Rename(to, renameOk);
      if !renameOk {
        ending := Failed;
      }
  }

  // The model

  /** The state after some steps, or nothing when one of them is not enabled. */
  function After(c: CopyState, fs: Files, acts: seq<CopyAct>): Option<CopyState> {
    if acts == [] then Some(c)
    else
      match After(c, fs, acts[..|acts| - 1])
      case None => None
      case Some(mid) =>
        var a := acts[|acts| - 1];
        if CopyEnabled(mid, true, fs, a) then Some(CopyStep(mid, fs, a).0) else None
  }

  lemma OneMore(c: CopyState, fs: Files, acts: seq<CopyAct>, mid: CopyState, a: CopyAct)
    requires After(c, fs, acts) == Some(mid) && CopyEnabled(mid, true, fs, a)
    ensures After(c, fs, acts + [a]) == Some(CopyStep(mid, fs, a).0)
  {
    assert (acts + [a])[..|acts|] == acts;
  }

  /** The undisturbed loop, `n` times around. */
  function Loop(n: nat): seq<CopyAct> {
    if n == 0 then [] else Loop(n - 1) + [EnterCopy] + [CopyChunk(true, 0, [])]
  }

  /** Where a copy that has `tmp` in its temporary file stands. */
  function At(start: CopyState, tmp: Bytes, pc: CopyPc): CopyState {
    start.(tmp := Temp(tmp), off := |tmp|, pc := pc)
  }

  predicate Fresh(c: CopyState) {
    c.tmp == Temp([]) && c.off == 0 && c.pc == CTop
  }

  lemma OneChunk(start: CopyState, fs: Files, acts: seq<CopyAct>, a: nat)
    requires a <= |start.src| && After(start, fs, acts) == Some(At(start, start.src[..a], CTop))
    ensures var n := ChunkSize(|start.src| - a);
      After(start, fs, acts + [EnterCopy] + [CopyChunk(true, 0, [])])
        == Some(At(start, start.src[..a + n], if n < CHUNK then CRename else CTop))
  {
    OneMore(start, fs, acts, At(start, start.src[..a], CTop), EnterCopy);
    OneMore(start, fs, acts + [EnterCopy], At(start, start.src[..a], CCopy), CopyChunk(true, 0, []));
    PrefixGrows(start.src, a, ChunkSize(|start.src| - a));
  }

  lemma {:induction false} FullChunks(start: CopyState, fs: Files, n: nat, a: nat)
    requires Fresh(start) && a == n * CHUNK && a <= |start.src|
    ensures After(start, fs, Loop(n)) == Some(At(start, start.src[..a], CTop))
  {
    if n == 0 {
      NoChunk(start, fs);
    } else {
      FullChunks(start, fs, n - 1, a - CHUNK);
      OneFullChunk(start, fs, n, a);
    }
  }

  lemma NoChunk(start: CopyState, fs: Files)
    requires Fresh(start)
    ensures After(start, fs, Loop(0)) == Some(At(start, start.src[..0], CTop))
  {
    assert start.src[..0] == [];
  }

  lemma OneFullChunk(start: CopyState, fs: Files, n: nat, a: nat)
    requires n > 0 && CHUNK <= a <= |start.src|
    requires After(start, fs, Loop(n - 1)) == Some(At(start, start.src[..a - CHUNK], CTop))
    ensures After(start, fs, Loop(n)) == Some(At(start, start.src[..a], CTop))
  {
    var acts := Loop(n - 1);
    var from: nat := a - CHUNK;
    assert ChunkSize(|start.src| - from) == CHUNK && from + CHUNK == a;
    OneChunk(start, fs, acts, from);
    assert Loop(n) == acts + [EnterCopy] + [CopyChunk(true, 0, [])];
  }

  lemma ShortChunk(start: CopyState, fs: Files, n: nat, a: nat)
    requires a <= |start.src| < a + CHUNK && After(start, fs, Loop(n)) == Some(At(start, start.src[..a], CTop))
    ensures After(start, fs, Loop(n + 1)) == Some(At(start, start.src, CRename))
  {
    OneChunk(start, fs, Loop(n), a);
    assert start.src[..a + ChunkSize(|start.src| - a)] == start.src;
    assert Loop(n + 1) == Loop(n) + [EnterCopy] + [CopyChunk(true, 0, [])];
  }

  lemma AllChunks(start: CopyState, fs: Files, full: nat)
    requires Fresh(start)
    requires full * CHUNK <= |start.src| < full * CHUNK + CHUNK
    ensures After(start, fs, Loop(full + 1)) == Some(At(start, start.src, CRename))
  {
    FullChunks(start, fs, full, full * CHUNK);
    ShortChunk(start, fs, full, full * CHUNK);
  }

  /** Left alone, a copy stream of the model has the whole source, ready to be renamed, after exactly as many
      chunks as the code's loop makes iterations. */
  lemma UndisturbedCopyCompletes(start: CopyState, fs: Files)
    requires Fresh(start)
    ensures After(start, fs, Loop(Iterations(|start.src|))) == Some(At(start, start.src, CRename))
  {
    AllChunks(start, fs, |start.src| / CHUNK);
  }
}
