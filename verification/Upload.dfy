/** The client's upload loop, and what becomes of its bytes in a session. */
module Upload {
  import opened ByteStrings
  import opened Wire
  import WireReader

  const BUFFER := 32 * 1024

  /** A file opened for reading. A read returns any non-empty part of what is left that fits the buffer. */
  class File {
    const data: Bytes
    var pos: nat

    constructor (data: Bytes)
      ensures this.data == data && pos == 0
    {
      this.data := data;
      pos := 0;
    }

    method Read(size: nat) returns (chunk: Bytes)
      requires pos <= |data| && size > 0
      modifies this
      ensures old(pos) <= pos <= |data| && chunk == data[old(pos)..pos] && |chunk| <= size
      ensures chunk == [] <==> old(pos) == |data|
    {
      var left := |data| - pos;
      if left == 0 {
        return [];
      }
      var n :| 1 <= n <= left && n <= size;
      chunk := data[pos..pos + n];
      pos := pos + n;
    }
  }

  predicate FitBuffer(chunks: seq<Bytes>) {
    forall j :: 0 <= j < |chunks| ==> 1 <= |chunks[j]| <= BUFFER
  }

  function Concat(chunks: seq<Bytes>): Bytes {
    if chunks == [] then [] else Concat(chunks[..|chunks| - 1]) + chunks[|chunks| - 1]
  }

  /** The values a client sends for a stream: the chunks as blobs, then null, all tagged with its id. */
  function UploadValues(chunks: seq<Bytes>, id: int): (vs: seq<Value>)
    ensures |vs| == |chunks| + 1
  {
    BlobValues(chunks, id) + [Tagged(Itoa(id), Null)]
  }

  function BlobValues(chunks: seq<Bytes>, id: int): seq<Value> {
    seq(|chunks|, j requires 0 <= j < |chunks| => Tagged(Itoa(id), Blob(chunks[j])))
  }

  lemma {:induction false} PrintedOneByOne(vs: seq<Value>, v: Value)
    ensures PrintAll(vs + [v]) == PrintAll(vs) + Print(v)
  {
    if vs == [] {
      assert [v][1..] == [];
    } else {
      assert (vs + [v])[1..] == vs[1..] + [v];
      PrintedOneByOne(vs[1..], v);
    }
  }

  /** The bytes of the blobs alone. */
  function PrintedBlobs(chunks: seq<Bytes>, id: int): Bytes {
    PrintAll(BlobValues(chunks, id))
  }

  lemma OneMoreChunk(chunks: seq<Bytes>, blob: Bytes)
    ensures Concat(chunks + [blob]) == Concat(chunks) + blob
  {
    assert (chunks + [blob])[..|chunks|] == chunks;
  }

  /** What a write that fails has put on the connection: part of the value. */
  ghost predicate Torn(before: Bytes, after: Bytes, v: Value) {
    before <= after && after[|before|..] <= Print(v)
  }

  /** Writes a value, or fails after some of its bytes. */
  method Send(v: Value, conn: WireReader.Buffer, failure: Option<nat>) returns (ok: bool)
    modifies conn
    ensures ok == failure.None?
    ensures if ok then conn.data == old(conn.data) + Print(v) else Torn(old(conn.data), conn.data, v)
  {
    var out := new WireReader.Buffer();
    out.WriteValue(v);
    match failure
    case None =>
      conn.Append(out.data);
      ok := true;
    case Some(k) =>
      conn.Append(out.data[..if k < |out.data| then k else |out.data|]);
      ok := false;
  }

  method SendBlob(blob: Bytes, id: int, conn: WireReader.Buffer, failure: Option<nat>,
                  ghost before: Bytes, ghost chunks: seq<Bytes>)
    returns (ok: bool)
    requires conn.data == before + PrintedBlobs(chunks, id)
    modifies conn
    ensures ok == failure.None?
    ensures ok ==> conn.data == before + PrintedBlobs(chunks + [blob], id)
    ensures !ok ==> Torn(before + PrintedBlobs(chunks, id), conn.data, Tagged(Itoa(id), Blob(blob)))
  {
    var v := Tagged(Itoa(id), Blob(blob));
    PrintedOneByOne(BlobValues(chunks, id), v);
    assert BlobValues(chunks + [blob], id) == BlobValues(chunks, id) + [v];
    ok := Send(v, conn, failure);
  }

  method SendNull(id: int, conn: WireReader.Buffer, failure: Option<nat>, ghost before: Bytes, ghost chunks: seq<Bytes>)
    returns (ok: bool)
    requires conn.data == before + PrintedBlobs(chunks, id)
    modifies conn
    ensures ok == failure.None?
    ensures ok ==> conn.data == before + PrintAll(UploadValues(chunks, id))
    ensures !ok ==> Torn(before + PrintedBlobs(chunks, id), conn.data, Tagged(Itoa(id), Null))
  {
    PrintedOneByOne(BlobValues(chunks, id), Tagged(Itoa(id), Null));
    ok := Send(Tagged(Itoa(id), Null), conn, failure);
  }

  /** What is on the connection when the client gives up after `chunks`: their blobs, and perhaps part of the
      next value. The closing null comes only after the whole file. */
  ghost predicate GivenUp(before: Bytes, after: Bytes, chunks: seq<Bytes>, id: int, data: Bytes) {
    var sent := before + PrintedBlobs(chunks, id);
    || after == sent
    || (exists blob: Bytes :: Concat(chunks) + blob <= data && Torn(sent, after, Tagged(Itoa(id), Blob(blob))))
    || (Concat(chunks) == data && Torn(sent, after, Tagged(Itoa(id), Null)))
  }

  lemma GivenUpInBlob(before: Bytes, after: Bytes, chunks: seq<Bytes>, id: int, data: Bytes, blob: Bytes)
    requires Concat(chunks) + blob <= data
    requires Torn(before + PrintedBlobs(chunks, id), after, Tagged(Itoa(id), Blob(blob)))
    ensures GivenUp(before, after, chunks, id, data)
  {
  }

  /** Sends the whole file in chunks of at most 32 KiB, however short the reads are, and then the closing
      null. An empty file is just the null. The j-th read fails if `readFails(j)`, the j-th write after as many
      bytes as `writeFails(j)` says; the first failure ends the sending. */
  method SendFile(f: File, id: int, conn: WireReader.Buffer, readFails: nat -> bool, writeFails: nat -> Option<nat>)
    returns (ok: bool, ghost chunks: seq<Bytes>)
    requires f.pos == 0
    modifies f, conn
    ensures FitBuffer(chunks) && Concat(chunks) <= f.data
    ensures ok ==> Concat(chunks) == f.data && conn.data == old(conn.data) + PrintAll(UploadValues(chunks, id))
    ensures !ok ==> GivenUp(old(conn.data), conn.data, chunks, id, f.data)
    ensures (forall j: nat :: !readFails(j) && writeFails(j) == None) ==> ok
  {
    chunks := [];
    ghost var before := conn.data;
    var j := 0;
    while true
      invariant j == |chunks| && f.pos <= |f.data| && Concat(chunks) == f.data[..f.pos] && FitBuffer(chunks)
      invariant conn.data == before + PrintedBlobs(chunks, id)
      decreases |f.data| - f.pos
    {
      if readFails(j) {
        return false, chunks;
      }
      var blob := f.Read(BUFFER);
      if blob == [] {
        break;
      }
      OneMoreChunk(chunks, blob);
      var sent := SendBlob(blob, id, conn, writeFails(j), before, chunks);
      if !sent {
        GivenUpInBlob(before, conn.data, chunks, id, f.data, blob);
        return false, chunks;
      }
      chunks := chunks + [blob];
      j := j + 1;
    }
    ok := SendNull(id, conn, writeFails(j), before, chunks);
  }
}
