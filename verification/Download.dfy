/** The client's download loop, and that what it puts into place is the file the stream was opened on. */
module Download {
  import opened ByteStrings
  import opened Wire
  import WireReader
  import opened Disks

  /** What is collected from the tagged blobs up to the closing null. Anything else ends the client. */
  function Fetch(cfg: Config, inp: Bytes, tag: Bytes, sofar: Bytes): Option<Bytes>
    decreases |inp|
  {
    match Read(cfg, inp)
    case Ok(Tagged(t, Null), _) => if t == tag then Some(sofar) else None
    case Ok(Tagged(t, Blob(data)), rest) => if t == tag then Fetch(cfg, rest, tag, sofar + data) else None
    case _ => None
  }

  /** Writes the blobs to a temporary file and renames it; every failure leaves that file behind. The j-th write
      fails if `writeFails(j)`. */
  method DownloadFile(reader: WireReader.Reader, tag: Bytes, disk: Disk, to: Bytes,
                      writeFails: nat -> bool, renameOk: bool)
    returns (ok: bool)
    modifies reader, disk
    ensures var got := Fetch(reader.cfg, old(reader.r), tag, []);
      && (ok ==> got.Some? && renameOk && disk.files == old(disk.files)[to := got.value])
      && (!ok ==> disk.files == old(disk.files) && disk.temp.Some?)
      && (got.Some? && renameOk && (forall j: nat :: !writeFails(j)) ==> ok)
  {
    ghost var got := Fetch(reader.cfg, reader.r, tag, []);
    disk.temp := Some([]);
    var j := 0;
    while true
      invariant disk.temp.Some? && got == Fetch(reader.cfg, reader.r, tag, disk.temp.value)
      invariant disk.files == old(disk.files)
      decreases |reader.r|
    {
      var value := reader.ReadOne(true);
      match value
      case Done(Tagged(t, inner)) =>
        if t != tag {
          return false;
        }
        match inner {
          case Null =>
            break;
          case Blob(data) =>
            if writeFails(j) {
              return false;
            }
            disk.temp := Some(disk.temp.value + data);
            j := j + 1;
          case _ =>
            return false;
        }
      case _ =>
        return false;
    }
    disk.Rename(to, renameOk);
    ok := renameOk;
  }
}
