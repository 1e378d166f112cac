/** Files and one temporary file, as a program sees them that writes the one and renames it. */
module Disks {
  import opened ByteStrings

  class Disk {
    var files: map<Bytes, Bytes>
    var temp: Option<Bytes>

    constructor (files: map<Bytes, Bytes>)
      ensures this.files == files && temp == None
    {
      this.files := files;
      temp := None;
    }

    method Rename(to: Bytes, ok: bool)
      requires temp.Some?
      modifies this
      ensures ok ==> files == old(files)[to := old(temp).value] && temp == None
      ensures !ok ==> files == old(files) && temp == old(temp)
    {
      if ok {
        files := files[to := temp.value];
        temp := None;
      }
    }
  }
}
