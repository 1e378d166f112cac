/** The streaming reader, the printers and the table type in the form in which they run, each proved
    against the functions of `Wire`. */
module WireReader {
  import opened ByteStrings
  import opened Wire

  datatype Error = ErrFormat | ErrIO | NegativeSize

  datatype Outcome<+T> = Done(value: T) | Failed(err: Error)

  /** `out` is what the specification `r` says, and the unread input `unread` is what it leaves. */
  ghost predicate Meets<T>(out: Outcome<T>, unread: Bytes, r: Result<T>) {
    match r
    case Ok(v, rest) => out == Done(v) && unread == rest
    case Format(rest) => out == Failed(ErrFormat) && unread == rest
    case IO => out == Failed(ErrIO)
    case Panic => out == Failed(NegativeSize)
  }

  lemma PrependConcat(vs: seq<Value>, ws: seq<Value>, r: Result<seq<Value>>)
    ensures Prepend([], r) == r
    ensures Prepend(vs, Prepend(ws, r)) == Prepend(vs + ws, r)
  {
    if r.Ok? {
      assert vs + (ws + r.value) == vs + ws + r.value;
      assert [] + r.value == r.value;
    }
  }

  /** The number of cells in `rows` rows, row by row. */
  ghost function Area(rows: nat, cols: nat): nat {
    if rows == 0 then 0 else cols + Area(rows - 1, cols)
  }

  lemma AreaIsProduct(rows: nat, cols: nat)
    ensures Area(rows, cols) == rows * cols
  {
  }

  class TableBuilder {
    var rowCount: int
    var colCount: int
    var data: seq<Value>

    constructor (cols: int)
      ensures rowCount == 0 && colCount == cols && data == []
    {
      rowCount, colCount, data := 0, cols, [];
    }

    /** Appends a row. As long as no row has held a cell, the table forgets the rows it has. */
    method Add(row: seq<Value>)
      modifies this
      ensures data == old(data) + row
      ensures colCount == if old(data) == [] then |row| else old(colCount)
      ensures rowCount == if old(data) == [] then 1 else old(rowCount) + 1
    {
      if |data| == 0 {
        colCount := |row|;
        rowCount := 0;
      }
      data := data + row;
      rowCount := rowCount + 1;
    }

    ghost predicate Rectangular()
      reads this
    {
      0 <= colCount && 0 <= rowCount && |data| == rowCount * colCount
    }

    /** Row `id`, or nothing for an index out of range. */
    method Row(id: int) returns (row: Option<seq<Value>>)
      requires Rectangular()
      ensures row.Some? <==> 0 <= id < rowCount
      ensures row.Some? ==> |row.value| == colCount
      ensures row.Some? ==> forall j :: 0 <= j < colCount ==>
        0 <= id * colCount + j < |data| && row.value[j] == data[id * colCount + j]
    {
      if id < 0 || id >= rowCount {
        return None;
      }
      assert 0 <= id * colCount <= (id + 1) * colCount <= |data| by {
        assert (id + 1) * colCount == id * colCount + colCount;
        assert (rowCount - (id + 1)) * colCount >= 0;
      }
      row := Some(data[id * colCount..(id + 1) * colCount]);
    }
  }

  class Reader {
    const cfg: Config
    var r: Bytes // the bytes that are still to come

    constructor (cfg: Config, r: Bytes)
      ensures this.cfg == cfg && this.r == r
    {
      this.cfg := cfg;
      this.r := r;
    }

    method ReadByte() returns (b: Option<byte>)
      modifies this
      ensures b.None? <==> old(r) == []
      ensures old(r) != [] ==> b == Some(old(r)[0]) && r == old(r)[1..]
      ensures old(r) == [] ==> r == []
    {
      if r == [] {
        return None;
      }
      b := Some(r[0]);
      r := r[1..];
    }

    /** The bytes before the next line feed, which is consumed too. */
    method ReadLine() returns (line: Option<Bytes>)
      modifies this
      ensures var i := IndexOf(old(r), LF);
        if i < |old(r)| then line == Some(old(r)[..i]) && r == old(r)[i + 1..]
        else line == None && r == []
    {
      var i := IndexOf(r, LF);
      if i == |r| {
        r := [];
        return None;
      }
      line := Some(r[..i]);
      r := r[i + 1..];
    }

    method NextNonEmptyLine() returns (line: Option<Bytes>)
      modifies this
      ensures match NextLine(old(r))
        case None => line == None && r == []
        case Some((l, rest)) => line == Some(l) && r == rest
    {
      while true
        invariant NextLine(r) == NextLine(old(r))
        decreases |r|
      {
        line := ReadLine();
        if line == None || line.value != [] {
          return;
        }
      }
    }

    method ReadSizeLine() returns (out: Outcome<int>)
      modifies this
      ensures Meets(out, r, ReadSize(old(r)))
    {
      var line := NextNonEmptyLine();
      match line
      case None => out := Failed(ErrFormat);
      case Some(l) =>
        match Atoi(l)
        case None => out := Failed(ErrFormat);
        case Some(n) => out := Done(n);
    }

    method ReadTableSizeLine() returns (out: Outcome<(int, int)>)
      modifies this
      ensures Meets(out, r, ReadTableSize(old(r)))
    {
      var line := NextNonEmptyLine();
      if line == None {
        return Failed(ErrFormat);
      }
      var l := line.value;
      var i := IndexOf(l, COMMA);
      if i == |l| {
        return Failed(ErrFormat);
      }
      var rows := Atoi(l[..i]);
      if rows == None {
        return Failed(ErrFormat);
      }
      var cols := Atoi(l[i + 1..]);
      if cols == None {
        return Failed(ErrFormat);
      }
      out := Done((rows.value, cols.value));
    }

    method HandleNull() returns (out: Outcome<Value>)
      modifies this
      ensures Meets(out, r, ReadNull(old(r)))
    {
      var b := ReadByte();
      if b == None {
        out := Failed(ErrIO);
      } else if b.value != LF {
        out := Failed(ErrFormat);
      } else {
        out := Done(Null);
      }
    }

    method HandleBoolean() returns (out: Outcome<Value>)
      modifies this
      ensures Meets(out, r, ReadBoolean(old(r)))
    {
      var sign := ReadByte();
      if sign == None {
        return Failed(ErrIO);
      }
      if sign.value != TRUE_SIGN && sign.value != FALSE_SIGN {
        return Failed(ErrFormat);
      }
      var b := ReadByte();
      if b == None {
        return Failed(ErrIO);
      }
      if b.value != LF {
        return Failed(ErrFormat);
      }
      out := Done(Bool(sign.value == TRUE_SIGN));
    }

    method HandleString() returns (out: Outcome<Value>)
      modifies this
      ensures Meets(out, r, ReadString(old(r)))
    {
      var line := ReadLine();
      match line
      case None => out := Failed(ErrIO);
      case Some(s) => out := Done(Str(s));
    }

    method HandleError() returns (out: Outcome<Value>)
      modifies this
      ensures Meets(out, r, ReadError(cfg, old(r)))
    {
      ghost var before := r;
      var line := ReadLine();
      if line == None {
        return Failed(ErrIO);
      }
      var buf := line.value;
      var k := IndexOf(buf, SPACE);
      if k == |buf| {
        return Failed(ErrFormat);
      }
      assert buf[k + 1..] == before[k + 1..|buf|];
      assert buf[..k] == before[..k];
      out := Done(Err(buf[..k], cfg.sprintf(buf[k + 1..])));
    }

    method HandleBlob(size: int) returns (out: Outcome<Value>)
      modifies this
      ensures Meets(out, r, ReadBlob(cfg, old(r), size))
    {
      if size > cfg.maxBlob {
        return Failed(ErrFormat);
      }
      if size < 0 {
        return Failed(NegativeSize);
      }
      if |r| < size {
        r := [];
        return Failed(ErrIO);
      }
      var buf := r[..size];
      r := r[size..];
      var b := ReadByte();
      if b == None {
        return Failed(ErrIO);
      }
      if b.value != LF {
        return Failed(ErrFormat);
      }
      out := Done(Blob(buf));
    }

    method HandleTag(canBeTag: bool) returns (out: Outcome<Value>)
      modifies this
      ensures Meets(out, r, ReadTagged(cfg, old(r), canBeTag))
      decreases |r|, 3
    {
      if !canBeTag {
        return Failed(ErrFormat);
      }
      var line := ReadLine();
      if line == None {
        return Failed(ErrIO);
      }
      var val := ReadOne(false);
      match val
      case Failed(e) => out := Failed(e);
      case Done(v) => out := Done(Tagged(line.value, v));
    }

    method HandleArray(size: int) returns (out: Outcome<Value>)
      modifies this
      ensures Meets(out, r, ReadElements(cfg, old(r), size))
      decreases |r|, 2
    {
      if size < 0 {
        return Failed(NegativeSize);
      }
      var values: seq<Value> := [];
      PrependConcat([], [], ReadMany(cfg, r, size));
      var i := 0;
      while i < size
        invariant 0 <= i <= size && |values| == i && |r| <= |old(r)|
        invariant ReadMany(cfg, old(r), size) == Prepend(values, ReadMany(cfg, r, size - i))
      {
        var val := ReadOne(false);
        if val.Failed? {
          return Failed(val.err);
        }
        PrependConcat(values, [val.value], ReadMany(cfg, r, size - i - 1));
        values := values + [val.value];
        i := i + 1;
      }
      assert values + [] == values;
      out := Done(Arr(values));
    }

    /** One row, cell by cell. */
    method HandleRow(cols: nat, ghost left: nat) returns (out: Outcome<seq<Value>>)
      requires cols <= left
      modifies this
      ensures out.Done? ==> |r| <= |old(r)|
      ensures match out
        case Done(row) => |row| == cols && ReadMany(cfg, old(r), left) == Prepend(row, ReadMany(cfg, r, left - cols))
        case Failed(e) => Meets(Outcome<seq<Value>>.Failed(e), r, ReadMany(cfg, old(r), left))
      decreases |r|, 1
    {
      var row: seq<Value> := [];
      PrependConcat([], [], ReadMany(cfg, r, left));
      var j := 0;
      while j < cols
        invariant 0 <= j <= cols && |row| == j && |r| <= |old(r)|
        invariant ReadMany(cfg, old(r), left) == Prepend(row, ReadMany(cfg, r, left - j))
      {
        var val := ReadOne(false);
        if val.Failed? {
          return Failed(val.err);
        }
        PrependConcat(row, [val.value], ReadMany(cfg, r, left - j - 1));
        row := row + [val.value];
        j := j + 1;
      }
      out := Done(row);
    }

    method HandleTable() returns (out: Outcome<Value>)
      modifies this
      ensures Meets(out, r, ReadTable(cfg, old(r)))
      decreases |r|, 3
    {
      var size := ReadTableSizeLine();
      if size.Failed? {
        return Failed(size.err);
      }
      out := HandleRows(size.value.0, size.value.1);
    }

    method HandleRows(rows: int, cols: int) returns (out: Outcome<Value>)
      modifies this
      ensures Meets(out, r, ReadCells(cfg, old(r), rows, cols))
      decreases |r|, 2
    {
      var t := new TableBuilder(cols);
      if rows > 0 && cols < 0 {
        return Failed(NegativeSize);
      }
      if rows > 0 {
        AreaIsProduct(rows, cols);
        var err := FillTable(t, rows, cols);
        if err.Some? {
          return Failed(err.value);
        }
      }
      out := Done(Table(t.rowCount, t.colCount, t.data));
    }

    method FillTable(t: TableBuilder, rows: nat, cols: nat) returns (err: Option<Error>)
      requires rows > 0 && t.data == []
      modifies this, t
      ensures err.None? ==> t.rowCount == (if cols == 0 then 1 else rows) && t.colCount == cols
      ensures match err
        case None => ReadMany(cfg, old(r), Area(rows, cols)) == Ok(t.data, r)
        case Some(e) => Meets(Outcome<seq<Value>>.Failed(e), r, ReadMany(cfg, old(r), Area(rows, cols)))
      decreases |r|, 2, 0
    {
      ghost var total := Area(rows, cols);
      PrependConcat([], [], ReadMany(cfg, r, total));
      var i := 0;
      while i < rows
        invariant 0 <= i <= rows && |r| <= |old(r)|
        invariant |t.data| + Area(rows - i, cols) == total
        invariant 0 < i ==> t.colCount == cols && t.rowCount == (if cols == 0 then 1 else i)
        invariant t.data == [] <==> i == 0 || cols == 0
        invariant ReadMany(cfg, old(r), total) == Prepend(t.data, ReadMany(cfg, r, Area(rows - i, cols)))
      {
        var row := HandleRow(cols, Area(rows - i, cols));
        if row.Failed? {
          return Some(row.err);
        }
        PrependConcat(t.data, row.value, ReadMany(cfg, r, Area(rows - i - 1, cols)));
        t.Add(row.value);
        i := i + 1;
      }
      assert t.data + [] == t.data;
      err := None;
    }

    method ReadOne(canBeTag: bool) returns (out: Outcome<Value>)
      modifies this
      ensures Meets(out, r, ReadValue(cfg, old(r), canBeTag))
      decreases |r|, 0
    {
      var mark := ReadByte();
      if mark == None {
        return Failed(ErrIO);
      }
      if mark.value == NULL_MARK {
        out := HandleNull();
      } else if mark.value == BOOL_MARK {
        out := HandleBoolean();
      } else if mark.value == STRING_MARK {
        out := HandleString();
      } else if mark.value == ERROR_MARK {
        out := HandleError();
      } else if mark.value == TAG_MARK {
        out := HandleTag(canBeTag);
      } else if mark.value == TABLE_MARK {
        out := HandleTable();
      } else if mark.value == ARRAY_MARK || mark.value == BLOB_MARK || mark.value == INT_MARK {
        out := HandleSized(mark.value, canBeTag);
      } else {
        out := Failed(ErrFormat);
      }
    }

    method HandleSized(mark: byte, ghost canBeTag: bool) returns (out: Outcome<Value>)
      requires mark == ARRAY_MARK || mark == BLOB_MARK || mark == INT_MARK
      modifies this
      ensures Meets(out, r, ReadBody(cfg, mark, old(r), canBeTag))
      decreases |r|, 4
    {
      var size := ReadSizeLine();
      if size.Failed? {
        return Failed(size.err);
      }
      if mark == ARRAY_MARK {
        out := HandleArray(size.value);
      } else if mark == BLOB_MARK {
        out := HandleBlob(size.value);
      } else {
        out := Done(Int(size.value));
      }
    }
  }

  class Buffer {
    var data: Bytes

    constructor ()
      ensures data == []
    {
      data := [];
    }

    method Append(s: Bytes)
      modifies this
      ensures data == old(data) + s
    {
      data := data + s;
    }

    /** `WriteTo` of every kind of value: containers are assembled in a buffer of their own first. */
    method WriteValue(v: Value)
      modifies this
      ensures data == old(data) + Print(v)
      decreases v, 3
    {
      match v
      case Arr(vs) => WriteContainer([ARRAY_MARK] + Itoa(|vs|) + [LF], v, vs);
      case Table(rows, cols, cells) =>
        WriteContainer([TABLE_MARK] + Itoa(rows) + [COMMA] + Itoa(cols) + [LF], v, cells);
      case Tagged(_, _) => WriteTagged(v);
      case Map(_, _) => WriteMap(v);
      case _ => WriteLeaf(v);
    }

    method WriteContainer(head: Bytes, ghost v: Value, vs: seq<Value>)
      requires v == Arr(vs) || (v.Table? && v.cells == vs)
      requires head + PrintAll(vs) == Print(v)
      modifies this
      ensures data == old(data) + Print(v)
      decreases v, 2
    {
      var buf := new Buffer();
      buf.Append(head);
      buf.WriteValues(vs);
      Append(buf.data);
    }

    method WriteTagged(v: Value)
      requires v.Tagged?
      modifies this
      ensures data == old(data) + Print(v)
      decreases v, 2
    {
      var buf := new Buffer();
      buf.Append([TAG_MARK] + v.tag + [LF]);
      buf.WriteValue(v.inner);
      assert buf.data == Print(v);
      Append(buf.data);
    }

    method WriteMap(v: Value)
      requires v.Map?
      modifies this
      ensures data == old(data) + Print(v)
      decreases v, 2
    {
      var buf := new Buffer();
      buf.Append([PERCENT] + Itoa(|v.keys|) + [LF]);
      buf.WriteEntries(v.keys, v.vals);
      assert buf.data == Print(v);
      Append(buf.data);
    }

    method WriteLeaf(v: Value)
      requires !v.Arr? && !v.Table? && !v.Tagged? && !v.Map?
      modifies this
      ensures data == old(data) + Print(v)
    {
      match v
      case Null => Append([NULL_MARK, LF]);
      case Bool(b) => Append(if b then [BOOL_MARK, TRUE_SIGN, LF] else [BOOL_MARK, FALSE_SIGN, LF]);
      case Str(s) => Append([STRING_MARK] + s + [LF]);
      case Err(code, msg) => Append([ERROR_MARK] + code + [SPACE] + msg + [LF]);
      case Int(n) => Append([INT_MARK] + Itoa(n) + [LF]);
      case Blob(bytes) => Append([BLOB_MARK] + Itoa(|bytes|) + [LF] + bytes + [LF]);
    }

    method WriteValues(vs: seq<Value>)
      modifies this
      ensures data == old(data) + PrintAll(vs)
      decreases vs, 4
    {
      var i := 0;
      while i < |vs|
        invariant 0 <= i <= |vs|
        invariant data + PrintAll(vs[i..]) == old(data) + PrintAll(vs)
      {
        assert vs[i..][0] == vs[i] && vs[i..][1..] == vs[i + 1..];
        WriteValue(vs[i]);
        i := i + 1;
      }
    }

    method WriteEntries(keys: seq<Bytes>, vals: seq<Value>)
      modifies this
      ensures data == old(data) + PrintEntries(keys, vals)
      decreases vals, 4
    {
      var i := 0;
      while i < |keys| && i < |vals|
        invariant 0 <= i <= |keys| && i <= |vals|
        invariant data + PrintEntries(keys[i..], vals[i..]) == old(data) + PrintEntries(keys, vals)
      {
        assert vals[i..][0] == vals[i] && vals[i..][1..] == vals[i + 1..];
        assert keys[i..][0] == keys[i] && keys[i..][1..] == keys[i + 1..];
        Append([STRING_MARK] + (keys[i] + [LF]));
        WriteValue(vals[i]);
        i := i + 1;
      }
    }
  }
}
