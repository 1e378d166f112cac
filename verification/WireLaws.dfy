/** The laws of the wire format: round trip, stability under extension, prefix-freeness, normalisation. */
module WireLaws {
  import opened ByteStrings
  import opened Wire

  // Round trip

  /** A printed line is the next line, whatever follows it. */
  lemma NextPrintedLine(line: Bytes, s: Bytes)
    requires line != [] && LF !in line
    ensures NextLine(line + [LF] + s) == Some((line, s))
  {
    IndexAfter(line, LF, s);
    assert (line + [LF] + s)[..|line|] == line;
    assert (line + [LF] + s)[|line| + 1..] == s;
  }

  lemma ReadPrintedSize(n: int, s: Bytes)
    requires IsInt64(n)
    ensures ReadSize(Itoa(n) + [LF] + s) == Ok(n, s)
  {
    AtoiItoa(n);
    NextPrintedLine(Itoa(n), s);
  }

  lemma ReadPrintedTableSize(rows: int, cols: int, s: Bytes)
    requires IsInt64(rows) && IsInt64(cols)
    ensures ReadTableSize(Itoa(rows) + [COMMA] + Itoa(cols) + [LF] + s) == Ok((rows, cols), s)
  {
    AtoiItoa(rows);
    AtoiItoa(cols);
    var (r, c) := (Itoa(rows), Itoa(cols));
    NextPrintedLine(r + [COMMA] + c, s);
    IndexAfter(r, COMMA, c);
    assert (r + [COMMA] + c)[..|r|] == r;
    assert (r + [COMMA] + c)[|r| + 1..] == c;
  }

  lemma ReadPrintedLine(line: Bytes, s: Bytes)
    requires LF !in line
    ensures var inp := line + [LF] + s;
            var i := IndexOf(inp, LF);
            i == |line| < |inp| && inp[..i] == line && inp[i + 1..] == s
  {
    IndexAfter(line, LF, s);
  }

  lemma ReadPrintedNull(s: Bytes)
    ensures ReadNull(PrintBody(Null) + s) == Ok(Null, s)
  {
    assert (PrintBody(Null) + s)[1..] == s;
  }

  lemma ReadPrintedBoolean(b: bool, s: Bytes)
    ensures ReadBoolean(PrintBody(Bool(b)) + s) == Ok(Bool(b), s)
  {
    assert (PrintBody(Bool(b)) + s)[2..] == s;
  }

  lemma ReadPrintedString(t: Bytes, s: Bytes)
    requires LF !in t
    ensures ReadString(PrintBody(Str(t)) + s) == Ok(Str(t), s)
  {
    ReadPrintedLine(t, s);
  }

  lemma ReadPrintedInteger(n: int, s: Bytes)
    requires IsInt64(n)
    ensures ReadInteger(PrintBody(Int(n)) + s) == Ok(Int(n), s)
  {
    ReadPrintedSize(n, s);
  }

  lemma ReadPrintedError(cfg: Config, code: Bytes, msg: Bytes, s: Bytes)
    requires Printable(cfg, Err(code, msg), false)
    ensures ReadError(cfg, PrintBody(Err(code, msg)) + s) == Ok(Err(code, msg), s)
  {
    var line := code + [SPACE] + msg;
    var inp := line + [LF] + s;
    ReadPrintedLine(line, s);
    IndexAfter(code, SPACE, msg);
    var i := |line|;
    assert inp[..i][..|code|] == code == inp[..|code|];
    assert inp[|code| + 1..i] == msg;
  }

  lemma ReadPrintedBlob(cfg: Config, data: Bytes, s: Bytes)
    requires Printable(cfg, Blob(data), false)
    ensures ReadSizedBlob(cfg, PrintBody(Blob(data)) + s) == Ok(Blob(data), s)
  {
    assert PrintBody(Blob(data)) + s == Itoa(|data|) + [LF] + (data + [LF] + s);
    ReadPrintedSize(|data|, data + [LF] + s);
    assert (data + [LF] + s)[..|data|] == data;
    assert (data + [LF] + s)[|data| + 1..] == s;
  }

  /** Reading a printed value followed by any bytes gives the value and leaves exactly those bytes. */
  lemma {:induction false} RoundTrip(cfg: Config, v: Value, top: bool, s: Bytes)
    requires Printable(cfg, v, top)
    ensures ReadValue(cfg, Print(v) + s, top) == Ok(v, s)
    decreases v, 5
  {
    assert (Print(v) + s)[1..] == PrintBody(v) + s;
    RoundTripBody(cfg, v, top, s);
  }

  lemma {:induction false} RoundTripBody(cfg: Config, v: Value, top: bool, s: Bytes)
    requires Printable(cfg, v, top)
    ensures ReadBody(cfg, Mark(v), PrintBody(v) + s, top) == Ok(v, s)
    decreases v, 4
  {
    match v
    case Arr(_) => RoundTripArray(cfg, v, top, s);
    case Table(_, _, _) => RoundTripTable(cfg, v, top, s);
    case Tagged(_, _) => RoundTripTagged(cfg, v, top, s);
    case Err(_, _) => RoundTripError(cfg, v, top, s);
    case Blob(_) => RoundTripBlob(cfg, v, top, s);
    case _ => RoundTripLeaf(cfg, v, top, s);
  }

  lemma RoundTripError(cfg: Config, v: Value, top: bool, s: Bytes)
    requires Printable(cfg, v, top) && v.Err?
    ensures ReadBody(cfg, Mark(v), PrintBody(v) + s, top) == Ok(v, s)
  {
    ReadPrintedError(cfg, v.code, v.msg, s);
  }

  lemma RoundTripBlob(cfg: Config, v: Value, top: bool, s: Bytes)
    requires Printable(cfg, v, top) && v.Blob?
    ensures ReadBody(cfg, Mark(v), PrintBody(v) + s, top) == Ok(v, s)
  {
    ReadPrintedBlob(cfg, v.data, s);
  }

  lemma RoundTripLeaf(cfg: Config, v: Value, top: bool, s: Bytes)
    requires Printable(cfg, v, top)
    requires v.Null? || v.Bool? || v.Str? || v.Int?
    ensures ReadBody(cfg, Mark(v), PrintBody(v) + s, top) == Ok(v, s)
  {
    match v
    case Null => ReadPrintedNull(s);
    case Bool(b) => ReadPrintedBoolean(b, s);
    case Str(t) => ReadPrintedString(t, s);
    case Int(n) => ReadPrintedInteger(n, s);
  }

  lemma {:induction false} RoundTripArray(cfg: Config, v: Value, top: bool, s: Bytes)
    requires v.Arr? && Printable(cfg, v, top)
    ensures ReadBody(cfg, Mark(v), PrintBody(v) + s, top) == Ok(v, s)
    decreases v, 3
  {
    assert PrintBody(v) + s == Itoa(|v.vs|) + [LF] + (PrintAll(v.vs) + s);
    ReadPrintedSize(|v.vs|, PrintAll(v.vs) + s);
    RoundTripAll(cfg, v.vs, s);
    assert ReadArray(cfg, PrintBody(v) + s) == Ok(v, s);
  }

  lemma {:induction false} RoundTripTable(cfg: Config, v: Value, top: bool, s: Bytes)
    requires v.Table? && Printable(cfg, v, top)
    ensures ReadBody(cfg, Mark(v), PrintBody(v) + s, top) == Ok(v, s)
    decreases v, 3
  {
    var cells := PrintAll(v.cells) + s;
    assert PrintBody(v) + s == Itoa(v.rows) + [COMMA] + Itoa(v.cols) + [LF] + cells;
    ReadPrintedTableSize(v.rows, v.cols, cells);
    RoundTripAll(cfg, v.cells, s);
    CellsMakeTable(cfg, v, s);
    HeaderMakesTable(cfg, PrintBody(v) + s, v.rows, v.cols, cells, top);
  }

  lemma HeaderMakesTable(cfg: Config, inp: Bytes, rows: int, cols: int, rest: Bytes, top: bool)
    requires ReadTableSize(inp) == Ok((rows, cols), rest)
    ensures ReadBody(cfg, TABLE_MARK, inp, top) == ReadCells(cfg, rest, rows, cols)
  {
  }

  lemma CellsMakeTable(cfg: Config, v: Value, s: Bytes)
    requires v.Table? && TableShape(v.rows, v.cols, |v.cells|)
    requires ReadMany(cfg, PrintAll(v.cells) + s, |v.cells|) == Ok(v.cells, s)
    ensures ReadCells(cfg, PrintAll(v.cells) + s, v.rows, v.cols) == Ok(v, s)
  {
  }

  lemma {:induction false} RoundTripTagged(cfg: Config, v: Value, top: bool, s: Bytes)
    requires v.Tagged? && Printable(cfg, v, top)
    ensures ReadBody(cfg, Mark(v), PrintBody(v) + s, top) == Ok(v, s)
    decreases v, 3
  {
    assert PrintBody(v) + s == v.tag + [LF] + (Print(v.inner) + s);
    ReadPrintedLine(v.tag, Print(v.inner) + s);
    RoundTrip(cfg, v.inner, false, s);
  }

  lemma {:induction false} RoundTripAll(cfg: Config, vs: seq<Value>, s: Bytes)
    requires AllPrintable(cfg, vs)
    ensures ReadMany(cfg, PrintAll(vs) + s, |vs|) == Ok(vs, s)
    decreases vs, 6
  {
    if vs == [] {
      assert PrintAll(vs) + s == s;
    } else {
      assert PrintAll(vs) + s == Print(vs[0]) + (PrintAll(vs[1..]) + s);
      RoundTrip(cfg, vs[0], false, PrintAll(vs[1..]) + s);
      RoundTripAll(cfg, vs[1..], s);
      assert [vs[0]] + vs[1..] == vs;
    }
  }

  // Stability under extension

  lemma {:induction false} NextLineStable(inp: Bytes, q: Bytes)
    requires NextLine(inp).Some?
    ensures NextLine(inp + q) == Some((NextLine(inp).value.0, NextLine(inp).value.1 + q))
  {
    IndexStable(inp, LF, q);
    var i := IndexOf(inp, LF);
    if i == 0 {
      assert (inp + q)[1..] == inp[1..] + q;
      NextLineStable(inp[1..], q);
    } else {
      assert (inp + q)[..i] == inp[..i];
      assert (inp + q)[i + 1..] == inp[i + 1..] + q;
    }
  }

  lemma LineStable(inp: Bytes, q: Bytes)
    requires IndexOf(inp, LF) < |inp|
    ensures var i := IndexOf(inp, LF);
            IndexOf(inp + q, LF) == i && (inp + q)[..i] == inp[..i] && (inp + q)[i + 1..] == inp[i + 1..] + q
  {
    IndexStable(inp, LF, q);
  }

  lemma ReadErrorStable(cfg: Config, inp: Bytes, q: Bytes)
    requires ReadError(cfg, inp).Ok?
    ensures ReadError(cfg, inp + q) == Ok(ReadError(cfg, inp).value, ReadError(cfg, inp).rest + q)
  {
    IndexStable(inp, LF, q);
    var i := IndexOf(inp, LF);
    assert (inp + q)[..i] == inp[..i];
    assert (inp + q)[i + 1..] == inp[i + 1..] + q;
    var k := IndexOf(inp[..i], SPACE);
    assert (inp + q)[k + 1..i] == inp[k + 1..i];
    assert (inp + q)[..k] == inp[..k];
  }

  lemma ReadBlobStable(cfg: Config, inp: Bytes, size: int, q: Bytes)
    requires ReadBlob(cfg, inp, size).Ok?
    ensures ReadBlob(cfg, inp + q, size) == Ok(ReadBlob(cfg, inp, size).value, ReadBlob(cfg, inp, size).rest + q)
  {
    assert (inp + q)[..size] == inp[..size];
    assert (inp + q)[size + 1..] == inp[size + 1..] + q;
  }

  /** A successful read does not depend on the bytes it has not consumed. */
  lemma {:induction false} ReadStable(cfg: Config, inp: Bytes, canBeTag: bool, q: Bytes)
    requires ReadValue(cfg, inp, canBeTag).Ok?
    ensures ReadValue(cfg, inp + q, canBeTag)
         == Ok(ReadValue(cfg, inp, canBeTag).value, ReadValue(cfg, inp, canBeTag).rest + q)
    decreases |inp|, 0
  {
    assert (inp + q)[1..] == inp[1..] + q;
    ReadBodyStable(cfg, inp[0], inp[1..], canBeTag, q);
  }

  lemma {:induction false} ReadBodyStable(cfg: Config, mark: byte, body: Bytes, canBeTag: bool, q: Bytes)
    requires ReadBody(cfg, mark, body, canBeTag).Ok?
    ensures ReadBody(cfg, mark, body + q, canBeTag)
         == Ok(ReadBody(cfg, mark, body, canBeTag).value, ReadBody(cfg, mark, body, canBeTag).rest + q)
    decreases |body|, 4
  {
    if mark == NULL_MARK {
      assert (body + q)[1..] == body[1..] + q;
    } else if mark == BOOL_MARK {
      assert (body + q)[2..] == body[2..] + q;
    } else if mark == STRING_MARK {
      LineStable(body, q);
    } else if mark == ERROR_MARK {
      ReadErrorStable(cfg, body, q);
    } else if mark == TAG_MARK {
      ReadTaggedStable(cfg, body, q);
    } else if mark == TABLE_MARK {
      ReadTableStable(cfg, body, q);
    } else if mark == ARRAY_MARK {
      ReadArrayStable(cfg, body, q);
    } else {
      ReadSizedStable(cfg, mark, body, canBeTag, q);
    }
  }

  lemma ReadSizedStable(cfg: Config, mark: byte, body: Bytes, canBeTag: bool, q: Bytes)
    requires mark == INT_MARK || mark == BLOB_MARK
    requires ReadBody(cfg, mark, body, canBeTag).Ok?
    ensures ReadBody(cfg, mark, body + q, canBeTag)
         == Ok(ReadBody(cfg, mark, body, canBeTag).value, ReadBody(cfg, mark, body, canBeTag).rest + q)
  {
    NextLineStable(body, q);
    if mark == BLOB_MARK {
      ReadBlobStable(cfg, ReadSize(body).rest, ReadSize(body).value, q);
    }
  }

  lemma {:induction false} ReadTaggedStable(cfg: Config, inp: Bytes, q: Bytes)
    requires ReadTagged(cfg, inp, true).Ok?
    ensures ReadTagged(cfg, inp + q, true) == Ok(ReadTagged(cfg, inp, true).value, ReadTagged(cfg, inp, true).rest + q)
    decreases |inp|, 3
  {
    LineStable(inp, q);
    ReadStable(cfg, inp[IndexOf(inp, LF) + 1..], false, q);
  }

  lemma {:induction false} ReadArrayStable(cfg: Config, inp: Bytes, q: Bytes)
    requires ReadArray(cfg, inp).Ok?
    ensures ReadArray(cfg, inp + q) == Ok(ReadArray(cfg, inp).value, ReadArray(cfg, inp).rest + q)
    decreases |inp|, 3
  {
    NextLineStable(inp, q);
    ReadManyStable(cfg, ReadSize(inp).rest, ReadSize(inp).value, q);
  }

  lemma {:induction false} ReadTableStable(cfg: Config, inp: Bytes, q: Bytes)
    requires ReadTable(cfg, inp).Ok?
    ensures ReadTable(cfg, inp + q) == Ok(ReadTable(cfg, inp).value, ReadTable(cfg, inp).rest + q)
    decreases |inp|, 3
  {
    NextLineStable(inp, q);
    var (rows, cols) := ReadTableSize(inp).value;
    if rows > 0 {
      ReadManyStable(cfg, ReadTableSize(inp).rest, rows * cols, q);
    }
  }

  lemma {:induction false} ReadManyStable(cfg: Config, inp: Bytes, n: nat, q: Bytes)
    requires ReadMany(cfg, inp, n).Ok?
    ensures ReadMany(cfg, inp + q, n) == Ok(ReadMany(cfg, inp, n).value, ReadMany(cfg, inp, n).rest + q)
    decreases |inp|, 1, n
  {
    if n > 0 {
      var (v, rest) := (ReadValue(cfg, inp, false).value, ReadValue(cfg, inp, false).rest);
      ReadStable(cfg, inp, false, q);
      ReadManyStable(cfg, rest, n - 1, q);
    }
  }

  /** No encoding is a prefix of another one. */
  lemma PrefixFree(cfg: Config, v: Value, w: Value)
    requires Printable(cfg, v, true) && Printable(cfg, w, true)
    requires Print(v) <= Print(w)
    ensures v == w
  {
    var q := Print(w)[|Print(v)|..];
    assert Print(w) == Print(v) + q == Print(w) + [];
    RoundTrip(cfg, v, true, q);
    RoundTrip(cfg, w, true, []);
  }

  /** No strict prefix of an encoding reads as a value: a truncated message is never taken for a whole one. */
  lemma TruncationDetected(cfg: Config, v: Value, p: Bytes)
    requires Printable(cfg, v, true)
    requires p < Print(v)
    ensures !Read(cfg, p).Ok?
  {
    if Read(cfg, p).Ok? {
      var q := Print(v)[|p|..];
      assert Print(v) == p + q == Print(v) + [];
      ReadStable(cfg, p, true, q);
      RoundTrip(cfg, v, true, []);
      assert false;
    }
  }

  // Normalisation

  /** What `fmt.Sprintf` does with a format and no arguments: it copies text without `%`, never turns a
      `%` directive into text without `%`, and adds no line feed. */
  ghost predicate FormatsLikeSprintf(cfg: Config) {
    && (forall m: Bytes :: PERCENT !in m ==> cfg.sprintf(m) == m)
    && (forall m: Bytes :: PERCENT in m ==> PERCENT in cfg.sprintf(m))
    && (forall m: Bytes :: LF !in m ==> LF !in cfg.sprintf(m))
  }

  predicate PercentFreeErrors(v: Value)
    decreases v, 0
  {
    match v
    case Err(_, msg) => PERCENT !in msg
    case Arr(vs) => AllPercentFree(vs)
    case Table(_, _, cells) => AllPercentFree(cells)
    case Tagged(_, inner) => PercentFreeErrors(inner)
    case _ => true
  }

  predicate AllPercentFree(vs: seq<Value>)
    decreases vs, 1
  {
    vs == [] || (PercentFreeErrors(vs[0]) && AllPercentFree(vs[1..]))
  }

  /** Whatever was read can be printed, in no more bytes than were consumed. */
  lemma {:induction false} ReadNormalises(cfg: Config, inp: Bytes, canBeTag: bool)
    requires FormatsLikeSprintf(cfg)
    requires ReadValue(cfg, inp, canBeTag).Ok?
    requires PercentFreeErrors(ReadValue(cfg, inp, canBeTag).value)
    ensures Printable(cfg, ReadValue(cfg, inp, canBeTag).value, canBeTag)
    ensures |Print(ReadValue(cfg, inp, canBeTag).value)| + |ReadValue(cfg, inp, canBeTag).rest| <= |inp|
    decreases |inp|, 0
  {
    BodyNormalises(cfg, inp[0], inp[1..], canBeTag);
  }

  lemma {:induction false} BodyNormalises(cfg: Config, mark: byte, body: Bytes, canBeTag: bool)
    requires FormatsLikeSprintf(cfg)
    requires ReadBody(cfg, mark, body, canBeTag).Ok?
    requires PercentFreeErrors(ReadBody(cfg, mark, body, canBeTag).value)
    ensures Printable(cfg, ReadBody(cfg, mark, body, canBeTag).value, canBeTag)
    ensures var Ok(v, rest) := ReadBody(cfg, mark, body, canBeTag); |PrintBody(v)| + |rest| <= |body|
    decreases |body|, 4
  {
    if mark == ERROR_MARK {
      ErrorNormalises(cfg, body);
    } else if mark == TAG_MARK {
      TaggedNormalises(cfg, body);
    } else if mark == TABLE_MARK {
      TableNormalises(cfg, body);
    } else if mark == ARRAY_MARK {
      ArrayNormalises(cfg, body);
    } else if mark == BLOB_MARK || mark == INT_MARK {
      ItoaShortest(NextLine(body).value.0);
    }
  }

  lemma ErrorNormalises(cfg: Config, inp: Bytes)
    requires FormatsLikeSprintf(cfg)
    requires ReadError(cfg, inp).Ok? && PERCENT !in ReadError(cfg, inp).value.msg
    ensures Printable(cfg, ReadError(cfg, inp).value, false)
    ensures |PrintBody(ReadError(cfg, inp).value)| + |ReadError(cfg, inp).rest| <= |inp|
  {
    var i := IndexOf(inp, LF);
    var raw := inp[IndexOf(inp[..i], SPACE) + 1..i];
    assert PERCENT !in raw;
    assert LF !in raw;
  }

  lemma {:induction false} TaggedNormalises(cfg: Config, inp: Bytes)
    requires FormatsLikeSprintf(cfg)
    requires ReadTagged(cfg, inp, true).Ok? && PercentFreeErrors(ReadTagged(cfg, inp, true).value)
    ensures Printable(cfg, ReadTagged(cfg, inp, true).value, true)
    ensures |PrintBody(ReadTagged(cfg, inp, true).value)| + |ReadTagged(cfg, inp, true).rest| <= |inp|
    decreases |inp|, 3
  {
    ReadNormalises(cfg, inp[IndexOf(inp, LF) + 1..], false);
  }

  lemma {:induction false} ArrayNormalises(cfg: Config, inp: Bytes)
    requires FormatsLikeSprintf(cfg)
    requires ReadArray(cfg, inp).Ok? && PercentFreeErrors(ReadArray(cfg, inp).value)
    ensures Printable(cfg, ReadArray(cfg, inp).value, false)
    ensures |PrintBody(ReadArray(cfg, inp).value)| + |ReadArray(cfg, inp).rest| <= |inp|
    decreases |inp|, 3
  {
    ItoaShortest(NextLine(inp).value.0);
    ReadManyNormalises(cfg, ReadSize(inp).rest, ReadSize(inp).value);
  }

  lemma {:induction false} TableNormalises(cfg: Config, inp: Bytes)
    requires FormatsLikeSprintf(cfg)
    requires ReadTable(cfg, inp).Ok? && PercentFreeErrors(ReadTable(cfg, inp).value)
    ensures Printable(cfg, ReadTable(cfg, inp).value, false)
    ensures |PrintBody(ReadTable(cfg, inp).value)| + |ReadTable(cfg, inp).rest| <= |inp|
    decreases |inp|, 3
  {
    var (rows, cols) := ReadTableSize(inp).value;
    TableSizeShrinks(inp);
    CellsNormalise(cfg, ReadTableSize(inp).rest, rows, cols);
  }

  lemma {:induction false} CellsNormalise(cfg: Config, inp: Bytes, rows: int, cols: int)
    requires FormatsLikeSprintf(cfg)
    requires IsInt64(rows) && IsInt64(cols)
    requires ReadCells(cfg, inp, rows, cols).Ok? && PercentFreeErrors(ReadCells(cfg, inp, rows, cols).value)
    ensures var Ok(v, rest) := ReadCells(cfg, inp, rows, cols);
            && Printable(cfg, v, false) && |PrintAll(v.cells)| + |rest| <= |inp|
            && v.cols == cols && (v.rows == rows || v.rows == 0 || v.rows == 1)
    decreases |inp|, 2
  {
    if rows > 0 {
      ReadManyNormalises(cfg, inp, rows * cols);
    }
  }

  lemma TableSizeShrinks(inp: Bytes)
    requires ReadTableSize(inp).Ok?
    ensures var (rows, cols) := ReadTableSize(inp).value;
            var rest := ReadTableSize(inp).rest;
            |Itoa(rows)| + |Itoa(cols)| + 2 <= |inp| - |rest| && |Itoa(cols)| + 3 <= |inp| - |rest|
  {
    var line := NextLine(inp).value.0;
    var i := IndexOf(line, COMMA);
    ItoaShortest(line[..i]);
    ItoaShortest(line[i + 1..]);
  }

  lemma {:induction false} ReadManyNormalises(cfg: Config, inp: Bytes, n: nat)
    requires FormatsLikeSprintf(cfg)
    requires ReadMany(cfg, inp, n).Ok?
    requires AllPercentFree(ReadMany(cfg, inp, n).value)
    ensures AllPrintable(cfg, ReadMany(cfg, inp, n).value)
    ensures |PrintAll(ReadMany(cfg, inp, n).value)| + |ReadMany(cfg, inp, n).rest| <= |inp|
    decreases |inp|, 1, n
  {
    if n > 0 {
      var first := ReadValue(cfg, inp, false);
      var others := ReadMany(cfg, first.rest, n - 1);
      assert ReadMany(cfg, inp, n).value[1..] == others.value;
      ReadNormalises(cfg, inp, false);
      ReadManyNormalises(cfg, first.rest, n - 1);
    }
  }

  /** Reading, printing and reading again ends where the first read did. */
  lemma RereadAfterPrinting(cfg: Config, inp: Bytes, s: Bytes)
    requires FormatsLikeSprintf(cfg)
    requires Read(cfg, inp).Ok? && PercentFreeErrors(Read(cfg, inp).value)
    ensures Read(cfg, Print(Read(cfg, inp).value) + s) == Ok(Read(cfg, inp).value, s)
    ensures |Print(Read(cfg, inp).value)| <= |inp| - |Read(cfg, inp).rest|
  {
    ReadNormalises(cfg, inp, true);
    RoundTrip(cfg, Read(cfg, inp).value, true, s);
  }

  /** Maps are written but never read: `%` is no mark the reader knows. */
  lemma MapsAreRejected(cfg: Config, keys: seq<Bytes>, vals: seq<Value>, s: Bytes)
    ensures Read(cfg, Print(Map(keys, vals)) + s) == Format(PrintBody(Map(keys, vals)) + s)
  {
    var inp := Print(Map(keys, vals)) + s;
    assert inp[1..] == PrintBody(Map(keys, vals)) + s;
    assert ReadBody(cfg, inp[0], inp[1..], true) == Format(inp[1..]);
  }

  predicate AllPrintableAtTop(cfg: Config, vs: seq<Value>) {
    forall i :: 0 <= i < |vs| ==> Printable(cfg, vs[i], true)
  }

  // The blob limit

  predicate BlobsWithin(v: Value, max: int)
    decreases v, 0
  {
    match v
    case Blob(data) => |data| <= max
    case Arr(vs) => AllBlobsWithin(vs, max)
    case Table(_, _, cells) => AllBlobsWithin(cells, max)
    case Tagged(_, inner) => BlobsWithin(inner, max)
    case _ => true
  }

  predicate AllBlobsWithin(vs: seq<Value>, max: int)
    decreases vs, 1
  {
    vs == [] || (BlobsWithin(vs[0], max) && AllBlobsWithin(vs[1..], max))
  }

  /** No read returns a blob over the limit, at any depth. */
  lemma {:induction false} BlobLimitHolds(cfg: Config, inp: Bytes, canBeTag: bool)
    requires ReadValue(cfg, inp, canBeTag).Ok?
    ensures BlobsWithin(ReadValue(cfg, inp, canBeTag).value, cfg.maxBlob)
    decreases |inp|, 0
  {
    BodyBlobLimit(cfg, inp[0], inp[1..], canBeTag);
  }

  lemma {:induction false} BodyBlobLimit(cfg: Config, mark: byte, body: Bytes, canBeTag: bool)
    requires ReadBody(cfg, mark, body, canBeTag).Ok?
    ensures BlobsWithin(ReadBody(cfg, mark, body, canBeTag).value, cfg.maxBlob)
    decreases |body|, 4
  {
    if mark == TAG_MARK {
      TaggedBlobLimit(cfg, body);
    } else if mark == ARRAY_MARK {
      ArrayBlobLimit(cfg, body);
    } else if mark == TABLE_MARK {
      TableBlobLimit(cfg, body);
    }
  }

  lemma {:induction false} TaggedBlobLimit(cfg: Config, body: Bytes)
    requires ReadTagged(cfg, body, true).Ok?
    ensures BlobsWithin(ReadTagged(cfg, body, true).value, cfg.maxBlob)
    decreases |body|, 3
  {
    BlobLimitHolds(cfg, body[IndexOf(body, LF) + 1..], false);
  }

  lemma {:induction false} ArrayBlobLimit(cfg: Config, body: Bytes)
    requires ReadArray(cfg, body).Ok?
    ensures BlobsWithin(ReadArray(cfg, body).value, cfg.maxBlob)
    decreases |body|, 3
  {
    ManyBlobLimit(cfg, ReadSize(body).rest, ReadSize(body).value);
  }

  lemma {:induction false} TableBlobLimit(cfg: Config, body: Bytes)
    requires ReadTable(cfg, body).Ok?
    ensures BlobsWithin(ReadTable(cfg, body).value, cfg.maxBlob)
    decreases |body|, 3
  {
    var (rows, cols) := ReadTableSize(body).value;
    if rows > 0 {
      ManyBlobLimit(cfg, ReadTableSize(body).rest, rows * cols);
    }
  }

  lemma {:induction false} ManyBlobLimit(cfg: Config, inp: Bytes, n: nat)
    requires ReadMany(cfg, inp, n).Ok?
    ensures AllBlobsWithin(ReadMany(cfg, inp, n).value, cfg.maxBlob)
    decreases |inp|, 1, n
  {
    if n > 0 {
      var first := ReadValue(cfg, inp, false);
      assert ReadMany(cfg, inp, n).value[1..] == ReadMany(cfg, first.rest, n - 1).value;
      BlobLimitHolds(cfg, inp, false);
      ManyBlobLimit(cfg, first.rest, n - 1);
    }
  }
}
