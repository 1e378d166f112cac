/** When a round trip works: `Printable` is the exact condition, for all values and whatever follows. */
module WireExact {
  import opened ByteStrings
  import opened Wire
  import opened WireLaws

  /** All that is needed of `fmt.Sprintf` here. */
  ghost predicate AddsNoLineFeed(cfg: Config) {
    forall m: Bytes :: LF !in m ==> LF !in cfg.sprintf(m)
  }

  predicate Gives<T(==)>(r: Result<T>, v: T) {
    r.Ok? && r.value == v
  }

  lemma {:induction false} GivesOnlyPrintable(cfg: Config, v: Value, top: bool, s: Bytes)
    requires AddsNoLineFeed(cfg) && Gives(ReadValue(cfg, Print(v) + s, top), v)
    ensures Printable(cfg, v, top)
    decreases v, 5
  {
    assert (Print(v) + s)[1..] == PrintBody(v) + s;
    BodyGivesOnlyPrintable(cfg, v, top, s);
  }

  lemma {:induction false} BodyGivesOnlyPrintable(cfg: Config, v: Value, top: bool, s: Bytes)
    requires AddsNoLineFeed(cfg) && Gives(ReadBody(cfg, Mark(v), PrintBody(v) + s, top), v)
    ensures Printable(cfg, v, top)
    decreases v, 4
  {
    match v
    case Arr(_) => ArrayFits(cfg, v, s);
    case Table(_, _, _) => TableFits(cfg, v, s);
    case Tagged(_, _) => TagFits(cfg, v, top, s);
    case Map(_, _) =>
    case _ => LeafGivesOnlyPrintable(cfg, v, top, s);
  }

  lemma LeafGivesOnlyPrintable(cfg: Config, v: Value, top: bool, s: Bytes)
    requires AddsNoLineFeed(cfg) && Gives(ReadBody(cfg, Mark(v), PrintBody(v) + s, top), v)
    requires !v.Arr? && !v.Table? && !v.Tagged? && !v.Map?
    ensures Printable(cfg, v, top)
  {
    match v
    case Str(t) => StringHasNoLineFeed(t, s);
    case Err(code, msg) => ErrorFits(cfg, code, msg, s);
    case Blob(data) => BlobFits(cfg, data, PrintBody(v) + s);
    case _ =>
  }

  lemma StringHasNoLineFeed(t: Bytes, s: Bytes)
    requires Gives(ReadString(PrintBody(Str(t)) + s), Str(t))
    ensures LF !in t
  {
    var inp := PrintBody(Str(t)) + s;
    assert inp[..IndexOf(inp, LF)] == t;
  }

  lemma ErrorFits(cfg: Config, code: Bytes, msg: Bytes, s: Bytes)
    requires AddsNoLineFeed(cfg) && Gives(ReadError(cfg, PrintBody(Err(code, msg)) + s), Err(code, msg))
    ensures Printable(cfg, Err(code, msg), false)
  {
    var line := code + [SPACE] + msg;
    var inp := PrintBody(Err(code, msg)) + s;
    assert inp == line + [LF] + s;
    var i := IndexOf(inp, LF);
    var k := IndexOf(inp[..i], SPACE);
    assert inp[..k] == code && LF !in inp[..i] && SPACE !in inp[..k];
    assert LF !in inp[k + 1..i] && cfg.sprintf(inp[k + 1..i]) == msg;
    assert forall b :: b in code ==> b in inp[..i];
    assert LF !in line;
    ReadPrintedLine(line, s);
    assert inp[k + 1..i] == msg;
  }

  lemma BlobFits(cfg: Config, data: Bytes, inp: Bytes)
    requires Gives(ReadSizedBlob(cfg, inp), Blob(data))
    ensures |data| <= cfg.maxBlob && IsInt64(|data|)
  {
  }

  lemma {:induction false} ArrayFits(cfg: Config, v: Value, s: Bytes)
    requires AddsNoLineFeed(cfg) && v.Arr? && Gives(ReadArray(cfg, PrintBody(v) + s), v)
    ensures Printable(cfg, v, false)
    decreases v, 3
  {
    ArrayHasElements(cfg, PrintBody(v) + s, v.vs);
    ArrayHeader(v, s);
    AllGiveOnlyPrintable(cfg, v.vs, s);
  }

  lemma ArrayHeader(v: Value, s: Bytes)
    requires v.Arr? && IsInt64(|v.vs|)
    ensures ReadSize(PrintBody(v) + s) == Ok(|v.vs|, PrintAll(v.vs) + s)
  {
    assert PrintBody(v) + s == Itoa(|v.vs|) + [LF] + (PrintAll(v.vs) + s);
    ReadPrintedSize(|v.vs|, PrintAll(v.vs) + s);
  }

  lemma ArrayHasElements(cfg: Config, inp: Bytes, vs: seq<Value>)
    requires Gives(ReadArray(cfg, inp), Arr(vs))
    ensures ReadSize(inp).Ok? && ReadSize(inp).value == |vs|
    ensures Gives(ReadMany(cfg, ReadSize(inp).rest, |vs|), vs)
  {
    var (n, rest) := (ReadSize(inp).value, ReadSize(inp).rest);
    assert ReadArray(cfg, inp) == ReadElements(cfg, rest, n);
    assert n >= 0 && ReadMany(cfg, rest, n).Ok?;
  }

  lemma {:induction false} AllGiveOnlyPrintable(cfg: Config, vs: seq<Value>, s: Bytes)
    requires AddsNoLineFeed(cfg) && Gives(ReadMany(cfg, PrintAll(vs) + s, |vs|), vs)
    ensures AllPrintable(cfg, vs)
    decreases vs, 6
  {
    if vs != [] {
      var later := PrintAll(vs[1..]) + s;
      assert PrintAll(vs) + s == Print(vs[0]) + later;
      var first := ReadValue(cfg, Print(vs[0]) + later, false);
      var others := ReadMany(cfg, first.rest, |vs| - 1);
      assert vs == [first.value] + others.value;
      GivesOnlyPrintable(cfg, vs[0], false, later);
      RoundTrip(cfg, vs[0], false, later);
      AllGiveOnlyPrintable(cfg, vs[1..], s);
    }
  }

  lemma {:induction false} TableFits(cfg: Config, v: Value, s: Bytes)
    requires AddsNoLineFeed(cfg) && v.Table? && Gives(ReadTable(cfg, PrintBody(v) + s), v)
    ensures Printable(cfg, v, false)
    decreases v, 3
  {
    TableHasCells(cfg, PrintBody(v) + s, v);
    TableHeader(v, s);
    CellsFit(cfg, PrintAll(v.cells) + s, v.rows, v.cols, v);
    AllGiveOnlyPrintable(cfg, v.cells, s);
  }

  lemma TableHeader(v: Value, s: Bytes)
    requires v.Table? && IsInt64(v.rows) && IsInt64(v.cols)
    ensures ReadTableSize(PrintBody(v) + s) == Ok((v.rows, v.cols), PrintAll(v.cells) + s)
  {
    var cells := PrintAll(v.cells) + s;
    assert PrintBody(v) + s == Itoa(v.rows) + [COMMA] + Itoa(v.cols) + [LF] + cells;
    ReadPrintedTableSize(v.rows, v.cols, cells);
  }

  lemma TableHasCells(cfg: Config, inp: Bytes, v: Value)
    requires v.Table? && Gives(ReadTable(cfg, inp), v)
    ensures ReadTableSize(inp).Ok?
    ensures var ((rows, cols), rest) := (ReadTableSize(inp).value, ReadTableSize(inp).rest);
      Gives(ReadCells(cfg, rest, rows, cols), v)
    ensures IsInt64(v.rows) && IsInt64(v.cols)
  {
    var ((rows, cols), rest) := (ReadTableSize(inp).value, ReadTableSize(inp).rest);
    assert ReadTable(cfg, inp) == ReadCells(cfg, rest, rows, cols);
    CellsFit(cfg, rest, rows, cols, v);
  }

  lemma CellsFit(cfg: Config, inp: Bytes, rows: int, cols: int, v: Value)
    requires v.Table? && Gives(ReadCells(cfg, inp, rows, cols), v)
    ensures v.cols == cols && (v.rows == rows || v.rows == 0 || v.rows == 1)
    ensures TableShape(v.rows, v.cols, |v.cells|)
    ensures Gives(ReadMany(cfg, inp, |v.cells|), v.cells)
  {
    if rows > 0 {
      assert cols >= 0 && ReadMany(cfg, inp, rows * cols).Ok?;
    }
  }

  lemma {:induction false} TagFits(cfg: Config, v: Value, top: bool, s: Bytes)
    requires AddsNoLineFeed(cfg) && v.Tagged? && Gives(ReadTagged(cfg, PrintBody(v) + s, top), v)
    ensures Printable(cfg, v, top)
    decreases v, 3
  {
    var inp := PrintBody(v) + s;
    assert inp == v.tag + [LF] + (Print(v.inner) + s);
    assert inp[..IndexOf(inp, LF)] == v.tag;
    ReadPrintedLine(v.tag, Print(v.inner) + s);
    GivesOnlyPrintable(cfg, v.inner, false, s);
  }

  /** Behind anything, a value is read back as it was printed exactly if it is printable. */
  lemma RoundTripIffPrintable(cfg: Config, v: Value, s: Bytes)
    requires AddsNoLineFeed(cfg)
    ensures Read(cfg, Print(v) + s) == Ok(v, s) <==> Printable(cfg, v, true)
    ensures Gives(Read(cfg, Print(v) + s), v) ==> Read(cfg, Print(v) + s).rest == s
  {
    if Gives(Read(cfg, Print(v) + s), v) {
      GivesOnlyPrintable(cfg, v, true, s);
    }
    if Printable(cfg, v, true) {
      RoundTrip(cfg, v, true, s);
    }
  }
}
