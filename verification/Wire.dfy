/** The values of the Fly wire format, how they are printed, and what reading a byte stream means. */
module Wire {
  import opened ByteStrings

  datatype Value =
    | Null
    | Bool(b: bool)
    | Str(s: Bytes)
    | Err(code: Bytes, msg: Bytes)
    | Int(n: int)
    | Blob(data: Bytes)
    | Arr(vs: seq<Value>)
    | Table(rows: int, cols: int, cells: seq<Value>)
    | Tagged(tag: Bytes, inner: Value)
    | Map(keys: seq<Bytes>, vals: seq<Value>) // in the order in which the entries are printed

  // Printing

  const TRUE_SIGN: byte := 116   // t
  const FALSE_SIGN: byte := 102  // f
  const STRING_MARK: byte := 43  // +
  const ERROR_MARK: byte := 45   // -
  const INT_MARK: byte := 58     // :
  const BLOB_MARK: byte := 36    // $
  const ARRAY_MARK: byte := 42   // *
  const TABLE_MARK: byte := 61   // =
  const TAG_MARK: byte := 64     // @
  const BOOL_MARK: byte := 35    // #
  const NULL_MARK: byte := 95    // _

  function Mark(v: Value): byte {
    match v
    case Null => NULL_MARK
    case Bool(_) => BOOL_MARK
    case Str(_) => STRING_MARK
    case Err(_, _) => ERROR_MARK
    case Int(_) => INT_MARK
    case Blob(_) => BLOB_MARK
    case Arr(_) => ARRAY_MARK
    case Table(_, _, _) => TABLE_MARK
    case Tagged(_, _) => TAG_MARK
    case Map(_, _) => PERCENT
  }

  function Print(v: Value): (out: Bytes)
    ensures out != []
    decreases v, 3
  {
    [Mark(v)] + PrintBody(v)
  }

  function PrintBody(v: Value): Bytes
    decreases v, 2
  {
    match v
    case Null => [LF]
    case Bool(b) => if b then [TRUE_SIGN, LF] else [FALSE_SIGN, LF]
    case Str(s) => s + [LF]
    case Err(code, msg) => code + [SPACE] + msg + [LF]
    case Int(n) => Itoa(n) + [LF]
    case Blob(data) => Itoa(|data|) + [LF] + (data + [LF])
    case Arr(vs) => Itoa(|vs|) + [LF] + PrintAll(vs)
    case Table(rows, cols, cells) => Itoa(rows) + [COMMA] + Itoa(cols) + [LF] + PrintAll(cells)
    case Tagged(tag, inner) => tag + [LF] + Print(inner)
    case Map(keys, vals) => Itoa(|keys|) + [LF] + PrintEntries(keys, vals)
  }

  function PrintAll(vs: seq<Value>): (out: Bytes)
    ensures |vs| <= |out|
    decreases vs, 1
  {
    if vs == [] then [] else Print(vs[0]) + PrintAll(vs[1..])
  }

  function PrintEntries(keys: seq<Bytes>, vals: seq<Value>): Bytes
    decreases vals, 1
  {
    if keys == [] || vals == [] then []
    else [STRING_MARK] + (keys[0] + [LF]) + Print(vals[0]) + PrintEntries(keys[1..], vals[1..])
  }

  // Reading

  /** What a reader is configured with: the blob limit, and `fmt.Sprintf` applied to a format without
      arguments, through which every error message goes. */
  datatype Config = Config(maxBlob: int, sprintf: Bytes -> Bytes)

  /** The outcome of reading from a finite stream. A format error leaves the reader where it stopped,
      ready for another read; `Panic` is a negative size reaching `make`. */
  datatype Result<+T> = Ok(value: T, rest: Bytes) | Format(rest: Bytes) | IO | Panic {
    predicate Consumed(inp: Bytes) {
      match this
      case Ok(_, rest) => |rest| < |inp|
      case Format(rest) => |rest| < |inp|
      case _ => true
    }
  }

  /** The next non-empty line. */
  function NextLine(inp: Bytes): (line: Option<(Bytes, Bytes)>)
    ensures line.Some? ==> line.value.0 != [] && LF !in line.value.0
    ensures line.Some? ==> |line.value.0| + 1 + |line.value.1| <= |inp|
  {
    var i := IndexOf(inp, LF);
    if i == |inp| then None
    else if i == 0 then NextLine(inp[1..])
    else Some((inp[..i], inp[i + 1..]))
  }

  /** A size line. The end of the stream counts as a format error here, not as an I/O error. */
  function ReadSize(inp: Bytes): (r: Result<int>)
    ensures r.Ok? || r.Format?
    ensures r.Ok? ==> r.Consumed(inp) && IsInt64(r.value)
    ensures r.Format? ==> |r.rest| <= |inp|
  {
    match NextLine(inp)
    case None => Format([])
    case Some((line, rest)) =>
      match Atoi(line)
      case None => Format(rest)
      case Some(n) => Ok(n, rest)
  }

  function ReadTableSize(inp: Bytes): (r: Result<(int, int)>)
    ensures r.Ok? || r.Format?
    ensures r.Ok? ==> r.Consumed(inp) && IsInt64(r.value.0) && IsInt64(r.value.1)
    ensures r.Format? ==> |r.rest| <= |inp|
  {
    match NextLine(inp)
    case None => Format([])
    case Some((line, rest)) =>
      var i := IndexOf(line, COMMA);
      if i == |line| then Format(rest)
      else
        match (Atoi(line[..i]), Atoi(line[i + 1..]))
        case (Some(rows), Some(cols)) => Ok((rows, cols), rest)
        case _ => Format(rest)
  }

  function ReadNull(inp: Bytes): Result<Value> {
    if inp == [] then IO
    else if inp[0] != LF then Format(inp[1..])
    else Ok(Null, inp[1..])
  }

  function ReadBoolean(inp: Bytes): Result<Value> {
    if inp == [] then IO
    else if inp[0] != TRUE_SIGN && inp[0] != FALSE_SIGN then Format(inp[1..])
    else if |inp| == 1 then IO
    else if inp[1] != LF then Format(inp[2..])
    else Ok(Bool(inp[0] == TRUE_SIGN), inp[2..])
  }

  function ReadString(inp: Bytes): Result<Value> {
    var i := IndexOf(inp, LF);
    if i == |inp| then IO else Ok(Str(inp[..i]), inp[i + 1..])
  }

  function ReadError(cfg: Config, inp: Bytes): Result<Value> {
    var i := IndexOf(inp, LF);
    if i == |inp| then IO
    else
      var k := IndexOf(inp[..i], SPACE);
      if k == i then Format(inp[i + 1..])
      else Ok(Err(inp[..k], cfg.sprintf(inp[k + 1..i])), inp[i + 1..])
  }

  function ReadBlob(cfg: Config, inp: Bytes, size: int): (r: Result<Value>)
    ensures r.Ok? ==> r.Consumed(inp)
    ensures r.Format? ==> |r.rest| <= |inp|
  {
    if size > cfg.maxBlob then Format(inp)
    else if size < 0 then Panic
    else if |inp| <= size then IO
    else if inp[size] != LF then Format(inp[size + 1..])
    else Ok(Blob(inp[..size]), inp[size + 1..])
  }

  function ReadInteger(inp: Bytes): (r: Result<Value>)
    ensures r.Ok? ==> r.Consumed(inp)
    ensures r.Format? ==> |r.rest| <= |inp|
  {
    match ReadSize(inp)
    case Ok(n, rest) => Ok(Int(n), rest)
    case Format(rest) => Format(rest)
    case _ => IO
  }

  function ReadSizedBlob(cfg: Config, inp: Bytes): (r: Result<Value>)
    ensures r.Ok? ==> r.Consumed(inp)
    ensures r.Format? ==> |r.rest| <= |inp|
  {
    match ReadSize(inp)
    case Ok(size, rest) => ReadBlob(cfg, rest, size)
    case Format(rest) => Format(rest)
    case _ => IO
  }

  /** One value. Every outcome that lets reading go on has consumed at least one byte. */
  function ReadValue(cfg: Config, inp: Bytes, canBeTag: bool): (r: Result<Value>)
    ensures r.Consumed(inp)
    decreases |inp|, 0
  {
    if inp == [] then IO else ReadBody(cfg, inp[0], inp[1..], canBeTag)
  }

  function ReadBody(cfg: Config, mark: byte, body: Bytes, canBeTag: bool): (r: Result<Value>)
    ensures r.Ok? || r.Format? ==> |r.rest| <= |body|
    decreases |body|, 4
  {
    if mark == NULL_MARK then ReadNull(body)
    else if mark == BOOL_MARK then ReadBoolean(body)
    else if mark == STRING_MARK then ReadString(body)
    else if mark == ERROR_MARK then ReadError(cfg, body)
    else if mark == TAG_MARK then ReadTagged(cfg, body, canBeTag)
    else if mark == TABLE_MARK then ReadTable(cfg, body)
    else if mark == ARRAY_MARK then ReadArray(cfg, body)
    else if mark == BLOB_MARK then ReadSizedBlob(cfg, body)
    else if mark == INT_MARK then ReadInteger(body)
    else Format(body)
  }

  function ReadTagged(cfg: Config, inp: Bytes, canBeTag: bool): (r: Result<Value>)
    ensures r.Ok? || r.Format? ==> |r.rest| <= |inp|
    decreases |inp|, 3
  {
    if !canBeTag then Format(inp)
    else
      var i := IndexOf(inp, LF);
      if i == |inp| then IO
      else
        match ReadValue(cfg, inp[i + 1..], false)
        case Ok(v, rest) => Ok(Tagged(inp[..i], v), rest)
        case other => other
  }

  function ReadArray(cfg: Config, inp: Bytes): (r: Result<Value>)
    ensures r.Ok? || r.Format? ==> |r.rest| <= |inp|
    decreases |inp|, 3
  {
    match ReadSize(inp)
    case Ok(size, rest) => ReadElements(cfg, rest, size)
    case Format(rest) => Format(rest)
    case _ => IO
  }

  function ReadElements(cfg: Config, inp: Bytes, size: int): (r: Result<Value>)
    ensures r.Ok? || r.Format? ==> |r.rest| <= |inp|
    decreases |inp|, 2
  {
    if size < 0 then Panic
    else
      match ReadMany(cfg, inp, size)
      case Ok(vs, rest) => Ok(Arr(vs), rest)
      case Format(rest) => Format(rest)
      case IO => IO
      case Panic => Panic
  }

  function ReadTable(cfg: Config, inp: Bytes): (r: Result<Value>)
    ensures r.Ok? || r.Format? ==> |r.rest| <= |inp|
    decreases |inp|, 3
  {
    match ReadTableSize(inp)
    case Ok((rows, cols), rest) => ReadCells(cfg, rest, rows, cols)
    case Format(rest) => Format(rest)
    case _ => IO
  }

  /** Rows of no cells are read without consuming anything, and `Table.Add` counts only the last one. */
  function ReadCells(cfg: Config, inp: Bytes, rows: int, cols: int): (r: Result<Value>)
    ensures r.Ok? || r.Format? ==> |r.rest| <= |inp|
    decreases |inp|, 2
  {
    if rows <= 0 then Ok(Table(0, cols, []), inp)
    else if cols < 0 then Panic
    else
      match ReadMany(cfg, inp, rows * cols)
      case Ok(cells, rest) => Ok(Table(if cols == 0 then 1 else rows, cols, cells), rest)
      case Format(rest) => Format(rest)
      case IO => IO
      case Panic => Panic
  }

  /** `n` values in a row, none of them tagged. */
  function ReadMany(cfg: Config, inp: Bytes, n: nat): (r: Result<seq<Value>>)
    ensures r.Ok? ==> |r.value| == n && |r.rest| + n <= |inp|
    ensures r.Format? ==> |r.rest| <= |inp|
    decreases |inp|, 1, n
  {
    if n == 0 then Ok([], inp)
    else
      match ReadValue(cfg, inp, false)
      case Ok(v, rest) => Prepend([v], ReadMany(cfg, rest, n - 1))
      case Format(rest) => Format(rest)
      case IO => IO
      case Panic => Panic
  }

  function Prepend(vs: seq<Value>, r: Result<seq<Value>>): Result<seq<Value>> {
    match r
    case Ok(ws, rest) => Ok(vs + ws, rest)
    case other => other
  }

  function Read(cfg: Config, inp: Bytes): Result<Value> {
    ReadValue(cfg, inp, true)
  }

  // What survives a round trip

  /** The values that are read back as they were printed. `top` says that a tag is allowed here. */
  predicate Printable(cfg: Config, v: Value, top: bool)
    decreases v, 0
  {
    match v
    case Null => true
    case Bool(_) => true
    case Str(s) => LF !in s
    case Err(code, msg) => LF !in code && SPACE !in code && LF !in msg && cfg.sprintf(msg) == msg
    case Int(n) => IsInt64(n)
    case Blob(data) => |data| <= cfg.maxBlob && IsInt64(|data|)
    case Arr(vs) => IsInt64(|vs|) && AllPrintable(cfg, vs)
    case Table(rows, cols, cells) =>
      && IsInt64(rows) && IsInt64(cols)
      && TableShape(rows, cols, |cells|)
      && AllPrintable(cfg, cells)
    case Tagged(tag, inner) => top && LF !in tag && Printable(cfg, inner, false)
    case Map(_, _) => false
  }

  predicate AllPrintable(cfg: Config, vs: seq<Value>)
    decreases vs, 1
  {
    vs == [] || (Printable(cfg, vs[0], false) && AllPrintable(cfg, vs[1..]))
  }

  predicate TableShape(rows: int, cols: int, cells: nat) {
    || (rows == 0 && cells == 0)
    || (rows == 1 && cols == 0 && cells == 0)
    || (rows >= 1 && cols >= 1 && cells == rows * cols)
  }
}
