/** The forms of the protocol document, byte for byte: what each kind of value is printed as, and that the
    document's own examples are read as what they show, whatever follows them. */
module WireForms {
  import opened ByteStrings
  import opened Wire
  import opened WireLaws

  /** A character of the document. */
  function C(c: char): Bytes
    requires c < 128 as char
  {
    [c as int]
  }

  lemma LeafForms(s: Bytes, code: Bytes, msg: Bytes, n: int, data: Bytes)
    ensures Print(Str(s)) == C('+') + s + C('\n')
    ensures Print(Err(code, msg)) == C('-') + code + C(' ') + msg + C('\n')
    ensures Print(Int(n)) == C(':') + Itoa(n) + C('\n')
    ensures Print(Blob(data)) == C('$') + Itoa(|data|) + C('\n') + data + C('\n')
    ensures Print(Bool(true)) == C('#') + C('t') + C('\n')
    ensures Print(Bool(false)) == C('#') + C('f') + C('\n')
    ensures Print(Null) == C('_') + C('\n')
  {
  }

  lemma ArrayForm(vs: seq<Value>)
    ensures Print(Arr(vs)) == C('*') + Itoa(|vs|) + C('\n') + PrintAll(vs)
  {
  }

  lemma TableForm(rows: int, cols: int, cells: seq<Value>)
    ensures Print(Table(rows, cols, cells))
         == C('=') + Itoa(rows) + C(',') + Itoa(cols) + C('\n') + PrintAll(cells)
  {
  }

  lemma TagForm(tag: Bytes, v: Value)
    ensures Print(Tagged(tag, v)) == C('@') + tag + C('\n') + Print(v)
  {
  }

  lemma MapForm(keys: seq<Bytes>, vals: seq<Value>)
    ensures Print(Map(keys, vals)) == C('%') + Itoa(|keys|) + C('\n') + PrintEntries(keys, vals)
  {
  }

  lemma ElementsForm(v: Value, vs: seq<Value>)
    ensures PrintAll([v] + vs) == Print(v) + PrintAll(vs)
    ensures PrintAll([]) == []
  {
    assert ([v] + vs)[1..] == vs;
  }

  lemma SmallNumerals()
    ensures Itoa(2) == C('2') && Itoa(3) == C('3') && Itoa(5) == C('5') && Itoa(42) == C('4') + C('2')
  {
  }

  // The document's examples

  lemma StringExample(cfg: Config, text: Bytes, s: Bytes)
    requires LF !in text
    ensures Read(cfg, C('+') + text + C('\n') + s) == Ok(Str(text), s)
  {
    LeafForms(text, [], [], 0, []);
    RoundTrip(cfg, Str(text), true, s);
  }

  lemma ErrorExample(cfg: Config, code: Bytes, msg: Bytes, s: Bytes)
    requires LF !in code && SPACE !in code && LF !in msg && cfg.sprintf(msg) == msg
    ensures Read(cfg, C('-') + code + C(' ') + msg + C('\n') + s) == Ok(Err(code, msg), s)
  {
    LeafForms([], code, msg, 0, []);
    RoundTrip(cfg, Err(code, msg), true, s);
  }

  lemma BlobExample(cfg: Config, data: Bytes, s: Bytes)
    requires |data| == 5 <= cfg.maxBlob
    ensures Read(cfg, C('$') + C('5') + C('\n') + data + C('\n') + s) == Ok(Blob(data), s)
  {
    LeafForms([], [], [], 0, data);
    SmallNumerals();
    RoundTrip(cfg, Blob(data), true, s);
  }

  lemma BooleanExamples(cfg: Config, s: Bytes)
    ensures Read(cfg, C('#') + C('t') + C('\n') + s) == Ok(Bool(true), s)
    ensures Read(cfg, C('#') + C('f') + C('\n') + s) == Ok(Bool(false), s)
  {
    LeafForms([], [], [], 0, []);
    RoundTrip(cfg, Bool(true), true, s);
    RoundTrip(cfg, Bool(false), true, s);
  }

  lemma IntegerAndNullExamples(cfg: Config, s: Bytes)
    ensures Read(cfg, C(':') + (C('4') + C('2')) + C('\n') + s) == Ok(Int(42), s)
    ensures Read(cfg, C('_') + C('\n') + s) == Ok(Null, s)
  {
    LeafForms([], [], [], 42, []);
    SmallNumerals();
    RoundTrip(cfg, Int(42), true, s);
    RoundTrip(cfg, Null, true, s);
  }

  lemma TwoStrings(a: Bytes, b: Bytes)
    ensures PrintAll([Str(a), Str(b)]) == (C('+') + a + C('\n')) + (C('+') + b + C('\n'))
  {
    LeafForms(a, [], [], 0, []);
    LeafForms(b, [], [], 0, []);
    ElementsForm(Str(b), []);
    ElementsForm(Str(a), [Str(b)]);
    assert [Str(a)] + [Str(b)] == [Str(a), Str(b)];
    assert [Str(b)] + [] == [Str(b)];
  }

  lemma TwoPrintable(cfg: Config, v: Value, w: Value)
    requires Printable(cfg, v, false) && Printable(cfg, w, false)
    ensures AllPrintable(cfg, [v, w])
  {
    var (two, one) := ([v, w], [w]);
    assert |one[1..]| == 0 && AllPrintable(cfg, one);
    assert two[1..] == one;
  }

  lemma ArrayExample(cfg: Config, a: Bytes, b: Bytes, s: Bytes)
    requires LF !in a && LF !in b
    ensures Read(cfg, C('*') + C('2') + C('\n') + ((C('+') + a + C('\n')) + (C('+') + b + C('\n'))) + s)
         == Ok(Arr([Str(a), Str(b)]), s)
  {
    ArrayForm([Str(a), Str(b)]);
    SmallNumerals();
    TwoStrings(a, b);
    TwoPrintable(cfg, Str(a), Str(b));
    RoundTrip(cfg, Arr([Str(a), Str(b)]), true, s);
  }

  /** Two rows of three columns: the cells come row by row. */
  lemma TableExample(cfg: Config, cells: seq<Value>, s: Bytes)
    requires |cells| == 6 && AllPrintable(cfg, cells)
    ensures Read(cfg, C('=') + C('2') + C(',') + C('3') + C('\n') + PrintAll(cells) + s)
         == Ok(Table(2, 3, cells), s)
  {
    TableForm(2, 3, cells);
    SmallNumerals();
    RoundTrip(cfg, Table(2, 3, cells), true, s);
  }

  lemma TagExample(cfg: Config, text: Bytes, s: Bytes)
    requires LF !in text
    ensures Read(cfg, C('@') + (C('2') + C('2')) + C('\n') + (C('+') + text + C('\n')) + s)
         == Ok(Tagged(C('2') + C('2'), Str(text)), s)
  {
    TagForm(C('2') + C('2'), Str(text));
    LeafForms(text, [], [], 0, []);
    RoundTrip(cfg, Tagged(C('2') + C('2'), Str(text)), true, s);
  }
}
