/** Why the server's own answers need not be printable: a client that sends a single line feed is told about the
    unexpected symbol in a text that ends with that symbol, and cannot read the answer. */
module StrayLineFeed {
  import opened ByteStrings
  import opened Wire
  import WireLaws
  import WireExact
  import ReadLoop
  import opened SessionModel
  import opened SessionStart
  import opened SessionWire

  /** The answer of the reader, worded by `text`, as the worker passes it on. */
  function Answer(cfg: Config, text: Bytes): Value {
    Err(Ascii("PROTO"), cfg.sprintf(text))
  }

  lemma LineFeedIsMalformed(cfg: Config)
    ensures Read(cfg, [LF]) == Format([])
  {
    var inp: Bytes := [LF];
    assert inp[1..] == [];
    assert ReadBody(cfg, LF, [], true) == Format([]);
  }

  lemma AnswerIsQueued(k: Params, text: Bytes) returns (run: seq<State>)
    ensures Run(k, run) && Last(run).input == [] && Last(run).streams == []
    ensures Last(run).commands == [Ready(Answer(k.cfg, text))] && Last(run).worker == Selecting
    ensures Last(run).cmdOut == [] && Last(run).out == [] && Last(run).writer == WriteTop && !Last(run).done
  {
    run := [Start([LF], map[])];
    LineFeedIsMalformed(k.cfg);
    run := Extend(k, run, ByReader(ReadNext(text)));
    run := Extend(k, run, ByReader(PushItem));
    run := Extend(k, run, ByWorker(WorkerLook));
  }

  lemma AnswerIsSent(k: Params, text: Bytes) returns (run: seq<State>)
    ensures Run(k, run) && Last(run).input == [] && Last(run).streams == []
    ensures Last(run).cmdOut == [Answer(k.cfg, text)] && Last(run).out == [] && Last(run).writer == WriteTop
    ensures !Last(run).done
  {
    run := AnswerIsQueued(k, text);
    run := Extend(k, run, ByWorker(TakeCommand));
    run := Extend(k, run, ByWorker(PushReply));
  }

  lemma AnswerIsWritten(k: Params, text: Bytes) returns (run: seq<State>)
    ensures Run(k, run) && Last(run).out == [Response(Answer(k.cfg, text))]
  {
    run := AnswerIsSent(k, text);
    run := Extend(k, run, ByWriter(WriterLook));
    run := Extend(k, run, ByWriter(TakeReply));
    run := Extend(k, run, ByWriter(Emit));
  }

  /** The client sees what was written exactly if the wording can be printed. */
  lemma AnswerIsReadIffPrintable(k: Params, client: Config, text: Bytes) returns (run: seq<State>)
    requires k.dataCap == 0 && client.maxBlob >= CHUNK && WireExact.AddsNoLineFeed(client)
    ensures run != [] && Run(k, run) && Last(run).out == [Response(Answer(k.cfg, text))]
    ensures ReadLoop.Events(client, PrintAll(WireValues(Last(run)))).0 == ReadLoop.Arrivals(WireValues(Last(run)))
       <==> Printable(client, Answer(k.cfg, text), true)
  {
    run := AnswerIsWritten(k, text);
    ClientReadsWhatWasWritten(k, client, run, |run| - 1);
    var e := Response(Answer(k.cfg, text));
    assert e in Last(run).out;
    assert PrintableText(client, e) ==> PrintableTexts(client, Last(run).out);
  }

  /** Any wording that holds the symbol, and no percent sign. */
  predicate Quotes(text: Bytes) {
    LF in text && PERCENT !in text
  }

  /** The code words the error with the symbol itself, so no client sees what was written. */
  lemma AnswerIsMisread(k: Params, client: Config, text: Bytes) returns (run: seq<State>)
    requires k.dataCap == 0 && client.maxBlob >= CHUNK && WireExact.AddsNoLineFeed(client)
    requires WireLaws.FormatsLikeSprintf(k.cfg) && Quotes(text)
    ensures run != [] && Run(k, run) && !PrintableTexts(client, Last(run).out)
    ensures ReadLoop.Events(client, PrintAll(WireValues(Last(run)))).0 != ReadLoop.Arrivals(WireValues(Last(run)))
  {
    run := AnswerIsReadIffPrintable(k, client, text);
    assert Response(Answer(k.cfg, text)) in Last(run).out;
  }
}
