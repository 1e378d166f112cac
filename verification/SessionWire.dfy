/** What a client sees on the connection of a session, and when it sees exactly what was written. */
module SessionWire {
  import opened ByteStrings
  import opened Wire
  import WireLaws
  import WireExact
  import ReadLoop
  import opened SessionModel
  import opened SessionSlots
  import opened SessionBuffers
  import opened SessionRuns

  /** The value that goes to the connection: a stream's values are tagged with its id. */
  function OnWire(streams: seq<Stream>, e: Emission): Value {
    match e
    case Response(v) => v
    case StreamFrame(i, v) => if i < |streams| then Tagged(Itoa(streams[i].id), v) else v
  }

  function WireValues(s: State): seq<Value> {
    seq(|s.out|, j requires 0 <= j < |s.out| => OnWire(s.streams, s.out[j]))
  }

  /** The responses and the error texts are the only values on the connection that may not be printable. */
  ghost predicate PrintableTexts(client: Config, out: seq<Emission>) {
    forall e :: e in out ==> PrintableText(client, e)
  }

  predicate PrintableText(client: Config, e: Emission) {
    e.Response? || e.v.Err? ==> Printable(client, e.v, e.Response?)
  }

  /** A client that reads the bytes of the connection sees exactly the values that were written, if and only
      if the responses and the wording of errors can be printed; chunks and closing nulls always can. */
  lemma ClientReadsWhatWasWritten(k: Params, client: Config, run: seq<State>, q: nat)
    requires k.dataCap == 0 && Run(k, run) && q < |run| && client.maxBlob >= CHUNK
    requires WireExact.AddsNoLineFeed(client)
    ensures ReadLoop.Events(client, PrintAll(WireValues(run[q]))).0 == ReadLoop.Arrivals(WireValues(run[q]))
       <==> PrintableTexts(client, run[q].out)
  {
    InvThroughout(k, run, q);
    ReadLoop.ArriveIffPrintable(client, WireValues(run[q]));
    PrintableIffTexts(client, run[q]);
  }

  lemma PrintableIffTexts(client: Config, s: State)
    requires TableInv(s) && BufferInv(s) && client.maxBlob >= CHUNK
    ensures WireLaws.AllPrintableAtTop(client, WireValues(s)) <==> PrintableTexts(client, s.out)
  {
    var values := WireValues(s);
    forall j | 0 <= j < |values|
      ensures values[j] == OnWire(s.streams, s.out[j])
      ensures Printable(client, values[j], true) <==> PrintableText(client, s.out[j])
    {
      EmissionIsPrintable(client, s, j);
    }
    if WireLaws.AllPrintableAtTop(client, values) {
      forall e | e in s.out
        ensures PrintableText(client, e)
      {
        var j :| 0 <= j < |s.out| && s.out[j] == e;
        assert Printable(client, values[j], true);
      }
    }
  }

  lemma EmissionIsPrintable(client: Config, s: State, j: nat)
    requires TableInv(s) && BufferInv(s) && client.maxBlob >= CHUNK && j < |s.out|
    ensures Printable(client, OnWire(s.streams, s.out[j]), true) <==> PrintableText(client, s.out[j])
  {
    if s.out[j].StreamFrame? {
      EmittedIsSmall(s, j);
      FrameIsPrintable(client, s.streams[s.out[j].i].id, s.out[j].v);
    }
  }

  lemma FrameIsPrintable(client: Config, id: nat, v: Value)
    requires client.maxBlob >= CHUNK && id < SLOTS
    requires v.Err? || v == Null || (v.Blob? && |v.data| <= CHUNK)
    ensures Printable(client, Tagged(Itoa(id), v), true) <==> (v.Err? ==> Printable(client, v, false))
  {
    AtoiItoa(id);
  }

  lemma EmittedIsSmall(s: State, j: nat)
    requires TableInv(s) && BufferInv(s) && j < |s.out| && s.out[j].StreamFrame?
    ensures s.out[j].i < |s.streams| && s.streams[s.out[j].i].id < SLOTS
    ensures s.out[j].v.Err? || s.out[j].v == Null || (s.out[j].v.Blob? && |s.out[j].v.data| <= CHUNK)
  {
    var i := s.out[j].i;
    FrameIsListed(s.out, j);
    var frames := FramesOf(s.out, i);
    assert StreamInv(s.streams[i], frames, HeldFrom(s.writer, i), Copied(s.writer));
    FramesFitAlways(s.streams[i], frames, HeldFrom(s.writer, i), Copied(s.writer));
  }

  lemma {:induction false} FrameIsListed(out: seq<Emission>, j: nat)
    requires j < |out| && out[j].StreamFrame?
    ensures out[j].v in FramesOf(out, out[j].i)
  {
    if j < |out| - 1 {
      FrameIsListed(out[..|out| - 1], j);
    }
  }
}
