/** The reader goroutine's loop over a connection that delivers a given byte sequence and then ends. */
module ReadLoop {
  import opened ByteStrings
  import opened Wire
  import WireLaws
  import WireExact
  import WireReader

  datatype Event = Received(v: Value) | Malformed

  datatype Ending = ConnectionLost | SessionOver | Crashed

  /** What the loop meets: values and format errors, until a read ends it. */
  function Events(cfg: Config, inp: Bytes): (e: (seq<Event>, Ending))
    ensures |e.0| <= |inp|
    decreases |inp|
  {
    match Read(cfg, inp)
    case Ok(v, rest) => Then(Received(v), Events(cfg, rest))
    case Format(rest) => Then(Malformed, Events(cfg, rest))
    case IO => ([], ConnectionLost)
    case Panic => ([], Crashed)
  }

  /** The same when `inp` has arrived before the read deadline passes, and `later` after it, piece by piece. A
      deadline inside a size line is a format error after which reading goes on. `stopped(j)` says that the
      session is over at the j-th look. */
  function EventsOver(cfg: Config, inp: Bytes, later: seq<Bytes>, stopped: nat -> bool, j: nat)
    : (e: (seq<Event>, Ending))
    ensures |e.0| <= |inp| + Total(later)
    decreases |inp| + Total(later), |later|
  {
    if stopped(j) then ([], SessionOver)
    else
      match Read(cfg, inp)
      case Ok(v, rest) => Then(Received(v), EventsOver(cfg, rest, later, stopped, j + 1))
      case Format(rest) =>
        Then(Malformed,
             if rest == [] && later != [] then EventsOver(cfg, later[0], later[1..], stopped, j + 1)
             else EventsOver(cfg, rest, later, stopped, j + 1))
      case IO => ([], ConnectionLost)
      case Panic => ([], Crashed)
  }

  function Total(parts: seq<Bytes>): nat {
    if parts == [] then 0 else |parts[0]| + Total(parts[1..])
  }

  /** Without deadlines and stops the loop meets what one input gives. */
  lemma {:induction false} UndisturbedEvents(cfg: Config, inp: Bytes, stopped: nat -> bool, j: nat)
    requires forall i: nat :: !stopped(i)
    ensures EventsOver(cfg, inp, [], stopped, j) == Events(cfg, inp)
    decreases |inp|
  {
    match Read(cfg, inp)
    case Ok(_, rest) => UndisturbedEvents(cfg, rest, stopped, j + 1);
    case Format(rest) => UndisturbedEvents(cfg, rest, stopped, j + 1);
    case _ =>
  }

  function Then(e: Event, later: (seq<Event>, Ending)): (seq<Event>, Ending) {
    ([e] + later.0, later.1)
  }

  lemma ThenConcat(es: seq<Event>, e: Event, later: (seq<Event>, Ending))
    ensures es + Then(e, later).0 == es + [e] + later.0
  {
  }

  /** The loop ends after at most one read more than there are bytes, and goes on after a format error. */
  method HandleReads(reader: WireReader.Reader, later: seq<Bytes>, stopped: nat -> bool)
    returns (events: seq<Event>, ending: Ending, count: nat)
    modifies reader
    ensures (events, ending) == EventsOver(reader.cfg, old(reader.r), later, stopped, 0)
    ensures |events| <= count <= |events| + 1 <= |old(reader.r)| + Total(later) + 1
  {
    var coming := later;
    events, count := [], 0;
    ghost var all := EventsOver(reader.cfg, reader.r, later, stopped, 0);
    assert [] + all.0 == all.0;
    while true
      invariant all.0 == events + EventsOver(reader.cfg, reader.r, coming, stopped, count).0
      invariant all.1 == EventsOver(reader.cfg, reader.r, coming, stopped, count).1
      invariant count == |events|
      decreases |reader.r| + Total(coming)
    {
      if stopped(count) {
        assert events + [] == events;
        return events, SessionOver, count;
      }
      var value := reader.ReadOne(true);
      count := count + 1;
      match value
      case Done(v) =>
        ThenConcat(events, Received(v), EventsOver(reader.cfg, reader.r, coming, stopped, count));
        events := events + [Received(v)];
      case Failed(ErrFormat) =>
        if reader.r == [] && coming != [] {
          reader.r, coming := coming[0], coming[1..];
        }
        ThenConcat(events, Malformed, EventsOver(reader.cfg, reader.r, coming, stopped, count));
        events := events + [Malformed];
      case Failed(ErrIO) =>
        assert events + [] == events;
        return events, ConnectionLost, count;
      case Failed(NegativeSize) =>
        assert events + [] == events;
        return events, Crashed, count;
    }
  }

  function Arrivals(vs: seq<Value>): seq<Event> {
    seq(|vs|, i requires 0 <= i < |vs| => Received(vs[i]))
  }

  /** Pipelined printed values all arrive, in order, and nothing else does. */
  lemma {:induction false} PrintedValuesArrive(cfg: Config, vs: seq<Value>)
    requires WireLaws.AllPrintableAtTop(cfg, vs)
    ensures Events(cfg, PrintAll(vs)) == (Arrivals(vs), ConnectionLost)
  {
    if vs == [] {
      assert Arrivals(vs) == [];
    } else {
      WireLaws.RoundTrip(cfg, vs[0], true, PrintAll(vs[1..]));
      PrintedValuesArrive(cfg, vs[1..]);
      assert Arrivals(vs) == [Received(vs[0])] + Arrivals(vs[1..]);
    }
  }

  /** Exactly the printable sequences arrive as they were sent. */
  lemma {:induction false} ArriveIffPrintable(cfg: Config, vs: seq<Value>)
    requires WireExact.AddsNoLineFeed(cfg)
    ensures Events(cfg, PrintAll(vs)).0 == Arrivals(vs) <==> WireLaws.AllPrintableAtTop(cfg, vs)
  {
    if WireLaws.AllPrintableAtTop(cfg, vs) {
      PrintedValuesArrive(cfg, vs);
    }
    if vs != [] && Events(cfg, PrintAll(vs)).0 == Arrivals(vs) {
      var others := PrintAll(vs[1..]);
      FirstArrives(cfg, vs);
      WireExact.RoundTripIffPrintable(cfg, vs[0], others);
      assert Events(cfg, PrintAll(vs)) == Then(Received(vs[0]), Events(cfg, others));
      assert Events(cfg, others).0 == Arrivals(vs)[1..] == Arrivals(vs[1..]);
      ArriveIffPrintable(cfg, vs[1..]);
      assert vs == [vs[0]] + vs[1..];
    }
  }

  lemma FirstArrives(cfg: Config, vs: seq<Value>)
    requires vs != [] && Events(cfg, PrintAll(vs)).0 == Arrivals(vs)
    ensures WireExact.Gives(Read(cfg, Print(vs[0]) + PrintAll(vs[1..])), vs[0])
  {
    assert PrintAll(vs) == Print(vs[0]) + PrintAll(vs[1..]);
    assert Events(cfg, PrintAll(vs)).0[0] == Received(vs[0]);
  }

  /** Every blob in what arrives is within the limit. */
  lemma {:induction false} BlobsArriveWithinLimit(cfg: Config, inp: Bytes, later: seq<Bytes>, stopped: nat -> bool,
                                                  j: nat)
    ensures forall e :: e in EventsOver(cfg, inp, later, stopped, j).0 && e.Received? ==>
      WireLaws.BlobsWithin(e.v, cfg.maxBlob)
    decreases |inp| + Total(later), |later|
  {
    if !stopped(j) {
      match Read(cfg, inp)
      case Ok(_, rest) =>
        WireLaws.BlobLimitHolds(cfg, inp, true);
        BlobsArriveWithinLimit(cfg, rest, later, stopped, j + 1);
      case Format(rest) =>
        if rest == [] && later != [] {
          BlobsArriveWithinLimit(cfg, later[0], later[1..], stopped, j + 1);
        } else {
          BlobsArriveWithinLimit(cfg, rest, later, stopped, j + 1);
        }
      case _ =>
    }
  }
}
