/** What becomes of everything that a client sends: in a run that no deadline interrupts, each value is either a
    frame for a live write stream or an item for the worker, in order, and each format error is answered, so that
    pipelined commands are all answered in turn. */
module SessionDispatch {
  import opened ByteStrings
  import opened Wire
  import WireLaws
  import opened ReadLoop
  import opened SessionModel
  import opened SessionFootprints
  import opened SessionSlots
  import opened SessionReplies
  import opened SessionRouting
  import SessionRuns

  datatype Outcome = Produced(item: Item) | SentTo(i: nat, frame: Frame)

  /** A command is passed on as it is, a frame goes to the stream that has the id it names, and everything else is
      refused. */
  ghost predicate Fits(streams: seq<Stream>, e: Event, o: Outcome) {
    match (e, o)
    case (Malformed, Produced(item)) => item.Ready? && IsBreach(item.response)
    case (Received(v), Produced(item)) =>
      if IsCommand(v) then item == Command(v.vs) else item.Ready? && Refuses(v, item.response)
    case (Received(v), SentTo(i, f)) =>
      i < |streams| && streams[i].body.Writes? && AsFrame(v) == Some((streams[i].id as int, f))
    case _ => false
  }

  function ItemsOf(os: seq<Outcome>): seq<Item> {
    if os == [] then []
    else
      var (front, last) := (os[..|os| - 1], os[|os| - 1]);
      ItemsOf(front) + (if last.Produced? then [last.item] else [])
  }

  function FramesTo(os: seq<Outcome>, i: nat): seq<Frame> {
    if os == [] then []
    else
      var (front, last) := (os[..|os| - 1], os[|os| - 1]);
      FramesTo(front, i) + (if last.SentTo? && last.i == i then [last.frame] else [])
  }

  lemma OutcomesAppend(os: seq<Outcome>, o: Outcome, i: nat)
    ensures ItemsOf(os + [o]) == ItemsOf(os) + (if o.Produced? then [o.item] else [])
    ensures FramesTo(os + [o], i) == FramesTo(os, i) + (if o.SentTo? && o.i == i then [o.frame] else [])
  {
    assert (os + [o])[..|os|] == os;
  }

  lemma {:induction false} NothingSentTo(os: seq<Outcome>, i: nat)
    requires forall j :: 0 <= j < |os| && os[j].SentTo? ==> os[j].i != i
    ensures FramesTo(os, i) == []
  {
    if os != [] {
      NothingSentTo(os[..|os| - 1], i);
    }
  }

  function Pending(pc: ReaderPc, i: nat): seq<Frame> {
    if pc.Routing? && pc.i == i then [pc.frame] else []
  }

  /** The reader stands behind the events that have had their outcomes. */
  ghost predicate StandsBehind(cfg: Config, s: State, es: seq<Event>, m: nat) {
    && m <= |es|
    && match s.reader
       case Got(v) => m < |es| && es[m] == Received(v) && Events(cfg, s.input).0 == es[m + 1..]
       case ReaderGone => true
       case _ => Events(cfg, s.input).0 == es[m..]
  }

  ghost predicate AllFit(s: State, es: seq<Event>, os: seq<Outcome>)
    requires |os| <= |es|
  {
    forall j :: 0 <= j < |os| ==> Fits(s.streams, es[j], os[j])
  }

  ghost predicate FramesAre(s: State, os: seq<Outcome>) {
    && (s.reader.Routing? ==> s.reader.i < |s.streams|)
    && forall i :: 0 <= i < |s.streams| && s.streams[i].body.Writes? ==>
      FramesTo(os, i) == RoutedTo(s, i) + Pending(s.reader, i)
  }

  /** `os` says what has become of the events handled so far. */
  ghost predicate Explains(cfg: Config, s: State, es: seq<Event>, os: seq<Outcome>) {
    && StandsBehind(cfg, s, es, |os|) && AllFit(s, es, os)
    && s.produced == ItemsOf(os) && FramesAre(s, os)
  }

  ghost predicate Explained(cfg: Config, s: State, es: seq<Event>) {
    exists os :: Explains(cfg, s, es, os)
  }

  // Reader

  lemma NextEvent(cfg: Config, inp: Bytes)
    ensures match Read(cfg, inp)
      case Ok(v, rest) => Events(cfg, inp).0 == [Received(v)] + Events(cfg, rest).0
      case Format(rest) => Events(cfg, inp).0 == [Malformed] + Events(cfg, rest).0
      case _ => Events(cfg, inp).0 == []
  {
  }

  lemma ReadExplains(k: Params, s: State, text: Bytes, es: seq<Event>, os: seq<Outcome>)
    requires Explains(k.cfg, s, es, os) && ReaderEnabled(k, s, ReadNext(text))
    ensures Explained(k.cfg, ReaderNext(k, s, ReadNext(text)), es)
  {
    var (t, m) := (ReaderNext(k, s, ReadNext(text)), |os|);
    ReaderFootprint(k, s, ReadNext(text));
    NextEvent(k.cfg, s.input);
    if Read(k.cfg, s.input).Format? {
      MalformedExplains(k, s, t, es, os);
    } else {
      assert Read(k.cfg, s.input).Ok? ==> es[m] == es[m..][0] && es[m + 1..] == es[m..][1..];
      assert Explains(k.cfg, t, es, os);
    }
  }

  lemma MalformedExplains(k: Params, s: State, t: State, es: seq<Event>, os: seq<Outcome>)
    requires Explains(k.cfg, s, es, os) && s.reader == ReadTop && Read(k.cfg, s.input).Format?
    requires t.reader.Pushing? && t.reader.item.Ready? && IsBreach(t.reader.item.response)
    requires t.streams == s.streams && t.produced == s.produced + [t.reader.item]
    requires t.input == Read(k.cfg, s.input).rest
    ensures Explained(k.cfg, t, es)
  {
    var (m, o) := (|os|, Produced(t.reader.item));
    NextEvent(k.cfg, s.input);
    assert es[m] == es[m..][0] && es[m + 1..] == es[m..][1..];
    FramesGrow(s, t, os, o);
    OutcomesAppend(os, o, 0);
    OneMoreFits(s, t, es, os, o);
    assert Explains(k.cfg, t, es, os + [o]);
  }

  lemma DispatchExplains(k: Params, s: State, text: Bytes, es: seq<Event>, os: seq<Outcome>)
    requires TableInv(s) && Explains(k.cfg, s, es, os) && ReaderEnabled(k, s, Dispatch(text))
    ensures Explained(k.cfg, ReaderNext(k, s, Dispatch(text)), es)
  {
    var t := ReaderNext(k, s, Dispatch(text));
    var o := DispatchHasOutcome(k, s, text);
    FramesGrow(s, t, os, o);
    OutcomesAppend(os, o, 0);
    OneMoreFits(s, t, es, os, o);
    assert Explains(k.cfg, t, es, os + [o]);
  }

  lemma FramesGrow(s: State, t: State, os: seq<Outcome>, o: Outcome)
    requires FramesAre(s, os) && !s.reader.Routing? && t.streams == s.streams
    requires if o.SentTo? then o.i < |s.streams| && t.reader == Routing(o.i, o.frame) else t.reader.Pushing?
    ensures FramesAre(t, os + [o])
  {
    forall i | 0 <= i < |s.streams| && s.streams[i].body.Writes?
      ensures FramesTo(os + [o], i) == RoutedTo(t, i) + Pending(t.reader, i)
    {
      OutcomesAppend(os, o, i);
    }
  }

  lemma OneMoreFits(s: State, t: State, es: seq<Event>, os: seq<Outcome>, o: Outcome)
    requires |os| < |es| && AllFit(s, es, os) && t.streams == s.streams && Fits(s.streams, es[|os|], o)
    ensures AllFit(t, es, os + [o])
  {
    forall j | 0 <= j < |os|
      ensures Fits(t.streams, es[j], (os + [o])[j])
    {
      assert Fits(s.streams, es[j], os[j]);
    }
  }

  lemma DispatchHasOutcome(k: Params, s: State, text: Bytes) returns (o: Outcome)
    requires TableInv(s) && ReaderEnabled(k, s, Dispatch(text))
    ensures var t := ReaderNext(k, s, Dispatch(text));
      && t.streams == s.streams && t.input == s.input
      && Fits(s.streams, Received(s.reader.v), o)
      && t.produced == s.produced + (if o.Produced? then [o.item] else [])
      && (if o.SentTo? then t.reader == Routing(o.i, o.frame) else t.reader.Pushing?)
  {
    var pc := Route(k.cfg, s, s.reader.v, text);
    if pc.Routing? {
      assert Owns(s, pc.i, AsFrame(s.reader.v).value.0);
      o := SentTo(pc.i, pc.frame);
    } else {
      o := Produced(pc.item);
    }
  }

  lemma PushFrameExplains(k: Params, s: State, es: seq<Event>, os: seq<Outcome>)
    requires Explains(k.cfg, s, es, os) && ReaderEnabled(k, s, PushFrame)
    ensures Explains(k.cfg, ReaderNext(k, s, PushFrame), es, os)
  {
    var t := ReaderNext(k, s, PushFrame);
    forall i | 0 <= i < |t.streams| && t.streams[i].body.Writes?
      ensures FramesTo(os, i) == RoutedTo(t, i) + Pending(t.reader, i)
    {
      PushFrameRoutes(k, s, i);
    }
  }

  lemma ReaderExplains(k: Params, s: State, a: ReaderAct, es: seq<Event>, os: seq<Outcome>)
    requires TableInv(s) && Explains(k.cfg, s, es, os) && ReaderEnabled(k, s, a) && !a.ReadCut?
    ensures Explained(k.cfg, ReaderNext(k, s, a), es)
  {
    if a.Dispatch? {
      DispatchExplains(k, s, a.text, es, os);
    } else if a.ReadNext? {
      ReadExplains(k, s, a.text, es, os);
    } else if a.PushFrame? {
      PushFrameExplains(k, s, es, os);
    } else {
      ReaderFootprint(k, s, a);
      assert Explains(k.cfg, ReaderNext(k, s, a), es, os);
    }
  }

  // The others route nothing and produce nothing

  lemma OthersExplain(cfg: Config, s: State, t: State, es: seq<Event>, os: seq<Outcome>)
    requires Explains(cfg, s, es, os) && AllEvolve(s, t)
    requires t.reader == s.reader && t.input == s.input && t.produced == s.produced
    requires forall i :: 0 <= i < |s.streams| && s.streams[i].body.Writes? ==>
      t.streams[i].body.Writes? && RoutedTo(t, i) == RoutedTo(s, i)
    requires forall i :: |s.streams| <= i < |t.streams| && t.streams[i].body.Writes? ==> RoutedTo(t, i) == []
    ensures Explains(cfg, t, es, os)
  {
    forall j | 0 <= j < |os|
      ensures Fits(t.streams, es[j], os[j])
    {
      assert Fits(s.streams, es[j], os[j]);
    }
    forall i | |s.streams| <= i < |t.streams|
      ensures FramesTo(os, i) == []
    {
      forall j | 0 <= j < |os| && os[j].SentTo?
        ensures os[j].i != i
      {
        assert Fits(s.streams, es[j], os[j]);
      }
      NothingSentTo(os, i);
    }
  }

  lemma WorkerExplains(cfg: Config, s: State, a: WorkerAct, es: seq<Event>, os: seq<Outcome>)
    requires TableInv(s) && Explains(cfg, s, es, os) && WorkerEnabled(s, a)
    ensures Explains(cfg, WorkerNext(s, a), es, os)
  {
    var t := WorkerNext(s, a);
    WorkerEvolves(s, a);
    WorkerFootprint(s, a);
    forall i | 0 <= i < |s.streams|
      ensures t.streams[i].body == s.streams[i].body
    {
      WorkerRoutesNothing(s, a, i);
    }
    WorkerOpensFresh(s, a);
    OthersExplain(cfg, s, t, es, os);
  }

  lemma WorkerOpensFresh(s: State, a: WorkerAct)
    requires WorkerEnabled(s, a)
    ensures var t := WorkerNext(s, a);
      && |t.streams| <= |s.streams| + 1
      && forall i :: |s.streams| <= i < |t.streams| && t.streams[i].body.Writes? ==> RoutedTo(t, i) == []
  {
    WorkerFootprint(s, a);
  }

  lemma RestOfSystemExplains(k: Params, s: State, a: Action, es: seq<Event>, os: seq<Outcome>)
    requires Explains(k.cfg, s, es, os) && Enabled(k, s, a) && !a.ByReader? && !a.ByWorker?
    ensures Explains(k.cfg, Next(k, s, a), es, os)
  {
    var t := Next(k, s, a);
    StreamsEvolve(k, s, a);
    RestProducesNothing(k, s, a);
    forall i | 0 <= i < |s.streams| && s.streams[i].body.Writes?
      ensures t.streams[i].body.Writes? && RoutedTo(t, i) == RoutedTo(s, i)
    {
      RestRoutesTheSame(k, s, a, i);
    }
    OthersExplain(k.cfg, s, t, es, os);
  }

  lemma RestRoutesTheSame(k: Params, s: State, a: Action, i: nat)
    requires Enabled(k, s, a) && !a.ByReader? && !a.ByWorker? && i < |s.streams| && s.streams[i].body.Writes?
    ensures var t := Next(k, s, a);
      i < |t.streams| && t.streams[i].body.Writes? && RoutedTo(t, i) == RoutedTo(s, i)
  {
    match a
    case ByWriter(o) => WriterRoutesNothing(k, s, o, i);
    case ByHandler(j, h) => HandlerRoutesNothing(k, s, j, h, i);
    case _ => RestRoutesNothing(k, s, a, i);
  }

  lemma RestProducesNothing(k: Params, s: State, a: Action)
    requires Enabled(k, s, a) && !a.ByReader? && !a.ByWorker?
    ensures var t := Next(k, s, a);
      && t.reader == s.reader && t.input == s.input && t.produced == s.produced && |t.streams| == |s.streams|
  {
    match a
    case ByWriter(o) => WriterFootprint(k, s, o);
    case _ =>
  }

  // Along a run

  ghost predicate DispatchInv(cfg: Config, s: State, es: seq<Event>) {
    SessionRuns.Inv(s) && Explained(cfg, s, es)
  }

  lemma ActionExplains(k: Params, s: State, a: Action, es: seq<Event>)
    requires k.dataCap == 0 && DispatchInv(k.cfg, s, es) && Enabled(k, s, a) && !IsCut(a)
    ensures DispatchInv(k.cfg, Next(k, s, a), es)
  {
    SessionRuns.InvPreserved(k, s, a);
    var os :| Explains(k.cfg, s, es, os);
    match a
    case ByReader(r) => ReaderExplains(k, s, r, es, os);
    case ByWorker(w) => WorkerExplains(k.cfg, s, w, es, os);
    case _ => RestOfSystemExplains(k, s, a, es, os);
  }

  lemma StepExplains(k: Params, s: State, t: State, es: seq<Event>)
    requires k.dataCap == 0 && DispatchInv(k.cfg, s, es) && SmoothStep(k, s, t)
    ensures DispatchInv(k.cfg, t, es)
  {
    var a: Action :| Enabled(k, s, a) && !IsCut(a) && t == Next(k, s, a);
    ActionExplains(k, s, a, es);
  }

  ghost predicate Carries(cfg: Config, s: State, t: State, es: seq<Event>) {
    DispatchInv(cfg, s, es) ==> DispatchInv(cfg, t, es)
  }

  lemma ExplainedAlong(cfg: Config, run: seq<State>, q: nat, es: seq<Event>)
    requires q < |run| && DispatchInv(cfg, run[0], es)
    requires forall j: nat :: j < q ==> Carries(cfg, run[j], run[j + 1], es)
    ensures DispatchInv(cfg, run[q], es)
  {
    HoldsAlong(s => DispatchInv(cfg, s, es), run, 0, q);
  }

  /** What the reader's loop meets in the client's bytes. */
  function Sends(k: Params, run: seq<State>): seq<Event>
    requires run != []
  {
    Events(k.cfg, run[0].input).0
  }

  lemma StartIsExplained(cfg: Config, s: State)
    requires Initial(s)
    ensures Explains(cfg, s, Events(cfg, s.input).0, [])
  {
    assert Events(cfg, s.input).0[0..] == Events(cfg, s.input).0;
  }

  /** No deadline passes inside a size line. */
  ghost predicate SmoothRun(k: Params, run: seq<State>, q: nat) {
    && k.dataCap == 0 && Run(k, run) && q < |run|
    && forall j :: 0 <= j < q ==> SmoothAt(k, run, j)
  }

  ghost predicate SmoothAt(k: Params, run: seq<State>, j: nat)
    requires j + 1 < |run|
  {
    SmoothStep(k, run[j], run[j + 1])
  }

  /** Whatever bytes the client sends: each value the reader has handled has become an item for the worker or a
      frame of a write stream, each format error an item that answers it, and there are no other items and
      frames. */
  lemma EveryValueIsHandled(k: Params, run: seq<State>, q: nat)
    requires SmoothRun(k, run, q)
    ensures DispatchInv(k.cfg, run[q], Sends(k, run))
  {
    var es := Sends(k, run);
    SessionRuns.InvInitially(run[0]);
    StartIsExplained(k.cfg, run[0]);
    forall j: nat | j < q
      ensures Carries(k.cfg, run[j], run[j + 1], es)
    {
      if DispatchInv(k.cfg, run[j], es) {
        assert SmoothAt(k, run, j);
        StepExplains(k, run[j], run[j + 1], es);
      }
    }
    ExplainedAlong(k.cfg, run, q, es);
  }

  // Commands

  function CommandOf(e: Event): seq<Item> {
    if e.Received? && IsCommand(e.v) then [Command(e.v.vs)] else []
  }

  function CommandsIn(es: seq<Event>): seq<Item> {
    if es == [] then [] else CommandsIn(es[..|es| - 1]) + CommandOf(es[|es| - 1])
  }

  function CommandsAmong(items: seq<Item>): seq<Item> {
    if items == [] then []
    else
      var (front, last) := (items[..|items| - 1], items[|items| - 1]);
      CommandsAmong(front) + (if last.Command? then [last] else [])
  }

  lemma {:induction false} CommandsPassOn(streams: seq<Stream>, es: seq<Event>, os: seq<Outcome>)
    requires |os| == |es| && forall j :: 0 <= j < |os| ==> Fits(streams, es[j], os[j])
    ensures CommandsAmong(ItemsOf(os)) == CommandsIn(es)
  {
    if os != [] {
      var n := |os| - 1;
      CommandsPassOn(streams, es[..n], os[..n]);
      CommandPassesOn(streams, es[n], os[n], ItemsOf(os[..n]));
    }
  }

  lemma CommandPassesOn(streams: seq<Stream>, e: Event, o: Outcome, items: seq<Item>)
    requires Fits(streams, e, o)
    ensures CommandsAmong(items + (if o.Produced? then [o.item] else [])) == CommandsAmong(items) + CommandOf(e)
  {
    if o.Produced? {
      CommandsAppend(items, o.item);
    } else {
      assert items + [] == items;
    }
  }

  lemma CommandsAppend(items: seq<Item>, item: Item)
    ensures CommandsAmong(items + [item]) == CommandsAmong(items) + (if item.Command? then [item] else [])
  {
    assert (items + [item])[..|items|] == items;
  }

  /** The worker gets the client's commands, all of them, in order, as far as the reader has come. */
  lemma CommandsReachWorker(k: Params, run: seq<State>, q: nat)
    requires SmoothRun(k, run, q)
    ensures exists m: nat ::
      StandsBehind(k.cfg, run[q], Sends(k, run), m) && CommandsAmong(run[q].produced) == CommandsIn(Sends(k, run)[..m])
  {
    var es := Sends(k, run);
    EveryValueIsHandled(k, run, q);
    var os :| Explains(k.cfg, run[q], es, os);
    assert forall j :: 0 <= j < |os| ==> Fits(run[q].streams, es[..|os|][j], os[j]);
    CommandsPassOn(run[q].streams, es[..|os|], os);
  }

  lemma {:induction false} OnlyCommands(streams: seq<Stream>, vs: seq<Value>, os: seq<Outcome>)
    requires |os| <= |vs| && forall j :: 0 <= j < |os| ==> Fits(streams, Received(vs[j]), os[j])
    requires forall j :: 0 <= j < |vs| ==> IsCommand(vs[j])
    ensures |ItemsOf(os)| == |os|
    ensures forall j :: 0 <= j < |os| ==> IsCommand(vs[j]) && ItemsOf(os)[j] == Command(vs[j].vs)
  {
    if os != [] {
      var n := |os| - 1;
      OnlyCommands(streams, vs, os[..n]);
      assert Fits(streams, Received(vs[n]), os[n]);
    }
  }

  /** The client pipelines printable commands. */
  ghost predicate Pipelines(k: Params, run: seq<State>, vs: seq<Value>) {
    && run != [] && run[0].input == PrintAll(vs) && WireLaws.AllPrintableAtTop(k.cfg, vs)
    && forall j :: 0 <= j < |vs| ==> IsCommand(vs[j])
  }

  /** A client that pipelines commands gets its j-th response for its j-th command. */
  lemma PipelinedCommandsAreAnswered(k: Params, run: seq<State>, q: nat, vs: seq<Value>)
    requires SmoothRun(k, run, q) && Pipelines(k, run, vs)
    ensures var (s, sent) := (run[q], RepliesOut(run[q].out));
      && |sent| <= |s.answered| <= |s.produced| <= |vs|
      && forall j :: 0 <= j < |sent| ==> IsCommand(vs[j]) && s.answered[j] == (Command(vs[j].vs), sent[j])
  {
    EveryValueIsHandled(k, run, q);
    PrintedValuesArrive(k.cfg, vs);
    CommandsAreAnswered(k.cfg, run[q], vs);
  }

  lemma CommandsAreAnswered(cfg: Config, s: State, vs: seq<Value>)
    requires ReplyInv(s) && Explained(cfg, s, Arrivals(vs)) && forall j :: 0 <= j < |vs| ==> IsCommand(vs[j])
    ensures var sent := RepliesOut(s.out);
      && |sent| <= |s.answered| <= |s.produced| <= |vs|
      && forall j :: 0 <= j < |sent| ==> IsCommand(vs[j]) && s.answered[j] == (Command(vs[j].vs), sent[j])
  {
    var os :| Explains(cfg, s, Arrivals(vs), os);
    assert forall j :: 0 <= j < |os| ==> Fits(s.streams, Arrivals(vs)[j], os[j]);
    OnlyCommands(s.streams, vs, os);
    RepliesInOrder(s);
  }
}
