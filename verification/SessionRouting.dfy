/** Which frames reach a write stream. However a client interleaves commands and the frames of its streams, a
    live write stream is sent exactly those under its id, in order. */
module SessionRouting {
  import opened ByteStrings
  import opened Wire
  import WireLaws
  import opened SessionModel
  import opened SessionFootprints
  import opened SessionSlots
  import SessionRuns

  /** The frames for `id` among what a client sends. */
  function FramesFor(vs: seq<Value>, id: nat): seq<Frame> {
    if vs == [] then []
    else
      var (front, f) := (vs[..|vs| - 1], AsFrame(vs[|vs| - 1]));
      FramesFor(front, id) + (if f.Some? && f.value.0 == id then [f.value.1] else [])
  }

  lemma FramesForOneMore(vs: seq<Value>, m: nat, id: nat)
    requires m < |vs|
    ensures var f := AsFrame(vs[m]);
      FramesFor(vs[..m + 1], id) == FramesFor(vs[..m], id) + (if f.Some? && f.value.0 == id then [f.value.1] else [])
  {
    assert vs[..m + 1][..m] == vs[..m];
  }

  lemma {:induction false} FramesForPrefix(vs: seq<Value>, m: nat, id: nat)
    requires m <= |vs|
    ensures FramesFor(vs[..m], id) <= FramesFor(vs, id)
    decreases |vs| - m
  {
    if m == |vs| {
      assert vs[..m] == vs;
    } else {
      FramesForOneMore(vs, m, id);
      FramesForPrefix(vs, m + 1, id);
    }
  }

  // A client's values on their way to one of its streams

  /** The client sends `vs`, and then any bytes; stream `i` has the id. */
  datatype Job = Job(vs: seq<Value>, id: nat, i: nat, rest: Bytes)

  function Remaining(u: Job, m: nat): Bytes
    requires m <= |u.vs|
  {
    PrintAll(u.vs[m..]) + u.rest
  }

  function Sent(u: Job): seq<Frame> {
    FramesFor(u.vs, u.id)
  }

  lemma NextIsPrinted(vs: seq<Value>, m: nat, rest: Bytes)
    requires m < |vs|
    ensures PrintAll(vs[m..]) + rest == Print(vs[m]) + (PrintAll(vs[m + 1..]) + rest)
  {
    assert vs[m..][0] == vs[m] && vs[m..][1..] == vs[m + 1..];
    assert PrintAll(vs[m..]) == Print(vs[m]) + PrintAll(vs[m + 1..]);
  }

  lemma ReadsNextValue(cfg: Config, u: Job, m: nat)
    requires WireLaws.AllPrintableAtTop(cfg, u.vs) && m < |u.vs|
    ensures Read(cfg, Remaining(u, m)) == Ok(u.vs[m], Remaining(u, m + 1))
  {
    NextIsPrinted(u.vs, m, u.rest);
    WireLaws.RoundTrip(cfg, u.vs[m], true, Remaining(u, m + 1));
  }

  ghost predicate JobFits(k: Params, s: State, u: Job) {
    && k.dataCap == 0 && WireLaws.AllPrintableAtTop(k.cfg, u.vs) && u.id < SLOTS
    && u.i < |s.streams| && s.streams[u.i].id == u.id && s.streams[u.i].body.Writes?
  }

  function RoutedTo(s: State, i: nat): seq<Frame>
    requires i < |s.streams| && s.streams[i].body.Writes?
  {
    s.streams[i].body.w.routed
  }

  /** The client starts sending when the stream is open and nothing has been sent to it. */
  ghost predicate SendingStarts(k: Params, s: State, u: Job) {
    && JobFits(k, s, u)
    && s.reader == ReadTop && s.input == Remaining(u, 0)
    && s.streams[u.i].life != Released && RoutedTo(s, u.i) == []
  }

  // Deadlines

  predicate IsCut(a: Action) {
    a.ByReader? && a.r.ReadCut?
  }

  /** A step other than a deadline inside a size line. */
  ghost predicate SmoothStep(k: Params, s: State, t: State) {
    exists a: Action :: Enabled(k, s, a) && !IsCut(a) && t == Next(k, s, a)
  }

  /** The reader is about to read, and frames for the live stream are still to come. A closing null that comes
      next has no size line to be cut. */
  ghost predicate Exposed(s: State, u: Job) {
    && u.i < |s.streams| && s.streams[u.i].body.Writes? && s.streams[u.i].life != Released
    && s.reader == ReadTop && !(Sent(u) <= RoutedTo(s, u.i))
    && !(Print(Tagged(Itoa(u.id), Null)) <= s.input)
  }

  /** If a deadline passes inside a size line while frames for the stream are still to come, nothing more is
      read after it. */
  ghost predicate Uninterrupted(k: Params, run: seq<State>, p: nat, q: nat, u: Job)
    requires q < |run|
  {
    forall j :: p <= j < q && Exposed(run[j], u) ==>
      SmoothStep(k, run[j], run[j + 1]) || run[q].input == run[j + 1].input
  }

  lemma TruncatedNull(cfg: Config, tag: Bytes, p: Bytes)
    requires LF !in tag && p < Print(Tagged(tag, Null))
    ensures Read(cfg, p) == IO
  {
    var all := Print(Tagged(tag, Null));
    var head := [TAG_MARK] + tag + [LF];
    assert Print(Null) == [NULL_MARK, LF] && all == head + Print(Null);
    if p != [] {
      var inp := p[1..];
      assert p[0] == TAG_MARK;
      if |p| < |head| {
        assert inp == tag[..|inp|];
        assert IndexOf(inp, LF) == |inp|;
      } else {
        var more := p[|head|..];
        assert more == Print(Null)[..|more|];
        assert inp == tag + [LF] + more;
        WireLaws.ReadPrintedLine(tag, more);
        assert ReadValue(cfg, more, false) == IO;
      }
      assert ReadTagged(cfg, inp, true) == IO;
      assert ReadBody(cfg, TAG_MARK, inp, true) == IO;
    }
  }

  lemma NullIsNeverCut(cfg: Config, id: nat, rest: Bytes, n: nat)
    requires id < SLOTS && n <= |Print(Tagged(Itoa(id), Null)) + rest|
    ensures Read(cfg, (Print(Tagged(Itoa(id), Null)) + rest)[..n]) != Format([])
  {
    AtoiItoa(id);
    var v := Tagged(Itoa(id), Null);
    var all := Print(v);
    if n < |all| {
      assert (all + rest)[..n] == all[..n];
      TruncatedNull(cfg, Itoa(id), all[..n]);
    } else {
      assert (all + rest)[..n] == all + rest[..n - |all|];
      WireLaws.RoundTrip(cfg, v, true, rest[..n - |all|]);
    }
  }

  // The invariant while the values are read

  /** The reader has read `m` of the values, or is handling one more. */
  ghost predicate AtValue(s: State, u: Job, m: nat)
    requires u.i < |s.streams| && s.streams[u.i].body.Writes?
  {
    var routed := RoutedTo(s, u.i);
    && m <= |u.vs|
    && match s.reader
       case ReadTop => routed == FramesFor(u.vs[..m], u.id) && s.input == Remaining(u, m)
       case Got(v) =>
         m < |u.vs| && v == u.vs[m] && routed == FramesFor(u.vs[..m], u.id) && s.input == Remaining(u, m + 1)
       case Routing(i, f) =>
         && m < |u.vs| && s.input == Remaining(u, m + 1)
         && FramesFor(u.vs[..m + 1], u.id) == (if i == u.i then routed + [f] else routed)
       case Pushing(_) => m < |u.vs| && routed == FramesFor(u.vs[..m + 1], u.id) && s.input == Remaining(u, m + 1)
       case ReaderGone => routed == FramesFor(u.vs[..m], u.id)
  }

  ghost predicate InOrder(s: State, u: Job)
    requires u.i < |s.streams| && s.streams[u.i].body.Writes?
  {
    var routed := RoutedTo(s, u.i);
    && (routed <= Sent(u) || Sent(u) <= routed)
    && (s.reader.Routing? && s.reader.i == u.i && !(Sent(u) <= routed) ==>
          |routed| < |Sent(u)| && s.reader.frame == Sent(u)[|routed|])
  }

  ghost predicate Sending(s: State, u: Job)
    requires u.i < |s.streams| && s.streams[u.i].body.Writes?
  {
    && InOrder(s, u)
    && (s.streams[u.i].life != Released ==> Sent(u) <= RoutedTo(s, u.i) || exists m :: AtValue(s, u, m))
  }

  lemma AtValueInOrder(s: State, u: Job, m: nat)
    requires u.i < |s.streams| && s.streams[u.i].body.Writes? && AtValue(s, u, m)
    ensures InOrder(s, u)
  {
    FramesForPrefix(u.vs, m, u.id);
    if m < |u.vs| {
      FramesForPrefix(u.vs, m + 1, u.id);
    }
  }

  lemma AtValueSends(s: State, u: Job, m: nat)
    requires u.i < |s.streams| && s.streams[u.i].body.Writes? && AtValue(s, u, m)
    ensures Sending(s, u)
  {
    AtValueInOrder(s, u, m);
  }

  lemma AllRead(u: Job, s: State)
    requires u.i < |s.streams| && s.streams[u.i].body.Writes? && s.reader == ReadTop && AtValue(s, u, |u.vs|)
    ensures RoutedTo(s, u.i) == Sent(u)
  {
    assert u.vs[..|u.vs|] == u.vs;
  }

  lemma ReadKeepsSending(k: Params, s: State, text: Bytes, u: Job)
    requires JobFits(k, s, u) && Sending(s, u) && ReaderEnabled(k, s, ReadNext(text))
    ensures Sending(ReaderNext(k, s, ReadNext(text)), u)
  {
    var t := ReaderNext(k, s, ReadNext(text));
    ReaderFootprint(k, s, ReadNext(text));
    if s.streams[u.i].life != Released && !(Sent(u) <= RoutedTo(s, u.i)) {
      var m: nat :| AtValue(s, u, m);
      if m == |u.vs| {
        AllRead(u, s);
      } else {
        ReadsNextValue(k.cfg, u, m);
        AtValueSends(t, u, m);
      }
    }
  }

  lemma NullCannotBeCut(cfg: Config, id: nat, inp: Bytes, n: nat)
    requires id < SLOTS && Print(Tagged(Itoa(id), Null)) <= inp && n <= |inp|
    ensures Read(cfg, inp[..n]) != Format([])
  {
    var closing := Print(Tagged(Itoa(id), Null));
    assert closing + inp[|closing|..] == inp;
    NullIsNeverCut(cfg, id, inp[|closing|..], n);
  }

  /** Where no frame is to be read any more, or a null comes next, a deadline does no harm. */
  lemma CutKeepsSending(k: Params, s: State, n: nat, text: Bytes, u: Job)
    requires JobFits(k, s, u) && Sending(s, u) && !Exposed(s, u) && ReaderEnabled(k, s, ReadCut(n, text))
    ensures Sending(ReaderNext(k, s, ReadCut(n, text)), u)
  {
    var t := ReaderNext(k, s, ReadCut(n, text));
    if Print(Tagged(Itoa(u.id), Null)) <= s.input {
      NullCannotBeCut(k.cfg, u.id, s.input, n);
    }
    assert t.streams == s.streams && t.reader.Pushing?;
  }

  /** A value that is a frame for the live stream goes to it, and no other value does. */
  lemma LiveStreamIsFound(s: State, u: Job, id: int)
    requires TableInv(s) && u.i < |s.streams| && s.streams[u.i].id == u.id && s.streams[u.i].body.Writes?
    ensures LiveWriter(s, id) == Some(u.i) <==> id == u.id && s.streams[u.i].life != Released
  {
    if LiveWriter(s, id) == Some(u.i) {
      assert Owns(s, u.i, id);
    }
  }

  lemma DispatchKeepsSending(k: Params, s: State, text: Bytes, u: Job)
    requires TableInv(s) && JobFits(k, s, u) && Sending(s, u) && ReaderEnabled(k, s, Dispatch(text))
    ensures Sending(ReaderNext(k, s, Dispatch(text)), u)
  {
    var t := ReaderNext(k, s, Dispatch(text));
    ReaderFootprint(k, s, Dispatch(text));
    DispatchRoutes(k, s, text);
    var f := AsFrame(s.reader.v);
    if f.Some? {
      LiveStreamIsFound(s, u, f.value.0);
    }
    if s.streams[u.i].life != Released && !(Sent(u) <= RoutedTo(s, u.i)) {
      var m: nat :| AtValue(s, u, m);
      FramesForOneMore(u.vs, m, u.id);
      AtValueSends(t, u, m);
    }
  }

  lemma DispatchRoutes(k: Params, s: State, text: Bytes)
    requires ReaderEnabled(k, s, Dispatch(text))
    ensures var (t, f) := (ReaderNext(k, s, Dispatch(text)), AsFrame(s.reader.v));
      && t.streams == s.streams && t.input == s.input
      && (if f.Some? && LiveWriter(s, f.value.0).Some? then
            t.reader == Routing(LiveWriter(s, f.value.0).value, f.value.1)
          else t.reader.Pushing?)
  {
  }

  lemma PushFrameRoutes(k: Params, s: State, i: nat)
    requires ReaderEnabled(k, s, PushFrame) && i < |s.streams| && s.streams[i].body.Writes?
    ensures var t := ReaderNext(k, s, PushFrame);
      && t.reader == ReadTop && t.input == s.input && i < |t.streams|
      && t.streams[i].id == s.streams[i].id && t.streams[i].life == s.streams[i].life && t.streams[i].body.Writes?
      && RoutedTo(t, i) == if s.reader.i == i then RoutedTo(s, i) + [s.reader.frame] else RoutedTo(s, i)
  {
  }

  lemma OneMoreInOrder(all: seq<Frame>, routed: seq<Frame>, f: Frame)
    requires routed <= all || all <= routed
    requires !(all <= routed) ==> |routed| < |all| && f == all[|routed|]
    ensures routed + [f] <= all || all <= routed + [f]
  {
    if !(all <= routed) {
      assert routed + [f] == all[..|routed| + 1];
    }
  }

  lemma PushFrameKeepsSending(k: Params, s: State, u: Job)
    requires JobFits(k, s, u) && Sending(s, u) && ReaderEnabled(k, s, PushFrame)
    ensures Sending(ReaderNext(k, s, PushFrame), u)
  {
    var t := ReaderNext(k, s, PushFrame);
    PushFrameRoutes(k, s, u.i);
    if s.reader.i == u.i {
      OneMoreInOrder(Sent(u), RoutedTo(s, u.i), s.reader.frame);
    }
    if s.streams[u.i].life != Released && !(Sent(u) <= RoutedTo(s, u.i)) {
      var m: nat :| AtValue(s, u, m);
      assert AtValue(t, u, m + 1);
    }
  }

  lemma RestKeepsSending(k: Params, s: State, a: ReaderAct, u: Job)
    requires JobFits(k, s, u) && Sending(s, u) && ReaderEnabled(k, s, a)
    requires a.ReaderStop? || a.ReadFail? || a.PushItem?
    ensures Sending(ReaderNext(k, s, a), u)
  {
    var t := ReaderNext(k, s, a);
    ReaderFootprint(k, s, a);
    if s.streams[u.i].life != Released && !(Sent(u) <= RoutedTo(s, u.i)) {
      var m: nat :| AtValue(s, u, m);
      AtValueSends(t, u, if a.PushItem? then m + 1 else m);
    }
  }

  lemma ReaderKeepsSending(k: Params, s: State, a: ReaderAct, u: Job)
    requires TableInv(s) && JobFits(k, s, u) && Sending(s, u) && ReaderEnabled(k, s, a)
    requires JobFits(k, ReaderNext(k, s, a), u) && (a.ReadCut? ==> !Exposed(s, u))
    ensures Sending(ReaderNext(k, s, a), u)
  {
    match a
    case ReadNext(text) => ReadKeepsSending(k, s, text, u);
    case ReadCut(n, text) => CutKeepsSending(k, s, n, text, u);
    case Dispatch(text) => DispatchKeepsSending(k, s, text, u);
    case PushFrame => PushFrameKeepsSending(k, s, u);
    case _ => RestKeepsSending(k, s, a, u);
  }

  lemma WriteStepRoutesNothing(w: WriteState, fs: Files, a: WriteAct)
    requires WriteEnabled(w, true, a)
    ensures WriteStep(w, fs, a).0.routed == w.routed
  {
  }

  lemma HandlerKeepsRouted(st: Stream, done: bool, fs: Files, a: StreamAct)
    requires st.body.Writes? && LocalEnabled(st, done, fs, a)
    ensures var t := Local(st, done, fs, a).0; t.body.Writes? && t.body.w.routed == st.body.w.routed
    ensures st.life == Released ==> Local(st, done, fs, a).0.life == Released
  {
    if a.OfWrite? {
      assert WriteEnabled(st.body.w, true, a.wa);
      WriteStepRoutesNothing(st.body.w, fs, a.wa);
    }
  }

  lemma SameSending(s: State, t: State, u: Job)
    requires u.i < |s.streams| && s.streams[u.i].body.Writes? && Sending(s, u)
    requires t.reader == s.reader && t.input == s.input && u.i < |t.streams| && t.streams[u.i].body.Writes?
    requires t.streams[u.i].body.w.routed == s.streams[u.i].body.w.routed
    requires s.streams[u.i].life == Released ==> t.streams[u.i].life == Released
    ensures Sending(t, u)
  {
    if t.streams[u.i].life != Released && !(Sent(u) <= RoutedTo(s, u.i)) {
      var m: nat :| AtValue(s, u, m);
      assert AtValue(t, u, m);
    }
  }

  lemma WorkerKeepsSending(s: State, a: WorkerAct, u: Job)
    requires u.i < |s.streams| && s.streams[u.i].body.Writes? && Sending(s, u) && WorkerEnabled(s, a)
    ensures Sending(WorkerNext(s, a), u)
  {
    WorkerRoutesNothing(s, a, u.i);
    SameSending(s, WorkerNext(s, a), u);
  }

  lemma WorkerRoutesNothing(s: State, a: WorkerAct, i: nat)
    requires WorkerEnabled(s, a) && i < |s.streams|
    ensures var t := WorkerNext(s, a);
      && t.reader == s.reader && t.input == s.input && i < |t.streams|
      && t.streams[i].body == s.streams[i].body && t.streams[i].life == s.streams[i].life
  {
    WorkerFootprint(s, a);
  }

  lemma OthersKeepSending(k: Params, s: State, a: Action, u: Job)
    requires u.i < |s.streams| && s.streams[u.i].body.Writes? && Sending(s, u)
    requires Enabled(k, s, a) && !a.ByReader? && !a.ByWorker?
    ensures var t := Next(k, s, a); u.i < |t.streams| && t.streams[u.i].body.Writes? && Sending(t, u)
  {
    match a {
      case ByWriter(o) => WriterRoutesNothing(k, s, o, u.i);
      case ByHandler(i, h) => HandlerRoutesNothing(k, s, i, h, u.i);
      case _ => RestRoutesNothing(k, s, a, u.i);
    }
    SameSending(s, Next(k, s, a), u);
  }

  lemma RestRoutesNothing(k: Params, s: State, a: Action, i: nat)
    requires Enabled(k, s, a) && (a.Queue? || a.Free? || a.CloseSession?) && i < |s.streams|
    ensures var t := Next(k, s, a);
      && t.reader == s.reader && t.input == s.input && i < |t.streams|
      && (s.streams[i].body.Writes? ==> t.streams[i].body == s.streams[i].body)
      && (s.streams[i].life == Released ==> t.streams[i].life == Released)
  {
  }

  lemma WriterRoutesNothing(k: Params, s: State, o: WriterAct, i: nat)
    requires WriterEnabled(k, s, o) && i < |s.streams|
    ensures var t := WriterNext(k, s, o);
      && t.reader == s.reader && t.input == s.input && i < |t.streams|
      && (s.streams[i].body.Writes? ==> t.streams[i].body == s.streams[i].body)
      && (s.streams[i].life == Released ==> t.streams[i].life == Released)
  {
    WriterFootprint(k, s, o);
  }

  lemma HandlerRoutesNothing(k: Params, s: State, i: nat, h: StreamAct, j: nat)
    requires Enabled(k, s, ByHandler(i, h)) && j < |s.streams| && s.streams[j].body.Writes?
    ensures var st := Next(k, s, ByHandler(i, h)).streams[j];
      && st.body.Writes? && st.body.w.routed == s.streams[j].body.w.routed
      && (s.streams[j].life == Released ==> st.life == Released)
  {
    if i == j {
      HandlerKeepsRouted(s.streams[i], s.done, s.fs, h);
    }
  }


  // Along a run

  ghost predicate SendingInv(k: Params, s: State, u: Job) {
    SessionRuns.Inv(s) && JobFits(k, s, u) && Sending(s, u)
  }

  lemma ActionKeepsSending(k: Params, s: State, a: Action, u: Job)
    requires SendingInv(k, s, u) && Enabled(k, s, a) && (IsCut(a) ==> !Exposed(s, u))
    ensures SendingInv(k, Next(k, s, a), u)
  {
    SessionRuns.InvPreserved(k, s, a);
    StreamsEvolve(k, s, a);
    match a
    case ByReader(r) => ReaderKeepsSending(k, s, r, u);
    case ByWorker(w) => WorkerKeepsSending(s, w, u);
    case _ => OthersKeepSending(k, s, a, u);
  }

  /** After a cut that nothing was read behind. */
  ghost predicate Halted(k: Params, s: State, u: Job) {
    && SessionRuns.Inv(s) && JobFits(k, s, u) && InOrder(s, u)
    && (s.reader == ReadTop || s.reader.Pushing? || s.reader == ReaderGone)
  }

  lemma StepKeepsSending(k: Params, s: State, t: State, u: Job)
    requires SendingInv(k, s, u) && Step(k, s, t)
    ensures SendingInv(k, t, u) || (Exposed(s, u) && Halted(k, t, u))
    ensures Exposed(s, u) && SmoothStep(k, s, t) ==> SendingInv(k, t, u)
  {
    if Exposed(s, u) && SmoothStep(k, s, t) {
      var a: Action :| Enabled(k, s, a) && !IsCut(a) && t == Next(k, s, a);
      ActionKeepsSending(k, s, a, u);
    } else {
      var a: Action :| Enabled(k, s, a) && t == Next(k, s, a);
      if IsCut(a) && Exposed(s, u) {
        CutHalts(k, s, a, u);
      } else {
        ActionKeepsSending(k, s, a, u);
      }
    }
  }

  lemma CutHalts(k: Params, s: State, a: Action, u: Job)
    requires SendingInv(k, s, u) && Enabled(k, s, a) && IsCut(a)
    ensures Halted(k, Next(k, s, a), u)
  {
    SessionRuns.InvPreserved(k, s, a);
    StreamsEvolve(k, s, a);
    ReaderFootprint(k, s, a.r);
  }

  lemma StepStaysHalted(k: Params, s: State, t: State, u: Job)
    requires Halted(k, s, u) && Step(k, s, t) && t.input == s.input
    ensures Halted(k, t, u)
  {
    var a: Action :| Enabled(k, s, a) && t == Next(k, s, a);
    SessionRuns.InvPreserved(k, s, a);
    StreamsEvolve(k, s, a);
    HaltedRoutesNothing(k, s, a, u.i);
  }

  lemma HaltedRoutesNothing(k: Params, s: State, a: Action, i: nat)
    requires Enabled(k, s, a) && Next(k, s, a).input == s.input && i < |s.streams| && s.streams[i].body.Writes?
    requires s.reader == ReadTop || s.reader.Pushing? || s.reader == ReaderGone
    ensures var t := Next(k, s, a);
      && (t.reader == ReadTop || t.reader.Pushing? || t.reader == ReaderGone)
      && i < |t.streams| && t.streams[i].body.Writes? && RoutedTo(t, i) == RoutedTo(s, i)
  {
    match a
    case ByReader(r) => ReadingShrinks(k, s, r);
    case ByWorker(w) => WorkerRoutesNothing(s, w, i);
    case ByWriter(o) => WriterRoutesNothing(k, s, o, i);
    case ByHandler(j, h) => HandlerRoutesNothing(k, s, j, h, i);
    case _ => RestRoutesNothing(k, s, a, i);
  }

  lemma ReadingShrinks(k: Params, s: State, r: ReaderAct)
    requires ReaderEnabled(k, s, r)
    ensures var t := ReaderNext(k, s, r);
      && |t.input| <= |s.input| && (t.input == s.input || |t.input| < |s.input|)
      && (s.reader == ReadTop && t.input == s.input ==> t.reader == ReaderGone)
      && (s.reader.Pushing? ==> t.reader == ReadTop)
      && (!r.PushFrame? ==> t.streams == s.streams)
  {
  }

  lemma StepShrinks(k: Params, s: State, t: State)
    requires Step(k, s, t)
    ensures t.input == s.input || |t.input| < |s.input|
  {
    var a: Action :| Enabled(k, s, a) && t == Next(k, s, a);
    match a
    case ByReader(r) => ReadingShrinks(k, s, r);
    case ByWorker(w) => WorkerFootprint(s, w);
    case ByWriter(o) => WriterFootprint(k, s, o);
    case _ =>
  }

  predicate Shrinks(s: State, t: State) {
    |t.input| <= |s.input|
  }

  lemma {:induction false} ShrinksAlong(run: seq<State>, p: nat, q: nat)
    requires p <= q < |run|
    requires forall j: nat :: p <= j < q ==> Shrinks(run[j], run[j + 1])
    ensures Shrinks(run[p], run[q])
    decreases q - p
  {
    if p < q {
      ShrinksAlong(run, p, q - 1);
      assert Shrinks(run[q - 1], run[(q - 1) + 1]);
    }
  }

  lemma RunShrinks(k: Params, run: seq<State>, p: nat, q: nat)
    requires Run(k, run) && p <= q < |run|
    ensures Shrinks(run[p], run[q])
  {
    forall j: nat | p <= j < q
      ensures Shrinks(run[j], run[j + 1])
    {
      SessionRuns.StepOfRun(k, run, j);
      StepShrinks(k, run[j], run[j + 1]);
    }
    ShrinksAlong(run, p, q);
  }

  ghost predicate Good(k: Params, s: State, u: Job, last: Bytes) {
    SendingInv(k, s, u) || (Halted(k, s, u) && s.input == last)
  }

  ghost predicate Carried(k: Params, s: State, t: State, u: Job, last: Bytes) {
    Good(k, s, u, last) ==> Good(k, t, u, last)
  }

  lemma StepCarries(k: Params, s: State, t: State, u: Job, last: Bytes)
    requires Step(k, s, t) && |last| <= |t.input|
    requires Exposed(s, u) ==> SmoothStep(k, s, t) || last == t.input
    ensures Carried(k, s, t, u, last)
  {
    if SendingInv(k, s, u) {
      StepKeepsSending(k, s, t, u);
    } else if Halted(k, s, u) && s.input == last {
      StepShrinks(k, s, t);
      StepStaysHalted(k, s, t, u);
    }
  }

  lemma RunCarries(k: Params, run: seq<State>, p: nat, q: nat, j: nat, u: Job)
    requires Run(k, run) && p <= j < q < |run| && Uninterrupted(k, run, p, q, u)
    ensures Carried(k, run[j], run[j + 1], u, run[q].input)
  {
    SessionRuns.StepOfRun(k, run, j);
    RunShrinks(k, run, j + 1, q);
    StepCarries(k, run[j], run[j + 1], u, run[q].input);
  }

  lemma {:induction false} HoldsAlong<T>(good: T -> bool, xs: seq<T>, p: nat, q: nat)
    requires p <= q < |xs| && good(xs[p])
    requires forall j: nat :: p <= j < q && good(xs[j]) ==> good(xs[j + 1])
    ensures good(xs[q])
    decreases q - p
  {
    if p < q {
      HoldsAlong(good, xs, p, q - 1);
      assert good(xs[(q - 1) + 1]);
    }
  }

  lemma GoodAlong(k: Params, run: seq<State>, p: nat, q: nat, u: Job, last: Bytes)
    requires p <= q < |run| && Good(k, run[p], u, last)
    requires forall j: nat :: p <= j < q ==> Carried(k, run[j], run[j + 1], u, last)
    ensures Good(k, run[q], u, last)
  {
    HoldsAlong(s => Good(k, s, u, last), run, p, q);
  }

  lemma SendingBegins(k: Params, run: seq<State>, p: nat, u: Job)
    requires Run(k, run) && p < |run| && SendingStarts(k, run[p], u)
    ensures SendingInv(k, run[p], u)
  {
    SessionRuns.InvThroughout(k, run, p);
    assert u.vs[..0] == [];
    AtValueSends(run[p], u, 0);
  }

  /** In every run, what the stream has been sent is a beginning of its frames among the values, or all of them
      and what comes later. While no deadline has interrupted, it is exactly the frames of the values read. */
  lemma FramesReachTheirStream(k: Params, run: seq<State>, p: nat, q: nat, u: Job)
    requires Run(k, run) && p <= q < |run| && SendingStarts(k, run[p], u) && Uninterrupted(k, run, p, q, u)
    ensures SessionRuns.Inv(run[q]) && JobFits(k, run[q], u) && InOrder(run[q], u)
    ensures SendingInv(k, run[q], u) || Halted(k, run[q], u)
  {
    SendingBegins(k, run, p, u);
    forall j: nat | p <= j < q
      ensures Carried(k, run[j], run[j + 1], u, run[q].input)
    {
      RunCarries(k, run, p, q, j, u);
    }
    GoodAlong(k, run, p, q, u, run[q].input);
  }

  /** Once all values have been read, all frames have been sent to a live stream. */
  lemma AllFramesAreSent(k: Params, s: State, u: Job)
    requires SendingInv(k, s, u) && s.reader == ReadTop && s.input == u.rest && s.streams[u.i].life != Released
    ensures Sent(u) <= RoutedTo(s, u.i)
  {
    if !(Sent(u) <= RoutedTo(s, u.i)) {
      var m: nat :| AtValue(s, u, m);
      assert |PrintAll(u.vs[m..])| == 0;
      AllRead(u, s);
    }
  }
}
