/** A stream id is used again and again, but the frames under it never mix: they are the frames of its
    successive streams, one stream after the other. */
module SessionTags {
  import opened Wire
  import opened SessionModel
  import opened SessionFootprints
  import opened SessionSlots
  import opened SessionBuffers

  /** The streams whose frames were written, in order, and then the one the writer holds a frame of. */
  function Senders(out: seq<Emission>): seq<nat> {
    if out == [] then []
    else
      var (front, last) := (out[..|out| - 1], out[|out| - 1]);
      Senders(front) + (if last.StreamFrame? then [last.i] else [])
  }

  function HeldSender(w: WriterPc): seq<nat> {
    if Held(w).Some? && Held(w).value.FromStream? then [Held(w).value.i] else []
  }

  ghost predicate InTurn(streams: seq<Stream>, senders: seq<nat>) {
    && (forall p :: 0 <= p < |senders| ==> senders[p] < |streams|)
    && (forall p, q :: 0 <= p < q < |senders| && streams[senders[p]].id == streams[senders[q]].id ==>
         senders[p] <= senders[q])
  }

  ghost predicate TagInv(s: State) {
    s.dataOut == [] && InTurn(s.streams, Senders(s.out) + HeldSender(s.writer))
  }

  lemma TagsInitially(s: State)
    requires Initial(s)
    ensures TagInv(s)
  {
  }

  lemma StillInTurn(before: seq<Stream>, after: seq<Stream>, senders: seq<nat>)
    requires InTurn(before, senders) && |before| <= |after|
    requires forall i :: 0 <= i < |before| ==> before[i].id == after[i].id
    ensures InTurn(after, senders)
  {
  }

  /** Of two streams with one id the later one owns the slot, so a live sender comes after every earlier
      sender with its id. */
  lemma TakeKeepsTurn(k: Params, s: State, i: nat)
    requires TableInv(s) && TagInv(s) && WriterEnabled(k, s, TakeData(i))
    ensures TagInv(WriterNext(k, s, TakeData(i)))
  {
    var senders := Senders(s.out);
    assert senders + [] == senders;
    LiveSenderIsLast(s, senders, i);
    WriterEvolves(k, s, TakeData(i));
    var t := WriterNext(k, s, TakeData(i));
    StillInTurn(s.streams, t.streams, senders + [i]);
    assert t.out == s.out && t.dataOut == s.dataOut && HeldSender(t.writer) == [i];
  }

  lemma LiveSenderIsLast(s: State, senders: seq<nat>, i: nat)
    requires TableInv(s) && InTurn(s.streams, senders)
    requires i < |s.streams| && s.streams[i].life == Active
    ensures InTurn(s.streams, senders + [i])
  {
    assert forall p :: 0 <= p < |senders| && s.streams[senders[p]].id == s.streams[i].id ==> senders[p] <= i;
  }

  lemma WriterKeepsTurn(k: Params, s: State, a: WriterAct)
    requires k.dataCap == 0 && TableInv(s) && TagInv(s) && WriterEnabled(k, s, a)
    ensures TagInv(WriterNext(k, s, a))
  {
    if a.TakeData? {
      TakeKeepsTurn(k, s, a.i);
    } else {
      var t := WriterNext(k, s, a);
      WriterFootprint(k, s, a);
      if a.Emit? {
        EmitMovesSender(k, s);
      }
    }
  }

  lemma EmitMovesSender(k: Params, s: State)
    requires WriterEnabled(k, s, Emit)
    ensures var t := WriterNext(k, s, Emit);
      Senders(t.out) + HeldSender(t.writer) == Senders(s.out) + HeldSender(s.writer)
  {
    var t := WriterNext(k, s, Emit);
    assert t.out[..|t.out| - 1] == s.out;
    assert Senders(t.out) + [] == Senders(t.out);
  }

  lemma TagsPreserved(k: Params, s: State, a: Action)
    requires k.dataCap == 0 && TableInv(s) && TagInv(s) && Enabled(k, s, a)
    ensures TagInv(Next(k, s, a))
  {
    var t := Next(k, s, a);
    StreamsEvolve(k, s, a);
    if a.ByWriter? {
      WriterKeepsTurn(k, s, a.o);
    } else {
      OthersKeepOutput(k, s, a);
      StillInTurn(s.streams, t.streams, Senders(s.out) + HeldSender(s.writer));
    }
  }

  lemma OthersKeepOutput(k: Params, s: State, a: Action)
    requires Enabled(k, s, a) && !a.ByWriter?
    ensures Next(k, s, a).out == s.out && Next(k, s, a).writer == s.writer
    ensures !a.Queue? ==> Next(k, s, a).dataOut == s.dataOut
  {
    match a
    case ByReader(r) => ReaderFootprint(k, s, r);
    case ByWorker(w) => WorkerFootprint(s, w);
    case _ =>
  }

  // The frames under one id

  /** Everything written by handlers under the id `id`, in the order on the wire. */
  function FramesUnder(out: seq<Emission>, streams: seq<Stream>, id: nat): seq<Value> {
    if out == [] then []
    else
      var (front, last) := (out[..|out| - 1], out[|out| - 1]);
      FramesUnder(front, streams, id)
      + (if last.StreamFrame? && last.i < |streams| && streams[last.i].id == id then [last.v] else [])
  }

  function Flat<T>(parts: seq<seq<T>>): seq<T> {
    if parts == [] then [] else Flat(parts[..|parts| - 1]) + parts[|parts| - 1]
  }

  /** The outputs of the streams that have the id, in the order in which they were opened. */
  function InOpeningOrder(out: seq<Emission>, streams: seq<Stream>, id: nat): seq<Value> {
    Flat(Parts(out, streams, id))
  }

  function Parts(out: seq<Emission>, streams: seq<Stream>, id: nat): seq<seq<Value>> {
    seq(|streams|, i requires 0 <= i < |streams| => if streams[i].id == id then FramesOf(out, i) else [])
  }

  lemma {:induction false} FlatExtends<T>(parts: seq<seq<T>>, i: nat, v: T)
    requires i < |parts| && forall j :: i < j < |parts| ==> parts[j] == []
    ensures Flat(parts[i := parts[i] + [v]]) == Flat(parts) + [v]
  {
    var (n, longer) := (|parts| - 1, parts[i := parts[i] + [v]]);
    if i == n {
      assert longer[..n] == parts[..n];
    } else {
      FlatExtends(parts[..n], i, v);
      assert longer[..n] == parts[..n][i := parts[i] + [v]];
    }
  }

  lemma {:induction false} FlatOfNothing<T>(parts: seq<seq<T>>)
    requires forall j :: 0 <= j < |parts| ==> parts[j] == []
    ensures Flat(parts) == []
  {
    if parts != [] {
      FlatOfNothing(parts[..|parts| - 1]);
    }
  }

  lemma FrameExtendsItsPart(out: seq<Emission>, e: Emission, streams: seq<Stream>, id: nat)
    ensures Parts(out + [e], streams, id) ==
      if e.StreamFrame? && e.i < |streams| && streams[e.i].id == id
      then Parts(out, streams, id)[e.i := Parts(out, streams, id)[e.i] + [e.v]]
      else Parts(out, streams, id)
  {
    var (before, after) := (Parts(out, streams, id), Parts(out + [e], streams, id));
    forall i | 0 <= i < |streams|
      ensures after[i] ==
        if e.StreamFrame? && e.i == i && streams[i].id == id then before[i] + [e.v] else before[i]
    {
      FramesAppend(out, e, i);
    }
  }

  lemma {:induction false} NoSuchSender(out: seq<Emission>, i: nat)
    requires i !in Senders(out)
    ensures FramesOf(out, i) == []
  {
    if out != [] {
      NoSuchSender(out[..|out| - 1], i);
    }
  }

  /** When the senders take turns, the frames under an id are the streams' outputs one after the other. */
  lemma {:induction false} TurnsConcatenate(out: seq<Emission>, streams: seq<Stream>, id: nat)
    requires InTurn(streams, Senders(out))
    ensures FramesUnder(out, streams, id) == InOpeningOrder(out, streams, id)
  {
    if out == [] {
      FlatOfNothing(Parts(out, streams, id));
    } else {
      var (front, e) := (out[..|out| - 1], out[|out| - 1]);
      assert out == front + [e];
      var before := Senders(front);
      assert forall p :: 0 <= p < |before| ==> Senders(out)[p] == before[p];
      TurnsConcatenate(front, streams, id);
      FrameExtendsItsPart(front, e, streams, id);
      if e.StreamFrame? {
        assert Senders(out)[|before|] == e.i;
        if streams[e.i].id == id {
          LaterAreEmpty(front, e, streams, id);
          FlatExtends(Parts(front, streams, id), e.i, e.v);
        }
      }
    }
  }

  lemma LaterAreEmpty(out: seq<Emission>, e: Emission, streams: seq<Stream>, id: nat)
    requires e.StreamFrame? && e.i < |streams| && streams[e.i].id == id && InTurn(streams, Senders(out) + [e.i])
    ensures forall j :: e.i < j < |streams| ==> Parts(out, streams, id)[j] == []
  {
    var senders := Senders(out);
    assert (senders + [e.i])[|senders|] == e.i;
    forall j | e.i < j < |streams| && streams[j].id == id
      ensures FramesOf(out, j) == []
    {
      assert forall p :: 0 <= p < |senders| ==> (senders + [e.i])[p] == senders[p];
      assert j !in senders;
      NoSuchSender(out, j);
    }
  }

  lemma IdsNeverMix(s: State, id: nat)
    requires TagInv(s)
    ensures FramesUnder(s.out, s.streams, id) == InOpeningOrder(s.out, s.streams, id)
  {
    var senders := Senders(s.out) + HeldSender(s.writer);
    assert forall p :: 0 <= p < |Senders(s.out)| ==> Senders(s.out)[p] == senders[p];
    TurnsConcatenate(s.out, s.streams, id);
  }
}
