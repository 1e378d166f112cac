/** Responses over all runs: exactly one per item the reader produced, in the reader's order, whatever
    stream frames are written in between; and QUIT ends them. */
module SessionReplies {
  import opened ByteStrings
  import opened Wire
  import opened SessionModel
  import opened SessionFootprints

  function Items(answered: seq<(Item, Value)>): seq<Item> {
    seq(|answered|, i requires 0 <= i < |answered| => answered[i].0)
  }

  function Answers(answered: seq<(Item, Value)>): seq<Value> {
    seq(|answered|, i requires 0 <= i < |answered| => answered[i].1)
  }

  /** The responses among what was written. */
  function RepliesOut(out: seq<Emission>): seq<Value> {
    if out == [] then []
    else
      var (front, last) := (out[..|out| - 1], out[|out| - 1]);
      RepliesOut(front) + (if last.Response? then [last.v] else [])
  }

  function HeldByReader(pc: ReaderPc): seq<Item> {
    if pc.Pushing? then [pc.item] else []
  }

  function HeldByWorker(pc: WorkerPc): seq<Item> {
    match pc
    case Calling(cmd) => [Command(cmd)]
    case Closing(cmd, _, _, _) => [Command(cmd)]
    case _ => []
  }

  function OwedByWorker(pc: WorkerPc): seq<Value> {
    if pc.Responding? then [pc.v] else []
  }

  function ReplyIn(msg: Msg): seq<Value> {
    if msg.Reply? then [msg.v] else []
  }

  /** A writer that failed in the middle of a response still accounts for it. */
  function HeldByWriter(pc: WriterPc): seq<Value> {
    match pc
    case Writing(msg, _) => ReplyIn(msg)
    case WriterGone(_, Some(msg)) => ReplyIn(msg)
    case _ => []
  }

  predicate Answered(item: Item, v: Value) {
    && (item.Ready? ==> v == item.response)
    && (QuitItem(item) ==> v == OK)
  }

  predicate QuitAnswered(answered: seq<(Item, Value)>) {
    answered != [] && QuitItem(answered[|answered| - 1].0)
  }

  ghost predicate ItemsConserved(s: State) {
    Items(s.answered) + HeldByWorker(s.worker) + s.commands + HeldByReader(s.reader) == s.produced
  }

  ghost predicate RepliesConserved(s: State) {
    RepliesOut(s.out) + HeldByWriter(s.writer) + s.cmdOut + OwedByWorker(s.worker) == Answers(s.answered)
  }

  ghost predicate AnswersFit(s: State) {
    forall j :: 0 <= j < |s.answered| ==> Answered(s.answered[j].0, s.answered[j].1)
  }

  ghost predicate QuitIsLast(s: State) {
    && (forall j :: 0 <= j < |s.answered| - 1 ==> !QuitItem(s.answered[j].0))
    && (QuitAnswered(s.answered) ==>
          s.worker == Responding(OK, true) || s.worker == Quitting || (s.worker == WorkerGone && s.cmdOutClosed))
    && (s.worker == Quitting ==> QuitAnswered(s.answered))
    && (s.worker.Responding? && s.worker.quit ==> QuitAnswered(s.answered))
    && (s.cmdOutClosed ==> s.worker == WorkerGone && QuitAnswered(s.answered))
    && (s.worker.Calling? ==> !QuitItem(Command(s.worker.cmd)))
    && (s.worker.Closing? ==> !QuitItem(Command(s.worker.cmd)))
  }

  ghost predicate ChannelsSane(s: State) {
    && (s.writer.WriterGone? && s.writer.drained ==> s.writer.torn == None && s.cmdOutClosed && s.cmdOut == [])
    && (forall j :: 0 <= j < |s.dataOut| ==> s.dataOut[j].FromStream?)
    && |s.commands| <= COMMANDS_CAP && |s.cmdOut| <= CMD_OUT_CAP
  }

  ghost predicate ReplyInv(s: State) {
    ItemsConserved(s) && RepliesConserved(s) && AnswersFit(s) && QuitIsLast(s) && ChannelsSane(s)
  }

  lemma RepliesInitially(s: State)
    requires Initial(s)
    ensures ReplyInv(s)
  {
  }

  lemma ItemsGrow(answered: seq<(Item, Value)>, item: Item, v: Value)
    ensures Items(answered + [(item, v)]) == Items(answered) + [item]
    ensures Answers(answered + [(item, v)]) == Answers(answered) + [v]
  {
  }

  /** Moving one element from the front of a channel to the back of what precedes it. */
  lemma Shift<T>(a: seq<T>, x: T, b: seq<T>, c: seq<T>)
    ensures a + [x] + b + c == a + [] + ([x] + b) + c
    ensures a + [x] + [] + b + c == a + [] + [x] + b + c
    ensures a + [] + (b + [x]) + [] == a + [] + b + [x]
    ensures a + c + (b + [x]) + [] == a + c + b + [x]
    ensures a + [] == a
  {
  }

  // Items

  lemma ReaderKeepsItems(k: Params, s: State, a: ReaderAct)
    requires ItemsConserved(s) && ReaderEnabled(k, s, a)
    ensures ItemsConserved(ReaderNext(k, s, a))
  {
    var t := ReaderNext(k, s, a);
    var before := Items(s.answered) + HeldByWorker(s.worker);
    ReaderFootprint(k, s, a);
    if a.PushItem? {
      assert before + (s.commands + [s.reader.item]) + [] == before + s.commands + [s.reader.item];
    } else if t.reader.Pushing? {
      assert before + s.commands + [] == before + s.commands;
    }
  }

  lemma WorkerKeepsItems(s: State, a: WorkerAct)
    requires ItemsConserved(s) && WorkerEnabled(s, a)
    ensures ItemsConserved(WorkerNext(s, a))
  {
    var t := WorkerNext(s, a);
    if a.TakeCommand? {
      TakeMovesItem(s);
      Shift(Items(s.answered), s.commands[0], t.commands, HeldByReader(s.reader));
    } else if a.Return? {
      ItemsGrow(s.answered, Command(s.worker.cmd), a.v);
      Shift(Items(t.answered), Command(s.worker.cmd), [], []);
    } else {
      assert t.answered == s.answered && t.commands == s.commands && t.produced == s.produced;
      assert HeldByWorker(t.worker) == HeldByWorker(s.worker);
    }
  }

  lemma TakeMovesItem(s: State)
    requires WorkerEnabled(s, TakeCommand)
    ensures var t := WorkerNext(s, TakeCommand);
      && s.commands == [s.commands[0]] + t.commands
      && HeldByWorker(s.worker) == []
      && Items(t.answered) + HeldByWorker(t.worker) == Items(s.answered) + [s.commands[0]]
  {
    var t := WorkerNext(s, TakeCommand);
    if t.worker.Responding? {
      ItemsGrow(s.answered, s.commands[0], t.worker.v);
    }
  }

  // Responses

  lemma WorkerKeepsOwed(s: State, a: WorkerAct)
    requires RepliesConserved(s) && WorkerEnabled(s, a)
    ensures RepliesConserved(WorkerNext(s, a))
  {
    var t := WorkerNext(s, a);
    if a.PushReply? {
      PushingKeepsOwed(s);
    } else if t.worker.Responding? {
      AnsweringKeepsOwed(s, a);
    } else {
      OthersOweTheSame(s, a);
    }
  }

  lemma PushingKeepsOwed(s: State)
    requires RepliesConserved(s) && WorkerEnabled(s, PushReply)
    ensures RepliesConserved(WorkerNext(s, PushReply))
  {
    var before := RepliesOut(s.out) + HeldByWriter(s.writer);
    assert before + (s.cmdOut + [s.worker.v]) + [] == before + s.cmdOut + [s.worker.v];
  }

  lemma OthersOweTheSame(s: State, a: WorkerAct)
    requires WorkerEnabled(s, a) && !a.PushReply? && !WorkerNext(s, a).worker.Responding?
    ensures var t := WorkerNext(s, a);
      && t.answered == s.answered && t.cmdOut == s.cmdOut && t.out == s.out && t.writer == s.writer
      && OwedByWorker(t.worker) == OwedByWorker(s.worker)
  {
  }

  lemma AnsweringKeepsOwed(s: State, a: WorkerAct)
    requires RepliesConserved(s) && WorkerEnabled(s, a) && WorkerNext(s, a).worker.Responding?
    ensures RepliesConserved(WorkerNext(s, a))
  {
    var t := WorkerNext(s, a);
    var before := RepliesOut(s.out) + HeldByWriter(s.writer) + s.cmdOut;
    AnsweringAddsOne(s, a);
    assert before + [] == before;
    ItemsGrow(s.answered, t.answered[|s.answered|].0, t.worker.v);
  }

  lemma AnsweringAddsOne(s: State, a: WorkerAct)
    requires WorkerEnabled(s, a) && WorkerNext(s, a).worker.Responding?
    ensures var t := WorkerNext(s, a);
      && OwedByWorker(s.worker) == [] && t.out == s.out && t.writer == s.writer && t.cmdOut == s.cmdOut
      && |t.answered| == |s.answered| + 1
      && t.answered == s.answered + [(t.answered[|s.answered|].0, t.worker.v)]
  {
  }

  lemma WriterKeepsOwed(k: Params, s: State, a: WriterAct)
    requires RepliesConserved(s) && ChannelsSane(s) && WriterEnabled(k, s, a)
    ensures RepliesConserved(WriterNext(k, s, a))
  {
    var t := WriterNext(k, s, a);
    if a.Emit? {
      EmitMovesReply(k, s);
    } else if a.TakeReply? {
      assert s.cmdOut == [s.cmdOut[0]] + t.cmdOut;
      Shift(RepliesOut(s.out), s.cmdOut[0], t.cmdOut, OwedByWorker(s.worker));
    } else {
      OthersHoldReplies(k, s, a);
    }
  }

  lemma EmitMovesReply(k: Params, s: State)
    requires WriterEnabled(k, s, Emit)
    ensures var t := WriterNext(k, s, Emit);
      RepliesOut(t.out) + HeldByWriter(t.writer) == RepliesOut(s.out) + HeldByWriter(s.writer)
  {
    var t := WriterNext(k, s, Emit);
    assert t.out[..|t.out| - 1] == s.out;
    assert RepliesOut(t.out) + [] == RepliesOut(t.out);
  }

  lemma OthersHoldReplies(k: Params, s: State, a: WriterAct)
    requires ChannelsSane(s) && WriterEnabled(k, s, a) && !a.Emit? && !a.TakeReply?
    ensures var t := WriterNext(k, s, a);
      t.out == s.out && t.cmdOut == s.cmdOut && HeldByWriter(t.writer) == HeldByWriter(s.writer)
  {
  }

  // The rest

  lemma WorkerKeepsFit(s: State, a: WorkerAct)
    requires AnswersFit(s) && QuitIsLast(s) && WorkerEnabled(s, a)
    ensures AnswersFit(WorkerNext(s, a))
  {
  }

  lemma WorkerKeepsQuit(s: State, a: WorkerAct)
    requires QuitIsLast(s) && WorkerEnabled(s, a)
    ensures QuitIsLast(WorkerNext(s, a))
  {
    match a
    case TakeCommand => TakingKeepsQuit(s);
    case _ =>
  }

  lemma TakingKeepsQuit(s: State)
    requires QuitIsLast(s) && WorkerEnabled(s, TakeCommand)
    ensures QuitIsLast(WorkerNext(s, TakeCommand))
  {
  }

  lemma WorkerKeepsChannels(s: State, a: WorkerAct)
    requires ChannelsSane(s) && QuitIsLast(s) && WorkerEnabled(s, a)
    ensures ChannelsSane(WorkerNext(s, a))
  {
  }

  lemma ReaderKeepsReplies(k: Params, s: State, a: ReaderAct)
    requires ReplyInv(s) && ReaderEnabled(k, s, a)
    ensures ReplyInv(ReaderNext(k, s, a))
  {
    ReaderKeepsItems(k, s, a);
    ReaderFootprint(k, s, a);
    KeptByReader(s, ReaderNext(k, s, a));
  }

  lemma KeptByReader(s: State, t: State)
    requires ReplyInv(s) && ItemsConserved(t) && |t.commands| <= COMMANDS_CAP
    requires t == s.(reader := t.reader, input := t.input, commands := t.commands, produced := t.produced,
                     streams := t.streams, terminations := t.terminations)
    ensures ReplyInv(t)
  {
  }

  lemma WorkerKeepsReplies(s: State, a: WorkerAct)
    requires ReplyInv(s) && WorkerEnabled(s, a)
    ensures ReplyInv(WorkerNext(s, a))
  {
    WorkerKeepsItems(s, a);
    WorkerKeepsOwed(s, a);
    WorkerKeepsFit(s, a);
    WorkerKeepsQuit(s, a);
    WorkerKeepsChannels(s, a);
  }

  lemma WriterKeepsReplies(k: Params, s: State, a: WriterAct)
    requires ReplyInv(s) && WriterEnabled(k, s, a)
    ensures ReplyInv(WriterNext(k, s, a))
  {
    WriterKeepsOwed(k, s, a);
    WriterKeepsChannels(k, s, a);
    WriterFootprint(k, s, a);
  }

  lemma WriterKeepsChannels(k: Params, s: State, a: WriterAct)
    requires ChannelsSane(s) && WriterEnabled(k, s, a)
    ensures ChannelsSane(WriterNext(k, s, a))
  {
  }

  lemma OthersKeepReplies(k: Params, s: State, a: Action)
    requires ReplyInv(s) && Enabled(k, s, a) && !a.ByReader? && !a.ByWorker? && !a.ByWriter?
    ensures ReplyInv(Next(k, s, a))
  {
    var t := Next(k, s, a);
    assert t.answered == s.answered && t.worker == s.worker && t.commands == s.commands && t.reader == s.reader;
    assert t.out == s.out && t.writer == s.writer && t.cmdOut == s.cmdOut && t.produced == s.produced;
  }

  lemma RepliesPreserved(k: Params, s: State, a: Action)
    requires ReplyInv(s) && Enabled(k, s, a)
    ensures ReplyInv(Next(k, s, a))
  {
    match a
    case ByReader(r) => ReaderKeepsReplies(k, s, r);
    case ByWorker(w) => WorkerKeepsReplies(s, w);
    case ByWriter(o) => WriterKeepsReplies(k, s, o);
    case _ => OthersKeepReplies(k, s, a);
  }

  // What the invariant says about the connection

  /** The j-th response on the wire answers the j-th item the reader produced, and nothing follows the
      answer to the first QUIT. */
  lemma RepliesInOrder(s: State)
    requires ReplyInv(s)
    ensures var sent := RepliesOut(s.out);
      && |sent| <= |s.answered| <= |s.produced|
      && (forall j :: 0 <= j < |sent| ==> sent[j] == s.answered[j].1 && Answered(s.produced[j], sent[j]))
      && (forall j :: 0 <= j < |s.answered| ==> s.answered[j].0 == s.produced[j])
      && (forall j :: 0 <= j < |s.answered| && QuitItem(s.produced[j]) ==> j == |s.answered| - 1)
  {
    var sent := RepliesOut(s.out);
    assert sent <= Answers(s.answered);
    assert Items(s.answered) <= s.produced;
    assert forall j :: 0 <= j < |s.answered| ==> Items(s.answered)[j] == s.produced[j];
  }

  /** The callback only ever sees the commands before the first QUIT, each in its turn. */
  lemma CallbackBeforeQuit(s: State)
    requires ReplyInv(s) && (s.worker.Calling? || s.worker.Closing?)
    ensures |s.answered| < |s.produced| && s.produced[|s.answered|] == Command(s.worker.cmd)
    ensures forall j :: 0 <= j <= |s.answered| ==> !QuitItem(s.produced[j])
  {
    RepliesInOrder(s);
    assert s.produced[|Items(s.answered)|] == Command(s.worker.cmd);
  }

  /** A writer that leaves by draining has written every response, in order, up to the OK for QUIT. */
  lemma DrainWritesEverything(s: State)
    requires ReplyInv(s) && s.writer.WriterGone? && s.writer.drained
    ensures RepliesOut(s.out) == Answers(s.answered)
    ensures s.answered != [] && QuitItem(s.produced[|s.answered| - 1])
    ensures RepliesOut(s.out)[|s.answered| - 1] == OK
  {
    RepliesInOrder(s);
  }

  /** Once `cmdOut` is closed, nothing is pushed to it and it is not closed again. */
  lemma NoSendAfterClose(s: State)
    requires ReplyInv(s) && s.cmdOutClosed
    ensures !WorkerEnabled(s, PushReply) && !WorkerEnabled(s, CloseOut)
  {
  }
}
