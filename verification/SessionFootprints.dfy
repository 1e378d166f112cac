/** Which parts of the session each goroutine can change. */
module SessionFootprints {
  import opened SessionModel

  lemma ReaderFootprint(k: Params, s: State, a: ReaderAct)
    requires ReaderEnabled(k, s, a)
    ensures var t := ReaderNext(k, s, a);
      t == s.(reader := t.reader, input := t.input, commands := t.commands, produced := t.produced,
              streams := t.streams, terminations := t.terminations)
    ensures var t := ReaderNext(k, s, a);
      && (!a.PushItem? ==> t.commands == s.commands)
      && (!a.PushFrame? ==> t.streams == s.streams)
      && t.produced == (if t.reader.Pushing? then s.produced + [t.reader.item] else s.produced)
      && (s.reader.Pushing? ==> a.PushItem?)
  {
  }

  lemma WorkerFootprint(s: State, a: WorkerAct)
    requires WorkerEnabled(s, a)
    ensures var t := WorkerNext(s, a);
      t == s.(worker := t.worker, commands := t.commands, cmdOut := t.cmdOut, cmdOutClosed := t.cmdOutClosed,
              answered := t.answered, slots := t.slots, streamCount := t.streamCount, streams := t.streams,
              fs := t.fs, terminations := t.terminations)
    ensures !a.ChangeFiles? ==> WorkerNext(s, a).fs == s.fs
    ensures !a.OpenRead? && !a.OpenWrite? && !a.OpenCopy? && !a.Signal? ==> WorkerNext(s, a).streams == s.streams
  {
  }

  lemma WriterFootprint(k: Params, s: State, a: WriterAct)
    requires WriterEnabled(k, s, a)
    ensures var t := WriterNext(k, s, a);
      t == s.(writer := t.writer, cmdOut := t.cmdOut, dataOut := t.dataOut, out := t.out,
              streams := t.streams, terminations := t.terminations)
    ensures !a.TakeData? ==> WriterNext(k, s, a).streams == s.streams
    ensures !a.Emit? ==> WriterNext(k, s, a).out == s.out
  {
  }
}
