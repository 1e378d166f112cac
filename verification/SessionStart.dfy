/** How runs are built step by step, and how a session begins in which a client sends a first command. */
module SessionStart {
  import opened ByteStrings
  import opened Wire
  import WireLaws
  import opened SessionModel

  function Last(run: seq<State>): State
    requires run != []
  {
    run[|run| - 1]
  }

  lemma Extend(k: Params, run: seq<State>, a: Action) returns (longer: seq<State>)
    requires Run(k, run) && Enabled(k, Last(run), a)
    ensures Run(k, longer) && Last(longer) == Next(k, Last(run), a)
    ensures |longer| == |run| + 1 && longer[..|run|] == run
  {
    var t := Next(k, Last(run), a);
    longer := run + [t];
    assert Step(k, Last(run), t);
    forall j | 0 < j < |longer|
      ensures StepAt(k, longer, j)
    {
      if j < |run| {
        assert StepAt(k, run, j);
      }
    }
  }

  function Start(input: Bytes, fs: Files): State {
    State(input, ReadTop, [], WorkTop, [], false, [], WriteTop, [], seq(SLOTS, _ => None), 0, [], fs, 0, false, [], [])
  }

  const PATH: Path := [47]

  /** A command whose name is the empty string. */
  const COMMAND: Value := Arr([Str([])])

  lemma CommandIsRead(cfg: Config, later: Bytes)
    ensures Read(cfg, Print(COMMAND) + later) == Ok(COMMAND, later)
  {
    assert Printable(cfg, COMMAND, true);
    WireLaws.RoundTrip(cfg, COMMAND, true, later);
  }

  /** The worker is about to take the command, and the reader stands before what comes `later`. */
  lemma CommandArrives(k: Params, later: Bytes, fs: Files) returns (run: seq<State>)
    ensures Run(k, run)
    ensures var s := Last(run);
      && s == Start(later, fs).(worker := s.worker, commands := s.commands, produced := s.produced)
      && s.worker == Selecting && s.commands == [Command(COMMAND.vs)]
  {
    run := [Start(Print(COMMAND) + later, fs)];
    CommandIsRead(k.cfg, later);
    run := Extend(k, run, ByReader(ReadNext([])));
    run := Extend(k, run, ByReader(Dispatch([])));
    run := Extend(k, run, ByReader(PushItem));
    run := Extend(k, run, ByWorker(WorkerLook));
  }
}
