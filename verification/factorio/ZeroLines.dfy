/**
 Why a fork-join needs a line.  With `n_lines == 0` the gatherer never receives
 anything, so it joins empty rows and forwards them without any input.
 */
module ZeroLines {
  import opened Stages
  import opened Builder
  import opened Network
  import opened Schedules

  /** Whatever the schedule, the caller receives a prefix of the sequential result. */
  ghost predicate DeliversInOrder(cfg: Config) {
    forall acts | Runs(cfg, Init(cfg), acts) ::
      After(cfg, Init(cfg), acts).received <= Compose(cfg.stages, |cfg.stages|, After(cfg, Init(cfg), acts).sent)
  }

  ghost function ForkJoinConfig(queue: nat, work: (Item, nat) -> Item, lines: nat, join: seq<Item> -> Item): Config {
    Config(queue, FactorioBuilder.New(queue).ForkJoin(work, lines, join).stages)
  }

  /** A pipeline of one fork-join delivers in order under every schedule exactly when it has a line. */
  lemma InOrderIffLines(queue: nat, work: (Item, nat) -> Item, lines: nat, join: seq<Item> -> Item)
    ensures DeliversInOrder(ForkJoinConfig(queue, work, lines, join)) <==> lines > 0
  {
    var cfg := ForkJoinConfig(queue, work, lines, join);
    if lines > 0 {
      forall acts | Runs(cfg, Init(cfg), acts)
        ensures After(cfg, Init(cfg), acts).received <= Compose(cfg.stages, |cfg.stages|, After(cfg, Init(cfg), acts).sent)
      {
        ScheduleIndependence(cfg, acts);
      }
    } else {
      EmptyRowEscapes(cfg);
      ComposeNothing(cfg.stages, |cfg.stages|);
      var acts := [AskOutput, Inside(1, Join), Put(1), GetOutput];
      assert Runs(cfg, Init(cfg), acts);
    }
  }

  lemma StepThenRun(cfg: Config, s: Net, a: Action, rest: seq<Action>)
    requires Fits(cfg, s) && Enabled(cfg, s, a) && Runs(cfg, Next(cfg, s, a), rest)
    ensures Runs(cfg, s, [a] + rest) && After(cfg, s, [a] + rest) == After(cfg, Next(cfg, s, a), rest)
  {
    hide Enabled, Next;
    assert ([a] + rest)[1..] == rest;
  }

  /** The empty row is complete at once. */
  lemma EmptyRowJoins(cfg: Config) returns (s: Net)
    requires |cfg.stages| == 2 && cfg.stages[1].ForkJoin? && cfg.stages[1].lines == 0
    ensures var s0 := Init(cfg);
      && Enabled(cfg, s0, AskOutput) && Enabled(cfg, Next(cfg, s0, AskOutput), Inside(1, Join))
      && s == Next(cfg, Next(cfg, s0, AskOutput), Inside(1, Join))
    ensures Fits(cfg, s) && s.sent == [] && s.received == [] && s.chans == Init(cfg).chans && s.consumer.Receiving?
    ensures s.blocks[1].Fork? && s.blocks[1].gatherer == Offering(cfg.stages[1].join([]))
  {
    s := Next(cfg, Next(cfg, Init(cfg), AskOutput), Inside(1, Join));
  }

  lemma EmptyRowArrives(cfg: Config, s: Net)
    requires Fits(cfg, s) && |cfg.stages| == 2 && s.sent == [] && s.received == []
    requires s.chans[2] == [] && s.consumer.Receiving? && s.blocks[1].Fork? && s.blocks[1].gatherer.Offering?
    ensures Enabled(cfg, s, Put(1)) && Enabled(cfg, Next(cfg, s, Put(1)), GetOutput)
    ensures var s' := Next(cfg, Next(cfg, s, Put(1)), GetOutput);
      s'.sent == [] && s'.received == [s.blocks[1].gatherer.output]
  {
  }

  /** Nothing is sent, yet the joined empty row is received. */
  lemma EmptyRowEscapes(cfg: Config)
    requires |cfg.stages| == 2 && cfg.stages[1].ForkJoin? && cfg.stages[1].lines == 0
    ensures var acts := [AskOutput, Inside(1, Join), Put(1), GetOutput];
      && Runs(cfg, Init(cfg), acts)
      && After(cfg, Init(cfg), acts).sent == []
      && After(cfg, Init(cfg), acts).received == [cfg.stages[1].join([])]
  {
    var s := EmptyRowJoins(cfg);
    EmptyRowArrives(cfg, s);
    hide Enabled, Next, Init;
    var s1, s3 := Next(cfg, Init(cfg), AskOutput), Next(cfg, s, Put(1));
    StepThenRun(cfg, s3, GetOutput, []);
    StepThenRun(cfg, s, Put(1), [GetOutput]);
    StepThenRun(cfg, s1, Inside(1, Join), [Put(1), GetOutput]);
    StepThenRun(cfg, Init(cfg), AskOutput, [Inside(1, Join), Put(1), GetOutput]);
    assert [GetOutput] + [] == [GetOutput];
    assert [AskOutput] + [Inside(1, Join), Put(1), GetOutput] == [AskOutput, Inside(1, Join), Put(1), GetOutput];
    assert [Inside(1, Join)] + [Put(1), GetOutput] == [Inside(1, Join), Put(1), GetOutput];
    assert [Put(1)] + [GetOutput] == [Put(1), GetOutput];
  }
}
