/** The pipeline a builder hands over: the builder's stages run as threads with its queue size. */
module Built {
  import opened Options
  import opened Stages
  import opened Builder
  import opened Network
  import opened Schedules

  /** What `build` hands over. */
  function Build(b: FactorioBuilder): Config {
    Config(b.queueSize, b.stages)
  }

  /** Every queue of the pipeline has the size the builder was made with. */
  lemma QueueSizeKept(b: FactorioBuilder, q: nat, f: Item -> Option<Item>, g: Item -> Item, p: Item -> bool,
                      work: (Item, nat) -> Item, lines: nat, join: seq<Item> -> Item)
    ensures Build(FactorioBuilder.New(q)).queue == q
    ensures Build(b.FilterMap(f)).queue == Build(b.Map(g)).queue == Build(b.Filter(p)).queue == b.queueSize
    ensures Build(b.ForkJoin(work, lines, join)).queue == b.queueSize
  {
  }

  /**
   Running a built pipeline delivers what the builder says it computes: always a prefix of
   it, in order, and all of it to a caller that reads until the channel is closed.
   */
  lemma BuiltDelivers(b: FactorioBuilder, acts: seq<Action>)
    requires HasLines(Build(b)) && Runs(Build(b), Init(Build(b)), acts)
    ensures var s := After(Build(b), Init(Build(b)), acts);
      && s.received <= b.Output(s.sent)
      && (s.consumer.Disconnected? ==> s.received == b.Output(s.sent))
  {
    hide Runs, After, Compose;
    ScheduleIndependence(Build(b), acts);
  }

  /** The caller can drop its senders, ask for output, or drop its receiver whenever it is free to. */
  lemma CallerIsFree(cfg: Config, s: Net)
    requires Fits(cfg, s)
    ensures Enabled(cfg, s, CloseInput) <==> s.open
    ensures Enabled(cfg, s, AskOutput) <==> s.consumer.Away?
    ensures Enabled(cfg, s, DropOutput) <==> s.consumer.Away?
    ensures s.open ==> var s' := Next(cfg, s, CloseInput);
      !s'.open && s'.chans == s.chans && s'.blocks == s.blocks && s'.consumer == s.consumer
    ensures s.consumer.Away? ==> var s' := Next(cfg, s, DropOutput);
      s'.consumer.Dropped? && s'.received == s.received && s'.blocks == s.blocks && s'.open == s.open
  {
  }
}
