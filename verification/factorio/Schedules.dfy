/**
 Schedule independence.  Whatever the threads do and in whatever order, what was
 received, followed by everything still inside pushed through the stages it has
 left, is what the stages compute one after the other on everything sent.
 */
module Schedules {
  import opened Stages
  import opened Network
  import opened ForkJoinRows
  import opened LineHistories

  /** Every fork-join has a line; with none its gatherer would emit on its own. */
  ghost predicate HasLines(cfg: Config) {
    forall k | 0 <= k < |cfg.stages| && cfg.stages[k].ForkJoin? :: cfg.stages[k].lines > 0
  }

  ghost predicate BlocksInv(cfg: Config, s: Net) {
    Fits(cfg, s) && forall k | 0 <= k < |s.blocks| :: BlockInv(cfg.stages[k], s.blocks[k])
  }

  /** While the caller keeps its receiver, threads return only after draining. */
  ghost predicate Draining(s: Net, k: nat)
    requires k < |s.blocks| && |s.chans| == |s.blocks| + 1
  {
    && (ReaderGone(s.blocks[k]) ==> s.chans[k] == [] && ChanWriterGone(s, k))
    && (s.blocks[k].Fork? && s.blocks[k].gatherer.Finished? ==>
          s.blocks[k].distributer.Stopped? && |s.blocks[k].joined| == |s.blocks[k].taken|)
  }

  ghost predicate Graceful(cfg: Config, s: Net) {
    && BlocksInv(cfg, s)
    && !s.consumer.Dropped?
    && (forall k | 0 <= k < |s.blocks| :: Draining(s, k))
    && (s.consumer.Disconnected? ==> s.chans[|s.blocks|] == [] && ChanWriterGone(s, |s.blocks|))
  }

  // ---- what is still inside -------------------------------------------------

  /** The outputs a stage owes for items it already took. */
  ghost function Pending(stage: Stage, b: Block): seq<Item> {
    if b.Straight? then if b.thread.Holding? then [b.thread.item] else []
    else
      (if b.gatherer.Offering? then [b.gatherer.output] else [])
      + (if |b.joined| <= |b.taken| then RunStage(stage, b.taken[|b.joined|..]) else [])
  }

  /** What stage `stage` and the channel behind it deliver, given what still reaches the stage. */
  ghost function Pass(stage: Stage, b: Block, below: seq<Item>, chan: seq<Item>): seq<Item> {
    chan + Pending(stage, b) + RunStage(stage, below)
  }

  /** Everything that will still arrive at the reader of channel `k`. */
  ghost function FlowOf(stages: seq<Stage>, chans: seq<seq<Item>>, blocks: seq<Block>, k: nat): seq<Item>
    requires k <= |stages| == |blocks| && |chans| == |blocks| + 1
  {
    if k == 0 then chans[0]
    else Pass(stages[k - 1], blocks[k - 1], FlowOf(stages, chans, blocks, k - 1), chans[k])
  }

  ghost function Flow(cfg: Config, s: Net, k: nat): seq<Item>
    requires Fits(cfg, s) && k <= |s.blocks|
  {
    FlowOf(cfg.stages, s.chans, s.blocks, k)
  }

  lemma FlowStep(cfg: Config, s: Net, k: nat)
    requires Fits(cfg, s) && k < |s.blocks|
    ensures Flow(cfg, s, k + 1) == Pass(cfg.stages[k], s.blocks[k], Flow(cfg, s, k), s.chans[k + 1])
  {
    hide RunStage, Pass, Pending;
  }

  lemma {:induction false} FlowBelow(cfg: Config, s: Net, s': Net, k: nat)
    requires Fits(cfg, s) && Fits(cfg, s') && k <= |s.blocks|
    requires forall j | 0 <= j <= k :: s.chans[j] == s'.chans[j]
    requires forall j | 0 <= j < k :: s.blocks[j] == s'.blocks[j]
    ensures Flow(cfg, s, k) == Flow(cfg, s', k)
  {
    hide RunStage, Pass;
    if k > 0 {
      FlowBelow(cfg, s, s', k - 1);
      var below := Flow(cfg, s, k - 1);
      assert Flow(cfg, s, k) == Pass(cfg.stages[k - 1], s.blocks[k - 1], below, s.chans[k]);
      assert Flow(cfg, s', k) == Pass(cfg.stages[k - 1], s.blocks[k - 1], below, s.chans[k]);
    }
  }

  lemma {:induction false} FlowAbove(cfg: Config, s: Net, s': Net, k: nat, j: nat)
    requires Fits(cfg, s) && Fits(cfg, s') && k <= j <= |s.blocks|
    requires Flow(cfg, s, k) == Flow(cfg, s', k)
    requires forall i | k < i <= j :: s.chans[i] == s'.chans[i]
    requires forall i | k <= i < j :: s.blocks[i] == s'.blocks[i]
    ensures Flow(cfg, s, j) == Flow(cfg, s', j)
    decreases j - k
  {
    hide RunStage, Pass, Pending;
    if k < j {
      FlowStep(cfg, s, k);
      FlowStep(cfg, s', k);
      FlowAbove(cfg, s, s', k + 1, j);
    }
  }

  lemma AcceptPending(stage: Stage, b: Block, x: Item)
    requires Shaped(stage, b) && ReaderWaits(b) && BlockInv(stage, b)
    ensures Pending(stage, Accept(stage, b, x)) == Pending(stage, b) + Apply(stage, x)
  {
    if b.Fork? {
      var rest := b.taken[|b.joined|..];
      assert (b.taken + [x])[|b.joined|..] == rest + [x];
      RunStageConcat(stage, rest, [x]);
      assert RunStage(stage, [x]) == Apply(stage, x);
    }
  }

  /** Moving the first item below a stage into it leaves what it delivers as it was. */
  lemma AcceptPasses(stage: Stage, b: Block, x: Item, below: seq<Item>, chan: seq<Item>)
    requires Shaped(stage, b) && ReaderWaits(b) && BlockInv(stage, b)
    ensures Pass(stage, Accept(stage, b, x), below, chan) == Pass(stage, b, [x] + below, chan)
  {
    hide Pending, Apply;
    AcceptPending(stage, b, x);
    RunStageConcat(stage, [x], below);
    assert RunStage(stage, [x]) == Apply(stage, x);
  }

  /** A step of stage `k` that touches only the two channels around it. */
  lemma LocalStep(cfg: Config, s: Net, s': Net, k: nat, below: seq<Item>, below': seq<Item>)
    requires Fits(cfg, s) && Fits(cfg, s') && k < |s.blocks|
    requires forall i | 0 <= i <= |s.blocks| && i != k && i != k + 1 :: s.chans[i] == s'.chans[i]
    requires forall i | 0 <= i < |s.blocks| && i != k :: s.blocks[i] == s'.blocks[i]
    requires below == Flow(cfg, s, k) && below' == Flow(cfg, s', k)
    requires Pass(cfg.stages[k], s.blocks[k], below, s.chans[k + 1])
          == Pass(cfg.stages[k], s'.blocks[k], below', s'.chans[k + 1])
    ensures Flow(cfg, s, |s.blocks|) == Flow(cfg, s', |s.blocks|)
  {
    hide RunStage, Pass, Pending;
    assert Flow(cfg, s, k + 1) == Pass(cfg.stages[k], s.blocks[k], below, s.chans[k + 1]);
    assert Flow(cfg, s', k + 1) == Pass(cfg.stages[k], s'.blocks[k], below', s'.chans[k + 1]);
    FlowAbove(cfg, s, s', k + 1, |s.blocks|);
  }

  /** Only the contents of channel `k` differ below its reader. */
  lemma FlowAt(cfg: Config, s: Net, s': Net, k: nat) returns (rest: seq<Item>)
    requires Fits(cfg, s) && Fits(cfg, s') && k <= |s.blocks|
    requires forall j | 0 <= j < k :: s.chans[j] == s'.chans[j] && s.blocks[j] == s'.blocks[j]
    ensures Flow(cfg, s, k) == s.chans[k] + rest && Flow(cfg, s', k) == s'.chans[k] + rest
  {
    hide RunStage, Pending;
    if k == 0 {
      rest := [];
    } else {
      FlowBelow(cfg, s, s', k - 1);
      rest := Pending(cfg.stages[k - 1], s.blocks[k - 1]) + RunStage(cfg.stages[k - 1], Flow(cfg, s, k - 1));
      assert Flow(cfg, s, k) == Pass(cfg.stages[k - 1], s.blocks[k - 1], Flow(cfg, s, k - 1), s.chans[k]);
      assert Flow(cfg, s', k) == Pass(cfg.stages[k - 1], s.blocks[k - 1], Flow(cfg, s, k - 1), s'.chans[k]);
    }
  }

  lemma TakeKeepsFlow(cfg: Config, s: Net, k: nat)
    requires BlocksInv(cfg, s) && Enabled(cfg, s, Take(k))
    ensures Flow(cfg, Next(cfg, s, Take(k)), |s.blocks|) == Flow(cfg, s, |s.blocks|)
  {
    hide RunStage, Pass, Pending;
    var s' := Next(cfg, s, Take(k));
    var x := s.chans[k][0];
    var rest := FlowAt(cfg, s, s', k);
    var below' := s'.chans[k] + rest;
    assert s.chans[k] + rest == [x] + below';
    AcceptPasses(cfg.stages[k], s.blocks[k], x, below', s.chans[k + 1]);
    LocalStep(cfg, s, s', k, [x] + below', below');
  }

  lemma ReleasePasses(stage: Stage, b: Block, below: seq<Item>, chan: seq<Item>)
    requires Shaped(stage, b) && Offers(b)
    ensures Pass(stage, Release(b), below, chan + [Offer(b)]) == Pass(stage, b, below, chan)
  {
    hide RunStage;
    var held := Pending(stage, Release(b));
    assert Pending(stage, b) == [Offer(b)] + held;
    Regroup(chan, Offer(b), held, RunStage(stage, below));
  }

  lemma Regroup(chan: seq<Item>, x: Item, held: seq<Item>, rest: seq<Item>)
    ensures (chan + [x]) + held + rest == chan + ([x] + held) + rest
  {
  }

  lemma PutKeepsFlow(cfg: Config, s: Net, k: nat)
    requires BlocksInv(cfg, s) && Enabled(cfg, s, Put(k))
    ensures Flow(cfg, Next(cfg, s, Put(k)), |s.blocks|) == Flow(cfg, s, |s.blocks|)
  {
    hide RunStage, Pass, Pending;
    var s' := Next(cfg, s, Put(k));
    FlowBelow(cfg, s, s', k);
    ReleasePasses(cfg.stages[k], s.blocks[k], Flow(cfg, s, k), s.chans[k + 1]);
    LocalStep(cfg, s, s', k, Flow(cfg, s, k), Flow(cfg, s, k));
  }

  lemma InnerPending(queue: nat, stage: Stage, b: Block, i: Inner)
    requires Shaped(stage, b) && BlockInv(stage, b) && InnerEnabled(queue, stage, b, i)
    requires |b.lines| > 0
    ensures Pending(stage, InnerNext(queue, stage, b, i)) == Pending(stage, b)
  {
    if i.Join? {
      var row := Row(stage.work, b.taken[|b.joined|], stage.lines);
      assert row[..|row|] == row;
      var rest := b.taken[|b.joined|..];
      assert rest[1..] == b.taken[|b.joined| + 1..];
    }
  }

  lemma InsideKeepsFlow(cfg: Config, s: Net, k: nat, i: Inner)
    requires BlocksInv(cfg, s) && HasLines(cfg) && Enabled(cfg, s, Inside(k, i))
    ensures Flow(cfg, Next(cfg, s, Inside(k, i)), |s.blocks|) == Flow(cfg, s, |s.blocks|)
  {
    hide RunStage;
    var s' := Next(cfg, s, Inside(k, i));
    InnerPending(cfg.queue, cfg.stages[k], s.blocks[k], i);
    FlowBelow(cfg, s, s', k);
    LocalStep(cfg, s, s', k, Flow(cfg, s, k), Flow(cfg, s, k));
  }

  lemma StopKeepsFlow(cfg: Config, s: Net, k: nat)
    requires Graceful(cfg, s) && Enabled(cfg, s, StopReading(k))
    ensures Flow(cfg, Next(cfg, s, StopReading(k)), |s.blocks|) == Flow(cfg, s, |s.blocks|)
  {
    hide RunStage;
    var s' := Next(cfg, s, StopReading(k));
    StopsDrained(cfg, s, k);
    FlowBelow(cfg, s, s', k);
    assert Pending(cfg.stages[k], s.blocks[k]) == Pending(cfg.stages[k], s'.blocks[k]);
    LocalStep(cfg, s, s', k, Flow(cfg, s, k), Flow(cfg, s, k));
  }

  lemma {:induction false} SendExtendsFlow(cfg: Config, s: Net, s': Net, x: Item, k: nat) returns (more: seq<Item>)
    requires Fits(cfg, s) && Fits(cfg, s') && k <= |s.blocks|
    requires Enabled(cfg, s, Send(x)) && s' == Next(cfg, s, Send(x))
    ensures more == Compose(cfg.stages, k, [x])
    ensures Flow(cfg, s', k) == Flow(cfg, s, k) + more
  {
    hide RunStage, Pass, Pending;
    if k == 0 {
      more := [x];
    } else {
      var more0 := SendExtendsFlow(cfg, s, s', x, k - 1);
      more := RunStage(cfg.stages[k - 1], more0);
      var below, below' := Flow(cfg, s, k - 1), Flow(cfg, s', k - 1);
      var flow, flow' := Flow(cfg, s, k), Flow(cfg, s', k);
      assert flow == Pass(cfg.stages[k - 1], s.blocks[k - 1], below, s.chans[k]) by { FlowStep(cfg, s, k - 1); }
      assert flow' == Pass(cfg.stages[k - 1], s.blocks[k - 1], below', s.chans[k]) by { FlowStep(cfg, s', k - 1); }
      assert flow' == flow + more by { PassExtends(cfg.stages[k - 1], s.blocks[k - 1], below, more0, s.chans[k]); }
    }
  }

  lemma PassExtends(stage: Stage, b: Block, below: seq<Item>, more: seq<Item>, chan: seq<Item>)
    ensures Pass(stage, b, below + more, chan) == Pass(stage, b, below, chan) + RunStage(stage, more)
  {
    hide RunStage, Pending;
    RunStageConcat(stage, below, more);
  }

  // ---- graceful endings -----------------------------------------------------

  lemma StopsDrained(cfg: Config, s: Net, k: nat)
    requires Graceful(cfg, s) && Enabled(cfg, s, StopReading(k))
    ensures s.chans[k] == [] && ChanWriterGone(s, k)
    ensures s.blocks[k].Fork? ==> s.blocks[k].distributer.Waiting?
  {
    assert Draining(s, k);
    assert BlockInv(cfg.stages[k], s.blocks[k]);
  }

  lemma NeverStopsWriting(cfg: Config, s: Net, k: nat)
    requires Graceful(cfg, s)
    ensures !Enabled(cfg, s, StopWriting(k))
  {
    assert k + 1 < |s.blocks| ==> Draining(s, k + 1);
  }

  /** A gatherer that sees a closed line has gathered every row. */
  lemma GathererEndsDrained(queue: nat, stage: Stage, b: Block)
    requires Shaped(stage, b) && BlockInv(stage, b) && InnerEnabled(queue, stage, b, GathererEnds)
    ensures b.distributer.Stopped? && |b.joined| == |b.taken| && b.gatherer.outs == []
    ensures forall l | 0 <= l < |b.lines| :: LineItems(stage.work, b.lines[l]) == []
  {
    var at := |b.gatherer.outs|;
    assert LineAligned(stage, b, at);
    forall l | 0 <= l < |b.lines| ensures LineItems(stage.work, b.lines[l]) == [] {
      assert LineAligned(stage, b, l);
    }
  }

  // ---- what every step keeps ------------------------------------------------

  lemma StepKeepsBlocks(cfg: Config, s: Net, a: Action)
    requires BlocksInv(cfg, s) && HasLines(cfg) && Enabled(cfg, s, a)
    ensures BlocksInv(cfg, Next(cfg, s, a))
  {
    match a
    case Take(k) => AcceptKeepsBlock(cfg.stages[k], s.blocks[k], s.chans[k][0]);
    case Put(k) => ReleaseKeepsBlock(cfg.stages[k], s.blocks[k]);
    case StopReading(k) =>
      EndReaderKeepsBlock(cfg.stages[k], s.blocks[k], s.chans[k] == [], ChanWriterGone(s, k));
    case StopWriting(k) => EndWriterKeepsBlock(cfg.stages[k], s.blocks[k]);
    case Inside(k, i) => InnerKeepsBlock(cfg.queue, cfg.stages[k], s.blocks[k], i);
    case _ =>
  }

  lemma InsideKeepsEnds(queue: nat, stage: Stage, b: Block, i: Inner)
    requires Shaped(stage, b) && BlockInv(stage, b) && InnerEnabled(queue, stage, b, i) && |b.lines| > 0
    requires b.gatherer.Finished? ==> b.distributer.Stopped? && |b.joined| == |b.taken|
    ensures var b' := InnerNext(queue, stage, b, i);
      && ReaderGone(b') == ReaderGone(b)
      && (WriterGone(b) ==> WriterGone(b'))
      && (b'.gatherer.Finished? ==> b'.distributer.Stopped? && |b'.joined| == |b'.taken|)
  {
    if i.GathererEnds? {
      GathererEndsDrained(queue, stage, b);
    }
  }

  lemma InsideKeepsDraining(cfg: Config, s: Net, k: nat, i: Inner, j: nat)
    requires Graceful(cfg, s) && HasLines(cfg) && Enabled(cfg, s, Inside(k, i)) && j < |s.blocks|
    ensures Draining(Next(cfg, s, Inside(k, i)), j)
  {
    hide BlockInv, InnerNext;
    assert Draining(s, j) && Draining(s, k);
    InsideKeepsEnds(cfg.queue, cfg.stages[k], s.blocks[k], i);
  }

  lemma StopKeepsDraining(cfg: Config, s: Net, k: nat, j: nat)
    requires Graceful(cfg, s) && Enabled(cfg, s, StopReading(k)) && j < |s.blocks|
    ensures Draining(Next(cfg, s, StopReading(k)), j)
  {
    hide BlockInv;
    assert Draining(s, j);
    StopsDrained(cfg, s, k);
  }

  /** Stage `j` keeps ending only when drained, whatever step is taken. */
  lemma StepKeepsDraining(cfg: Config, s: Net, a: Action, j: nat)
    requires Graceful(cfg, s) && HasLines(cfg) && Enabled(cfg, s, a) && !a.DropOutput? && j < |s.blocks|
    ensures Draining(Next(cfg, s, a), j)
  {
    hide BlockInv, InnerNext, MayStopReading, InnerEnabled;
    assert Draining(s, j);
    match a {
      case StopReading(k) => StopKeepsDraining(cfg, s, k, j);
      case StopWriting(k) => NeverStopsWriting(cfg, s, k);
      case Inside(k, i) => InsideKeepsDraining(cfg, s, k, i, j);
      case _ =>
    }
  }

  lemma StepKeepsGraceful(cfg: Config, s: Net, a: Action)
    requires Graceful(cfg, s) && HasLines(cfg) && Enabled(cfg, s, a) && !a.DropOutput?
    ensures Graceful(cfg, Next(cfg, s, a))
  {
    hide BlockInv, Draining;
    var m, s' := |s.blocks|, Next(cfg, s, a);
    StepKeepsBlocks(cfg, s, a);
    forall j | 0 <= j < m ensures Draining(s', j) {
      StepKeepsDraining(cfg, s, a, j);
    }
    StepKeepsClosed(cfg, s, a);
  }

  /** A closed and drained output channel stays so. */
  lemma StepKeepsClosed(cfg: Config, s: Net, a: Action)
    requires Graceful(cfg, s) && HasLines(cfg) && Enabled(cfg, s, a) && !a.DropOutput?
    ensures var m, s' := |s.blocks|, Next(cfg, s, a);
      !s'.consumer.Dropped? && (s'.consumer.Disconnected? ==> s'.chans[m] == [] && ChanWriterGone(s', m))
  {
    hide BlockInv, InnerNext;
    var m := |s.blocks|;
    if a.Inside? && a.k == m - 1 {
      assert Draining(s, a.k);
      InsideKeepsEnds(cfg.queue, cfg.stages[a.k], s.blocks[a.k], a.i);
    }
    if a.StopReading? {
      StopsDrained(cfg, s, a.k);
    }
  }

  /** Received so far, followed by everything still inside. */
  ghost function Total(cfg: Config, s: Net): seq<Item>
    requires Fits(cfg, s)
  {
    s.received + Flow(cfg, s, |s.blocks|)
  }

  lemma SendExtendsTotal(cfg: Config, s: Net, x: Item)
    requires Fits(cfg, s) && Enabled(cfg, s, Send(x))
    ensures Total(cfg, Next(cfg, s, Send(x))) == Total(cfg, s) + Compose(cfg.stages, |s.blocks|, [x])
  {
    hide RunStage, Pass;
    var more := SendExtendsFlow(cfg, s, Next(cfg, s, Send(x)), x, |s.blocks|);
  }

  lemma GetKeepsTotal(cfg: Config, s: Net)
    requires Fits(cfg, s) && Enabled(cfg, s, GetOutput)
    ensures Total(cfg, Next(cfg, s, GetOutput)) == Total(cfg, s)
  {
    hide RunStage, Pass;
    var rest := FlowAt(cfg, s, Next(cfg, s, GetOutput), |s.blocks|);
  }

  lemma IdleKeepsTotal(cfg: Config, s: Net, a: Action)
    requires Fits(cfg, s) && Enabled(cfg, s, a) && (a.CloseInput? || a.AskOutput? || a.SeeEnd?)
    ensures Total(cfg, Next(cfg, s, a)) == Total(cfg, s)
  {
    hide RunStage, Pass;
    FlowBelow(cfg, s, Next(cfg, s, a), |s.blocks|);
  }

  /** No thread step adds to, drops from or reorders received plus inside. */
  lemma StepKeepsTotal(cfg: Config, s: Net, a: Action)
    requires Graceful(cfg, s) && HasLines(cfg) && Enabled(cfg, s, a) && !a.DropOutput? && !a.Send?
    ensures Total(cfg, Next(cfg, s, a)) == Total(cfg, s)
  {
    hide RunStage, Pass, Pending;
    match a {
      case Take(k) => TakeKeepsFlow(cfg, s, k);
      case Put(k) => PutKeepsFlow(cfg, s, k);
      case StopReading(k) => StopKeepsFlow(cfg, s, k);
      case StopWriting(k) => NeverStopsWriting(cfg, s, k);
      case Inside(k, i) => InsideKeepsFlow(cfg, s, k, i);
      case GetOutput => GetKeepsTotal(cfg, s);
      case _ => IdleKeepsTotal(cfg, s, a);
    }
  }

  // ---- whole runs -----------------------------------------------------------

  /** The claim carried along every run from the start. */
  ghost predicate Faithful(cfg: Config, s: Net) {
    && BlocksInv(cfg, s)
    && s.received <= Compose(cfg.stages, |cfg.stages|, s.sent)
    && (!s.consumer.Dropped? ==>
          Graceful(cfg, s) && Total(cfg, s) == Compose(cfg.stages, |cfg.stages|, s.sent))
  }

  lemma NewPassesNothing(stage: Stage)
    ensures Pass(stage, NewBlock(stage), [], []) == []
  {
  }

  lemma {:induction false} InitFlowsNothing(cfg: Config, k: nat)
    requires k <= |cfg.stages|
    ensures Flow(cfg, Init(cfg), k) == []
  {
    hide Pass, NewBlock;
    if k > 0 {
      InitFlowsNothing(cfg, k - 1);
      FlowStep(cfg, Init(cfg), k - 1);
      NewPassesNothing(cfg.stages[k - 1]);
    }
  }

  lemma InitFaithful(cfg: Config)
    ensures Faithful(cfg, Init(cfg))
  {
    InitFlowsNothing(cfg, |cfg.stages|);
    ComposeNothing(cfg.stages, |cfg.stages|);
    forall k | 0 <= k < |cfg.stages| ensures BlockInv(cfg.stages[k], Init(cfg).blocks[k]) {
      NewBlockInv(cfg.stages[k]);
    }
  }

  lemma StepKeepsFaithful(cfg: Config, s: Net, a: Action)
    requires Faithful(cfg, s) && HasLines(cfg) && Enabled(cfg, s, a)
    ensures Faithful(cfg, Next(cfg, s, a))
  {
    hide RunStage, Pass, Pending;
    StepKeepsBlocks(cfg, s, a);
    if a.Send? {
      ComposeConcat(cfg.stages, |cfg.stages|, s.sent, [a.x]);
      SendExtendsTotal(cfg, s, a.x);
    } else if !s.consumer.Dropped? && !a.DropOutput? {
      StepKeepsTotal(cfg, s, a);
    }
    if !s.consumer.Dropped? && !a.DropOutput? {
      StepKeepsGraceful(cfg, s, a);
    }
  }

  lemma {:induction false} RunKeepsFaithful(cfg: Config, s: Net, acts: seq<Action>)
    requires Faithful(cfg, s) && HasLines(cfg) && Runs(cfg, s, acts)
    ensures Faithful(cfg, After(cfg, s, acts))
    decreases |acts|
  {
    if acts != [] {
      StepKeepsFaithful(cfg, s, acts[0]);
      RunKeepsFaithful(cfg, Next(cfg, s, acts[0]), acts[1..]);
    }
  }

  /** Once the output channel is reported closed, nothing is left anywhere. */
  lemma {:induction false} DrainedBelow(cfg: Config, s: Net, k: nat)
    requires Graceful(cfg, s) && k <= |s.blocks|
    requires s.chans[k] == [] && ChanWriterGone(s, k)
    ensures Flow(cfg, s, k) == [] && !s.open
  {
    if k > 0 {
      assert Draining(s, k - 1);
      DrainedBelow(cfg, s, k - 1);
      FlowStep(cfg, s, k - 1);
    }
  }

  /**
   For every queue size, every list of stages and every interleaving: what was
   received is a prefix of the sequential result, in order; until the caller drops
   its receiver it equals that result once the items still inside are added; and a
   caller that reads until the channel is closed got exactly all of it.
   */
  lemma ScheduleIndependence(cfg: Config, acts: seq<Action>)
    requires HasLines(cfg) && Runs(cfg, Init(cfg), acts)
    ensures var s := After(cfg, Init(cfg), acts);
      var result := Compose(cfg.stages, |cfg.stages|, s.sent);
      && s.received <= result
      && (!s.consumer.Dropped? ==> s.received + Flow(cfg, s, |cfg.stages|) == result)
      && (s.consumer.Disconnected? ==> s.received == result && !s.open)
  {
    hide RunStage, Pass;
    InitFaithful(cfg);
    RunKeepsFaithful(cfg, Init(cfg), acts);
    var s := After(cfg, Init(cfg), acts);
    if s.consumer.Disconnected? {
      DrainedBelow(cfg, s, |cfg.stages|);
    }
  }

  /** Two runs that were sent the same items and drained received the same items. */
  lemma DrainedRunsAgree(cfg: Config, acts: seq<Action>, acts': seq<Action>)
    requires HasLines(cfg) && Runs(cfg, Init(cfg), acts) && Runs(cfg, Init(cfg), acts')
    requires After(cfg, Init(cfg), acts).sent == After(cfg, Init(cfg), acts').sent
    requires After(cfg, Init(cfg), acts).consumer.Disconnected?
    requires After(cfg, Init(cfg), acts').consumer.Disconnected?
    ensures After(cfg, Init(cfg), acts).received == After(cfg, Init(cfg), acts').received
  {
    ScheduleIndependence(cfg, acts);
    ScheduleIndependence(cfg, acts');
  }

  /**
   Fork-join rows in every reachable state: the lines were sent the first items taken, in
   numbers that fall by at most one from the first line to the last; the `k`-th result of
   line `l` is its own work on the `k`-th item; every vector joined is one whole row, in
   input order; and while the gatherer runs, the results it has not read are the next ones.
   */
  lemma RowsStayAligned(cfg: Config, acts: seq<Action>, k: nat)
    requires HasLines(cfg) && Runs(cfg, Init(cfg), acts)
    requires k < |cfg.stages| && cfg.stages[k].ForkJoin?
    ensures var b := After(cfg, Init(cfg), acts).blocks[k];
      && Shaped(cfg.stages[k], b) && DealtInOrder(b) && MadeFromTaken(cfg.stages[k], b)
      && WholeRows(cfg.stages[k], b) && GathererAligned(cfg.stages[k], b)
      && (!b.gatherer.Finished? ==> forall l | 0 <= l < |b.lines| :: LineAligned(cfg.stages[k], b, l))
  {
    hide DealtInOrder, MadeFromTaken, LineAligned, WholeRows, Runs, After;
    InitFaithful(cfg);
    RunKeepsFaithful(cfg, Init(cfg), acts);
    LinesDealtInOrder(cfg, acts, k);
    assert BlockInv(cfg.stages[k], After(cfg, Init(cfg), acts).blocks[k]);
  }
}
