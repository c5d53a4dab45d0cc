/**
 Shutdown.  Every step but a send uses up part of a finite amount of remaining work,
 and a closed pipeline that cannot step any more has no thread left, so `close`
 returns.
 */
module Shutdown {
  import opened Stages
  import opened Network
  import opened ForkJoinRows
  import opened Schedules
  import opened Progress

  // ---- remaining work -------------------------------------------------------

  ghost function Sum(xs: seq<nat>): nat {
    if xs == [] then 0 else xs[0] + Sum(xs[1..])
  }

  lemma {:induction false} SumUpdate(xs: seq<nat>, i: nat, v: nat)
    requires i < |xs|
    ensures Sum(xs[i := v]) + xs[i] == Sum(xs) + v
  {
    if i == 0 {
      assert xs[0 := v][1..] == xs[1..];
    } else {
      assert xs[i := v][1..] == xs[1..][i - 1 := v];
      SumUpdate(xs[1..], i - 1, v);
    }
  }

  /** The steps one item in channel `k` can still cause, to its receipt by the caller. */
  ghost function Cost(stages: seq<Stage>, k: nat): nat
    requires k <= |stages|
    decreases |stages| - k
  {
    if k == |stages| then 2
    else match stages[k]
      case FilterMap(_) => Cost(stages, k + 1) + 2
      case ForkJoin(_, n, _) => n * (Cost(stages, k + 1) + 6) + 1
  }

  ghost function ThreadWork(t: Thread, held: nat): nat {
    match t
    case Idle => 1
    case Holding(_) => 1 + held
    case Ended => 0
  }

  /** `c` is the cost of an item in the stage's output channel. */
  ghost function LineWork(line: Line, c: nat): nat {
    |line.inputs| * (c + 5) + ThreadWork(line.worker, c + 4) + |line.outputs| * (c + 3)
  }

  ghost function LinesWork(lines: seq<Line>, c: nat): (r: seq<nat>)
    ensures |r| == |lines|
  {
    seq(|lines|, l requires 0 <= l < |lines| => LineWork(lines[l], c))
  }

  ghost function DistributerWork(d: Distributer, n: nat, c: nat): nat {
    match d
    case Waiting => 1
    case Sending(_, l) => 1 + (if l < n then (n - l) * (c + 6) else 0)
    case Stopped => 0
  }

  ghost function GathererWork(g: Gatherer, c: nat): nat {
    match g
    case Collecting(outs) => 1 + |outs| * (c + 2)
    case Offering(_) => 1 + c + 1
    case Finished => 0
  }

  ghost function BlockWork(b: Block, c: nat): nat {
    if b.Straight? then ThreadWork(b.thread, c + 1)
    else DistributerWork(b.distributer, |b.lines|, c) + Sum(LinesWork(b.lines, c)) + GathererWork(b.gatherer, c)
  }

  ghost function BlocksWork(cfg: Config, s: Net): (r: seq<nat>)
    requires Fits(cfg, s)
    ensures |r| == |s.blocks|
  {
    seq(|s.blocks|, k requires 0 <= k < |s.blocks| => BlockWork(s.blocks[k], Cost(cfg.stages, k + 1)))
  }

  ghost function ChansWork(cfg: Config, s: Net): (r: seq<nat>)
    requires Fits(cfg, s)
    ensures |r| == |s.chans|
  {
    seq(|s.chans|, k requires 0 <= k < |s.chans| => |s.chans[k]| * Cost(cfg.stages, k))
  }

  ghost function ConsumerWork(c: Consumer): nat {
    match c
    case Away => 2
    case Receiving => 1
    case Disconnected => 0
    case Dropped => 0
  }

  /** An upper bound on the steps left if nothing more is sent. */
  ghost function Work(cfg: Config, s: Net): nat
    requires Fits(cfg, s)
  {
    Sum(ChansWork(cfg, s)) + Sum(BlocksWork(cfg, s)) + ConsumerWork(s.consumer) + (if s.open then 1 else 0)
  }

  lemma OneMore(a: nat, b: nat)
    ensures (a + 1) * b == a * b + b
  {
  }

  // ---- a step inside a fork-join --------------------------------------------

  lemma LineUpdateWork(lines: seq<Line>, l: nat, line: Line, c: nat)
    requires l < |lines|
    ensures Sum(LinesWork(lines[l := line], c)) + LineWork(lines[l], c) == Sum(LinesWork(lines, c)) + LineWork(line, c)
  {
    SumUpdate(LinesWork(lines, c), l, LineWork(line, c));
    assert LinesWork(lines[l := line], c) == LinesWork(lines, c)[l := LineWork(line, c)];
  }

  lemma {:induction false} SumBelow(xs: seq<nat>, ys: seq<nat>)
    requires |xs| == |ys| && forall i | 0 <= i < |xs| :: xs[i] <= ys[i]
    ensures Sum(xs) <= Sum(ys)
  {
    if xs != [] {
      SumBelow(xs[1..], ys[1..]);
    }
  }

  lemma DropOutputsWork(lines: seq<Line>, c: nat)
    ensures Sum(LinesWork(DropOutputs(lines), c)) <= Sum(LinesWork(lines, c))
  {
    SumBelow(LinesWork(DropOutputs(lines), c), LinesWork(lines, c));
  }

  lemma EndWriterWork(b: Block, c: nat)
    requires b.Straight? ==> b.thread.Holding?
    requires b.Fork? ==> !b.gatherer.Finished?
    ensures BlockWork(EndWriter(b), c) < BlockWork(b, c)
  {
    if b.Fork? {
      DropOutputsWork(b.lines, c);
    }
  }

  lemma DistributeWork(queue: nat, stage: Stage, b: Block, c: nat)
    requires Shaped(stage, b) && InnerEnabled(queue, stage, b, Inner.Distribute)
    ensures BlockWork(InnerNext(queue, stage, b, Inner.Distribute), c) < BlockWork(b, c)
  {
    var b' := InnerNext(queue, stage, b, Inner.Distribute);
    var l := b.distributer.line;
    LineUpdateWork(b.lines, l, b'.lines[l], c);
    OneMore(|b.lines[l].inputs|, c + 5);
    OneMore(|b.lines| - l - 1, c + 6);
  }

  lemma WorkerWork(queue: nat, stage: Stage, b: Block, i: Inner, c: nat)
    requires Shaped(stage, b) && InnerEnabled(queue, stage, b, i)
    requires i.WorkerTakes? || i.WorkerPuts? || i.WorkerEnds?
    ensures BlockWork(InnerNext(queue, stage, b, i), c) < BlockWork(b, c)
  {
    var line, line' := b.lines[i.l], InnerNext(queue, stage, b, i).lines[i.l];
    LineUpdateWork(b.lines, i.l, line', c);
    match i {
      case WorkerTakes(l) => OneMore(|line'.inputs|, c + 5);
      case WorkerPuts(l) => OneMore(|line.outputs|, c + 3);
      case WorkerEnds(l) =>
    }
    assert LineWork(line', c) < LineWork(line, c);
  }

  lemma GatherWork(queue: nat, stage: Stage, b: Block, c: nat)
    requires Shaped(stage, b) && InnerEnabled(queue, stage, b, Gather)
    ensures BlockWork(InnerNext(queue, stage, b, Gather), c) < BlockWork(b, c)
  {
    var b' := InnerNext(queue, stage, b, Gather);
    var l := |b.gatherer.outs|;
    LineUpdateWork(b.lines, l, b'.lines[l], c);
    OneMore(|b'.lines[l].outputs|, c + 3);
    OneMore(|b.gatherer.outs|, c + 2);
  }

  lemma JoinWork(queue: nat, stage: Stage, b: Block, c: nat)
    requires Shaped(stage, b) && InnerEnabled(queue, stage, b, Join) && |b.lines| > 0
    ensures BlockWork(InnerNext(queue, stage, b, Join), c) < BlockWork(b, c)
  {
    OneMore(|b.gatherer.outs| - 1, c + 2);
  }

  lemma InnerWork(queue: nat, stage: Stage, b: Block, i: Inner, c: nat)
    requires Shaped(stage, b) && InnerEnabled(queue, stage, b, i) && |b.lines| > 0
    ensures BlockWork(InnerNext(queue, stage, b, i), c) < BlockWork(b, c)
  {
    match i
    case Distribute => DistributeWork(queue, stage, b, c);
    case Gather => GatherWork(queue, stage, b, c);
    case GathererEnds => EndWriterWork(b, c);
    case Join => JoinWork(queue, stage, b, c);
    case _ => WorkerWork(queue, stage, b, i, c);
  }

  // ---- a step of the pipeline -----------------------------------------------

  lemma BlockUpdateWork(cfg: Config, s: Net, s': Net, k: nat)
    requires Fits(cfg, s) && Fits(cfg, s') && k < |s.blocks| && s'.blocks == s.blocks[k := s'.blocks[k]]
    ensures Sum(BlocksWork(cfg, s')) + BlockWork(s.blocks[k], Cost(cfg.stages, k + 1))
         == Sum(BlocksWork(cfg, s)) + BlockWork(s'.blocks[k], Cost(cfg.stages, k + 1))
  {
    var v := BlockWork(s'.blocks[k], Cost(cfg.stages, k + 1));
    SumUpdate(BlocksWork(cfg, s), k, v);
    assert BlocksWork(cfg, s') == BlocksWork(cfg, s)[k := v];
  }

  lemma ChanUpdateWork(cfg: Config, s: Net, s': Net, k: nat)
    requires Fits(cfg, s) && Fits(cfg, s') && k <= |s.blocks| && s'.chans == s.chans[k := s'.chans[k]]
    ensures Sum(ChansWork(cfg, s')) + |s.chans[k]| * Cost(cfg.stages, k)
         == Sum(ChansWork(cfg, s)) + |s'.chans[k]| * Cost(cfg.stages, k)
  {
    var v := |s'.chans[k]| * Cost(cfg.stages, k);
    SumUpdate(ChansWork(cfg, s), k, v);
    assert ChansWork(cfg, s') == ChansWork(cfg, s)[k := v];
  }

  lemma SameBlocksWork(cfg: Config, s: Net, s': Net)
    requires Fits(cfg, s) && Fits(cfg, s') && s'.blocks == s.blocks
    ensures Sum(BlocksWork(cfg, s')) == Sum(BlocksWork(cfg, s))
  {
    assert BlocksWork(cfg, s') == BlocksWork(cfg, s);
  }

  lemma SameChansWork(cfg: Config, s: Net, s': Net)
    requires Fits(cfg, s) && Fits(cfg, s') && s'.chans == s.chans
    ensures Sum(ChansWork(cfg, s')) == Sum(ChansWork(cfg, s))
  {
    assert ChansWork(cfg, s') == ChansWork(cfg, s);
  }

  lemma AcceptWork(cfg: Config, b: Block, x: Item, k: nat)
    requires HasLines(cfg) && k < |cfg.stages| && Shaped(cfg.stages[k], b) && ReaderWaits(b)
    ensures var c := Cost(cfg.stages, k + 1);
      BlockWork(Accept(cfg.stages[k], b, x), c) < BlockWork(b, c) + Cost(cfg.stages, k)
  {
  }

  lemma TakeWork(cfg: Config, s: Net, k: nat)
    requires Fits(cfg, s) && HasLines(cfg) && Enabled(cfg, s, Take(k))
    ensures Work(cfg, Next(cfg, s, Take(k))) < Work(cfg, s)
  {
    hide Cost, BlockWork;
    var s' := Next(cfg, s, Take(k));
    ChanUpdateWork(cfg, s, s', k);
    BlockUpdateWork(cfg, s, s', k);
    OneMore(|s'.chans[k]|, Cost(cfg.stages, k));
    AcceptWork(cfg, s.blocks[k], s.chans[k][0], k);
  }

  lemma ReleaseWork(b: Block, c: nat)
    requires Offers(b)
    ensures BlockWork(Release(b), c) + c < BlockWork(b, c)
  {
  }

  lemma PutWork(cfg: Config, s: Net, k: nat)
    requires Fits(cfg, s) && Enabled(cfg, s, Put(k))
    ensures Work(cfg, Next(cfg, s, Put(k))) < Work(cfg, s)
  {
    hide Cost, BlockWork;
    var s' := Next(cfg, s, Put(k));
    ChanUpdateWork(cfg, s, s', k + 1);
    BlockUpdateWork(cfg, s, s', k);
    OneMore(|s.chans[k + 1]|, Cost(cfg.stages, k + 1));
    ReleaseWork(s.blocks[k], Cost(cfg.stages, k + 1));
  }

  lemma {:induction false} Fewer(a: nat, b: nat, c: nat)
    requires a <= b
    ensures a * c <= b * c
  {
    if a < b {
      OneMore(b - 1, c);
      Fewer(a, b - 1, c);
    }
  }

  /** Emptying or leaving a channel never adds work. */
  lemma ShrunkChanWork(cfg: Config, s: Net, s': Net, k: nat)
    requires Fits(cfg, s) && Fits(cfg, s') && k <= |s.blocks| && s'.chans == s.chans[k := s'.chans[k]]
    requires |s'.chans[k]| <= |s.chans[k]|
    ensures Sum(ChansWork(cfg, s')) <= Sum(ChansWork(cfg, s))
  {
    ChanUpdateWork(cfg, s, s', k);
    Fewer(|s'.chans[k]|, |s.chans[k]|, Cost(cfg.stages, k));
  }

  lemma EndReaderWork(b: Block, empty: bool, writerGone: bool, c: nat)
    requires MayStopReading(b, empty, writerGone)
    ensures BlockWork(EndReader(b), c) < BlockWork(b, c)
  {
  }

  lemma StopWork(cfg: Config, s: Net, a: Action)
    requires Fits(cfg, s) && (a.StopReading? || a.StopWriting?) && Enabled(cfg, s, a)
    ensures Work(cfg, Next(cfg, s, a)) < Work(cfg, s)
  {
    var k, s', c := a.k, Next(cfg, s, a), Cost(cfg.stages, a.k + 1);
    assert s'.chans == s.chans[k := s'.chans[k]];
    ShrunkChanWork(cfg, s, s', k);
    BlockUpdateWork(cfg, s, s', k);
    assert BlockWork(s'.blocks[k], c) < BlockWork(s.blocks[k], c) by {
      if a.StopReading? {
        EndReaderWork(s.blocks[k], s.chans[k] == [], ChanWriterGone(s, k), c);
      } else {
        EndWriterWork(s.blocks[k], c);
      }
    }
  }

  lemma GetWork(cfg: Config, s: Net)
    requires Fits(cfg, s) && Enabled(cfg, s, GetOutput)
    ensures Work(cfg, Next(cfg, s, GetOutput)) < Work(cfg, s)
  {
    var m, s' := |s.blocks|, Next(cfg, s, GetOutput);
    SameBlocksWork(cfg, s, s');
    ChanUpdateWork(cfg, s, s', m);
    OneMore(|s'.chans[m]|, 2);
  }

  lemma CallerWork(cfg: Config, s: Net, a: Action)
    requires Fits(cfg, s) && Enabled(cfg, s, a)
    requires a.CloseInput? || a.AskOutput? || a.SeeEnd? || a.DropOutput?
    ensures Work(cfg, Next(cfg, s, a)) < Work(cfg, s)
  {
    var m, s' := |s.blocks|, Next(cfg, s, a);
    SameBlocksWork(cfg, s, s');
    assert s'.chans == s.chans[m := s'.chans[m]];
    ShrunkChanWork(cfg, s, s', m);
  }

  lemma StepUsesWork(cfg: Config, s: Net, a: Action)
    requires Fits(cfg, s) && HasLines(cfg) && Enabled(cfg, s, a) && !a.Send?
    ensures Work(cfg, Next(cfg, s, a)) < Work(cfg, s)
  {
    match a
    case Take(k) => TakeWork(cfg, s, k);
    case Put(k) => PutWork(cfg, s, k);
    case Inside(k, i) =>
      var s' := Next(cfg, s, a);
      InnerWork(cfg.queue, cfg.stages[k], s.blocks[k], i, Cost(cfg.stages, k + 1));
      BlockUpdateWork(cfg, s, s', k);
      SameChansWork(cfg, s, s');
    case StopReading(k) => StopWork(cfg, s, a);
    case StopWriting(k) => StopWork(cfg, s, a);
    case GetOutput => GetWork(cfg, s);
    case _ => CallerWork(cfg, s, a);
  }

  lemma SendAddsWork(cfg: Config, s: Net, x: Item)
    requires Fits(cfg, s) && Enabled(cfg, s, Send(x))
    ensures Work(cfg, Next(cfg, s, Send(x))) == Work(cfg, s) + Cost(cfg.stages, 0)
  {
    var s' := Next(cfg, s, Send(x));
    SameBlocksWork(cfg, s, s');
    ChanUpdateWork(cfg, s, s', 0);
    OneMore(|s.chans[0]|, Cost(cfg.stages, 0));
  }

  ghost function Sends(acts: seq<Action>): nat {
    if acts == [] then 0 else (if acts[0].Send? then 1 else 0) + Sends(acts[1..])
  }

  /** No livelock: a run is at most as long as the work it started with and the work its sends add. */
  lemma {:induction false} RunsAreShort(cfg: Config, s: Net, acts: seq<Action>)
    requires Fits(cfg, s) && HasLines(cfg) && Runs(cfg, s, acts)
    ensures |acts| + Work(cfg, After(cfg, s, acts)) <= Work(cfg, s) + Sends(acts) * (Cost(cfg.stages, 0) + 1)
    decreases |acts|
  {
    hide Work, Cost;
    if acts != [] {
      var s' := Next(cfg, s, acts[0]);
      RunsAreShort(cfg, s', acts[1..]);
      if acts[0].Send? {
        SendAddsWork(cfg, s, acts[0].x);
        OneMore(Sends(acts[1..]), Cost(cfg.stages, 0) + 1);
      } else {
        StepUsesWork(cfg, s, acts[0]);
      }
    }
  }

  // ---- the end of a closed pipeline ------------------------------------------

  ghost predicate ThreadsEnded(b: Block) {
    if b.Straight? then b.thread.Ended?
    else
      && b.distributer.Stopped? && b.gatherer.Finished?
      && forall l | 0 <= l < |b.lines| :: b.lines[l].worker.Ended?
  }

  /** `close` joins every handle, so it returns once this holds. */
  ghost predicate AllEnded(s: Net) {
    forall k | 0 <= k < |s.blocks| :: ThreadsEnded(s.blocks[k])
  }

  /** Neither a thread nor a caller that is waiting for output can move, and none is about to wait. */
  ghost predicate AtRest(cfg: Config, s: Net)
    requires Fits(cfg, s)
  {
    ThreadsStuck(cfg, s) && !Enabled(cfg, s, GetOutput) && !Enabled(cfg, s, SeeEnd) && !s.consumer.Away?
  }

  lemma RestingStageEnds(cfg: Config, s: Net, k: nat)
    requires Faithful(cfg, s) && HasLines(cfg) && ThreadsStuck(cfg, s)
    requires k < |s.blocks| && Quiet(s, k) && ChanWriterGone(s, k)
    ensures ThreadsEnded(s.blocks[k]) && ChanWriterGone(s, k + 1)
  {
    var stage, b := cfg.stages[k], s.blocks[k];
    assert !Enabled(cfg, s, StopReading(k));
    if b.Fork? {
      forall l | 0 <= l < |b.lines| ensures b.lines[l].worker.Ended? {
        assert !Enabled(cfg, s, Inside(k, WorkerEnds(l)));
      }
      assert !Enabled(cfg, s, Inside(k, GathererEnds));
      assert b.lines[0].worker.Ended?;
    }
  }

  lemma {:induction false} RestingStagesEnd(cfg: Config, s: Net, k: nat)
    requires Faithful(cfg, s) && HasLines(cfg) && ThreadsStuck(cfg, s) && !s.open
    requires k <= |s.blocks| && forall j | 0 <= j < k :: Quiet(s, j)
    ensures ChanWriterGone(s, k) && forall j | 0 <= j < k :: ThreadsEnded(s.blocks[j])
  {
    if k > 0 {
      RestingStagesEnd(cfg, s, k - 1);
      RestingStageEnds(cfg, s, k - 1);
    }
  }

  /** A gracefully drained pipeline has nothing left to do above the closed output either. */
  lemma {:induction false} DrainedIsQuiet(cfg: Config, s: Net, k: nat)
    requires Graceful(cfg, s) && HasLines(cfg) && ThreadsStuck(cfg, s) && k <= |s.blocks|
    requires s.chans[k] == [] && ChanWriterGone(s, k)
    ensures forall j | 0 <= j < k :: Quiet(s, j)
  {
    if k > 0 {
      var stage, b := cfg.stages[k - 1], s.blocks[k - 1];
      assert Draining(s, k - 1) && BlockInv(stage, b);
      if b.Fork? {
        forall i: Inner ensures !InnerEnabled(cfg.queue, stage, b, i) {
          assert !Enabled(cfg, s, Inside(k - 1, i));
        }
        assert !Enabled(cfg, s, StopReading(k - 1));
        StuckAfterGatherer(cfg.queue, stage, b);
      }
      DrainedIsQuiet(cfg, s, k - 1);
    }
  }

  /** A caller at rest has dropped its receiver, was told of the end, or waits at an empty channel. */
  lemma RestingCaller(cfg: Config, s: Net)
    requires Faithful(cfg, s) && AtRest(cfg, s)
    ensures ThreadsStuck(cfg, s)
    ensures if s.consumer.Disconnected? then
        Graceful(cfg, s) && s.chans[|s.blocks|] == [] && ChanWriterGone(s, |s.blocks|)
      else Accepts(cfg, s, |s.blocks|)
  {
    hide ThreadsStuck, Compose, Total, BlocksInv, Draining;
  }

  lemma AllEndedFrom(s: Net)
    requires forall k | 0 <= k < |s.blocks| :: ThreadsEnded(s.blocks[k])
    ensures AllEnded(s)
  {
  }

  /** A closed pipeline at rest has no thread left. */
  lemma RestMeansEnded(cfg: Config, s: Net)
    requires Faithful(cfg, s) && ReadersClear(s) && HasLines(cfg) && AtRest(cfg, s) && !s.open
    ensures AllEnded(s)
  {
    hide *;
    var m := |s.blocks|;
    FaithfulFits(cfg, s);
    RestingCaller(cfg, s);
    if s.consumer.Disconnected? {
      DrainedIsQuiet(cfg, s, m);
    } else {
      StuckIsQuiet(cfg, s, 0);
    }
    RestingStagesEnd(cfg, s, m);
    AllEndedFrom(s);
  }

  /**
   Once the inputs are dropped, any continuation is at most `Work` steps long; where
   it can go no further every thread has returned; and a caller that kept receiving
   instead of dropping its receiver has exactly the sequential result.
   */
  lemma CloseTerminates(cfg: Config, before: seq<Action>, acts: seq<Action>)
    requires HasLines(cfg) && Runs(cfg, Init(cfg), before)
    requires !After(cfg, Init(cfg), before).open
    requires Runs(cfg, After(cfg, Init(cfg), before), acts)
    ensures var closed := After(cfg, Init(cfg), before);
      var s := After(cfg, closed, acts);
      && |acts| <= Work(cfg, closed)
      && (AtRest(cfg, s) ==> AllEnded(s))
      && (AtRest(cfg, s) && !s.consumer.Dropped? ==>
            s.sent == closed.sent && s.received == Compose(cfg.stages, |cfg.stages|, s.sent))
  {
    var closed := After(cfg, Init(cfg), before);
    InitFaithful(cfg);
    RunKeepsFaithful(cfg, Init(cfg), before);
    RunKeepsFaithful(cfg, closed, acts);
    RunKeepsClear(cfg, Init(cfg), before);
    RunKeepsClear(cfg, closed, acts);
    RunsAreShort(cfg, closed, acts);
    ClosedSendsNothing(cfg, closed, acts);
    var s := After(cfg, closed, acts);
    if AtRest(cfg, s) {
      RestMeansEnded(cfg, s);
      if !s.consumer.Dropped? {
        EndedOutput(cfg, s);
      }
    }
  }

  lemma {:induction false} ClosedSendsNothing(cfg: Config, s: Net, acts: seq<Action>)
    requires Fits(cfg, s) && Runs(cfg, s, acts) && !s.open
    ensures Sends(acts) == 0 && After(cfg, s, acts).sent == s.sent && !After(cfg, s, acts).open
    decreases |acts|
  {
    if acts != [] {
      ClosedSendsNothing(cfg, Next(cfg, s, acts[0]), acts[1..]);
    }
  }

  lemma EndedOutput(cfg: Config, s: Net)
    requires Faithful(cfg, s) && AtRest(cfg, s) && AllEnded(s) && !s.open && !s.consumer.Dropped?
    ensures s.received == Compose(cfg.stages, |cfg.stages|, s.sent)
  {
    var m := |s.blocks|;
    assert m > 0 ==> ThreadsEnded(s.blocks[m - 1]);
    DrainedBelow(cfg, s, m);
  }

  /** A step a draining caller waits for or makes: a thread's, or its own next receive. */
  ghost predicate DrainStep(a: Action) {
    IsThreadStep(a) || a.AskOutput? || a.GetOutput? || a.SeeEnd?
  }

  /** From every reachable closed state a caller that keeps receiving brings the pipeline to rest. */
  lemma {:induction false} DrainingComesToRest(cfg: Config, s: Net) returns (acts: seq<Action>)
    requires Faithful(cfg, s) && HasLines(cfg) && !s.open
    ensures Runs(cfg, s, acts) && (forall a | a in acts :: DrainStep(a)) && AtRest(cfg, After(cfg, s, acts))
    decreases Work(cfg, s)
  {
    hide Faithful, Next, Enabled, Work, HasLines, DrainStep, AtRest;
    FaithfulFits(cfg, s);
    if a :| DrainStep(a) && Enabled(cfg, s, a) {
      DrainStepFacts(cfg, s, a);
      StepUsesWork(cfg, s, a);
      StepKeepsFaithful(cfg, s, a);
      var rest := DrainingComesToRest(cfg, Next(cfg, s, a));
      acts := [a] + rest;
      assert acts[1..] == rest;
    } else {
      acts := [];
      NoDrainStep(cfg, s);
    }
  }

  lemma FaithfulFits(cfg: Config, s: Net)
    requires Faithful(cfg, s)
    ensures Fits(cfg, s)
  {
  }

  lemma DrainStepFacts(cfg: Config, s: Net, a: Action)
    requires Fits(cfg, s) && Enabled(cfg, s, a) && DrainStep(a) && !s.open
    ensures !a.Send? && !Next(cfg, s, a).open
  {
  }

  lemma NoDrainStep(cfg: Config, s: Net)
    requires Fits(cfg, s) && forall a | DrainStep(a) :: !Enabled(cfg, s, a)
    ensures AtRest(cfg, s)
  {
    assert !Enabled(cfg, s, AskOutput) && !Enabled(cfg, s, GetOutput) && !Enabled(cfg, s, SeeEnd);
  }
}
