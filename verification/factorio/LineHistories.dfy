/**
 What the lines of a fork-join were sent and what their workers made of it, over whole
 runs: the distributer deals items out in order, and keeps the lines within one item of
 each other even when it stops half way because the gatherer has returned.
 */
module LineHistories {
  import opened Stages
  import opened Network

  /** Each line was sent the first items taken; how many falls by at most one from line to line. */
  ghost predicate DealtInOrder(b: Block)
    requires b.Fork?
  {
    && (forall l | 0 <= l < |b.lines| :: b.lines[l].sent <= b.taken)
    && (forall i, j | 0 <= i < j < |b.lines| ::
          |b.lines[j].sent| <= |b.lines[i].sent| <= |b.lines[j].sent| + 1)
  }

  /** How far the distributer has got, while it runs. */
  ghost predicate DealtSoFar(b: Block)
    requires b.Fork?
  {
    match b.distributer
    case Waiting => forall l | 0 <= l < |b.lines| :: b.lines[l].sent == b.taken
    case Sending(x, at) =>
      && |b.taken| > 0 && x == b.taken[|b.taken| - 1]
      && forall l | 0 <= l < |b.lines| ::
           b.lines[l].sent == if l < at then b.taken else b.taken[..|b.taken| - 1]
    case Stopped => true
  }

  /** The `k`-th result of worker `l` is its function of the `k`-th item sent; what is queued follows. */
  ghost predicate MadeInOrder(stage: Stage, line: Line, l: nat)
    requires stage.ForkJoin?
  {
    && |line.made| + |line.inputs| <= |line.sent|
    && (forall k | 0 <= k < |line.made| :: line.made[k] == stage.work(line.sent[k], l))
    && (forall i | 0 <= i < |line.inputs| :: line.inputs[i] == (line.sent[|line.made| + i], l))
  }

  /** A worker that still runs has computed or has queued all it was sent. */
  ghost predicate NothingDropped(line: Line) {
    !line.worker.Ended? ==> |line.made| + |line.inputs| == |line.sent|
  }

  ghost predicate LineKept(stage: Stage, line: Line, l: nat)
    requires stage.ForkJoin?
  {
    MadeInOrder(stage, line, l) && NothingDropped(line)
  }

  ghost predicate Dealt(stage: Stage, b: Block)
    requires Shaped(stage, b)
  {
    b.Fork? ==>
      && DealtInOrder(b) && DealtSoFar(b)
      && forall l | 0 <= l < |b.lines| :: LineKept(stage, b.lines[l], l)
  }

  /** The `i`-th result of worker `l` is its function of the `i`-th item taken. */
  ghost predicate MadeFromTaken(stage: Stage, b: Block)
    requires stage.ForkJoin? && b.Fork?
  {
    forall l, i | 0 <= l < |b.lines| && 0 <= i < |b.lines[l].made| ::
      i < |b.taken| && b.lines[l].made[i] == stage.work(b.taken[i], l)
  }

  lemma DealtMade(stage: Stage, b: Block)
    requires stage.ForkJoin? && Shaped(stage, b) && Dealt(stage, b)
    ensures MadeFromTaken(stage, b)
  {
    forall l, i | 0 <= l < |b.lines| && 0 <= i < |b.lines[l].made|
      ensures i < |b.taken| && b.lines[l].made[i] == stage.work(b.taken[i], l)
    {
      assert LineKept(stage, b.lines[l], l);
    }
  }

  lemma NewBlockDealt(stage: Stage)
    ensures Dealt(stage, NewBlock(stage))
  {
  }

  lemma AcceptKeepsDealt(stage: Stage, b: Block, x: Item)
    requires Shaped(stage, b) && ReaderWaits(b) && Dealt(stage, b)
    ensures Dealt(stage, Accept(stage, b, x))
  {
    if b.Fork? {
      var b' := Accept(stage, b, x);
      assert b'.taken[..|b.taken|] == b.taken;
    }
  }

  /** Steps that leave what was sent, made and queued alone. */
  lemma SameHistoriesKeep(stage: Stage, b: Block, b': Block)
    requires Shaped(stage, b) && Shaped(stage, b') && Dealt(stage, b) && b.Fork?
    requires b'.taken == b.taken && (b'.distributer == b.distributer || b'.distributer.Stopped?)
    requires forall l | 0 <= l < |b.lines| ::
      && b'.lines[l].sent == b.lines[l].sent && b'.lines[l].made == b.lines[l].made
      && b'.lines[l].inputs == b.lines[l].inputs && (b.lines[l].worker.Ended? ==> b'.lines[l].worker.Ended?)
    ensures Dealt(stage, b')
  {
    forall l | 0 <= l < |b'.lines| ensures LineKept(stage, b'.lines[l], l) {
      assert LineKept(stage, b.lines[l], l);
    }
  }

  lemma DistributeKeepsDealt(queue: nat, stage: Stage, b: Block)
    requires Shaped(stage, b) && Dealt(stage, b) && InnerEnabled(queue, stage, b, Distribute)
    ensures Dealt(stage, InnerNext(queue, stage, b, Distribute))
  {
    var b', at := InnerNext(queue, stage, b, Distribute), b.distributer.line;
    assert b.taken == b.taken[..|b.taken| - 1] + [b.distributer.item];
    forall l | 0 <= l < |b.lines|
      ensures b'.lines[l].sent == if l <= at then b.taken else b.taken[..|b.taken| - 1]
      ensures LineKept(stage, b'.lines[l], l)
    {
      assert LineKept(stage, b.lines[l], l);
    }
  }

  lemma WorkerTakesKeepsDealt(queue: nat, stage: Stage, b: Block, l: nat)
    requires Shaped(stage, b) && Dealt(stage, b) && InnerEnabled(queue, stage, b, WorkerTakes(l))
    ensures Dealt(stage, InnerNext(queue, stage, b, WorkerTakes(l)))
  {
    var b' := InnerNext(queue, stage, b, WorkerTakes(l));
    forall j | 0 <= j < |b.lines| ensures LineKept(stage, b'.lines[j], j) && b'.lines[j].sent == b.lines[j].sent {
      assert LineKept(stage, b.lines[j], j);
    }
  }

  lemma WorkerEndsKeepsDealt(queue: nat, stage: Stage, b: Block, l: nat)
    requires Shaped(stage, b) && Dealt(stage, b) && InnerEnabled(queue, stage, b, WorkerEnds(l))
    ensures Dealt(stage, InnerNext(queue, stage, b, WorkerEnds(l)))
  {
    var b' := InnerNext(queue, stage, b, WorkerEnds(l));
    forall j | 0 <= j < |b.lines| ensures LineKept(stage, b'.lines[j], j) && b'.lines[j].sent == b.lines[j].sent {
      assert LineKept(stage, b.lines[j], j);
    }
  }

  lemma InnerKeepsDealt(queue: nat, stage: Stage, b: Block, i: Inner)
    requires Shaped(stage, b) && Dealt(stage, b) && InnerEnabled(queue, stage, b, i)
    ensures Dealt(stage, InnerNext(queue, stage, b, i))
  {
    hide Dealt;
    match i
    case Distribute => DistributeKeepsDealt(queue, stage, b);
    case WorkerTakes(l) => WorkerTakesKeepsDealt(queue, stage, b, l);
    case WorkerEnds(l) => WorkerEndsKeepsDealt(queue, stage, b, l);
    case _ => SameHistoriesKeep(stage, b, InnerNext(queue, stage, b, i));
  }

  lemma OuterKeepsDealt(stage: Stage, b: Block)
    requires Shaped(stage, b) && Dealt(stage, b)
    ensures Offers(b) ==> Shaped(stage, Release(b)) && Dealt(stage, Release(b))
    ensures Shaped(stage, EndReader(b)) && Dealt(stage, EndReader(b))
    ensures Shaped(stage, EndWriter(b)) && Dealt(stage, EndWriter(b))
  {
    hide Dealt;
    if b.Fork? {
      SameHistoriesKeep(stage, b, EndReader(b));
      SameHistoriesKeep(stage, b, EndWriter(b));
      if Offers(b) {
        SameHistoriesKeep(stage, b, Release(b));
      }
    } else {
      StraightDealt(stage, EndReader(b));
      StraightDealt(stage, EndWriter(b));
      if Offers(b) {
        StraightDealt(stage, Release(b));
      }
    }
  }

  lemma StraightDealt(stage: Stage, b: Block)
    requires Shaped(stage, b) && b.Straight?
    ensures Dealt(stage, b)
  {
  }

  // ---- over runs ------------------------------------------------------------------------

  ghost predicate AllDealt(cfg: Config, s: Net)
    requires Fits(cfg, s)
  {
    forall k | 0 <= k < |s.blocks| :: Dealt(cfg.stages[k], s.blocks[k])
  }

  lemma StepKeepsDealt(cfg: Config, s: Net, a: Action)
    requires Fits(cfg, s) && AllDealt(cfg, s) && Enabled(cfg, s, a)
    ensures AllDealt(cfg, Next(cfg, s, a))
  {
    hide Dealt, Accept, Release, EndReader, EndWriter, InnerNext, InnerEnabled;
    var s' := Next(cfg, s, a);
    forall k | 0 <= k < |s'.blocks| ensures Dealt(cfg.stages[k], s'.blocks[k]) {
      assert Dealt(cfg.stages[k], s.blocks[k]);
      OuterKeepsDealt(cfg.stages[k], s.blocks[k]);
      if a == Take(k) {
        AcceptKeepsDealt(cfg.stages[k], s.blocks[k], s.chans[k][0]);
      }
      if a.Inside? && a.k == k {
        InnerKeepsDealt(cfg.queue, cfg.stages[k], s.blocks[k], a.i);
      }
    }
  }

  lemma {:induction false} RunKeepsDealt(cfg: Config, s: Net, acts: seq<Action>)
    requires Fits(cfg, s) && AllDealt(cfg, s) && Runs(cfg, s, acts)
    ensures AllDealt(cfg, After(cfg, s, acts))
    decreases |acts|
  {
    hide AllDealt, Next, Enabled;
    if acts != [] {
      StepKeepsDealt(cfg, s, acts[0]);
      RunKeepsDealt(cfg, Next(cfg, s, acts[0]), acts[1..]);
    }
  }

  lemma InitDealt(cfg: Config)
    ensures AllDealt(cfg, Init(cfg))
  {
    forall k | 0 <= k < |cfg.stages| ensures Dealt(cfg.stages[k], Init(cfg).blocks[k]) {
      NewBlockDealt(cfg.stages[k]);
    }
  }

  /**
   In every reachable state of every run, the gatherer returned or not: the lines were
   sent the first items taken, in order, in numbers that fall by at most one from the
   first line to the last; and the `k`-th result of worker `l` is its function of the
   `k`-th item taken.
   */
  lemma LinesDealtInOrder(cfg: Config, acts: seq<Action>, k: nat)
    requires Runs(cfg, Init(cfg), acts) && k < |cfg.stages| && cfg.stages[k].ForkJoin?
    ensures var b := After(cfg, Init(cfg), acts).blocks[k];
      Shaped(cfg.stages[k], b) && DealtInOrder(b) && MadeFromTaken(cfg.stages[k], b)
  {
    hide Runs, After;
    InitDealt(cfg);
    RunKeepsDealt(cfg, Init(cfg), acts);
    DealtMade(cfg.stages[k], After(cfg, Init(cfg), acts).blocks[k]);
  }
}
