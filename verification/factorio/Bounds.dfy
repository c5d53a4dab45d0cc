/**
 Backpressure: no queue outgrows the configured size, so only a bounded number of
 items can be inside a pipeline at once.
 */
module Bounds {
  import opened Stages
  import opened Network
  import opened ForkJoinRows
  import opened Schedules

  /** A queue within its bound; a rendezvous value belongs to its waiting reader. */
  ghost predicate Bounded<T>(queue: nat, buffer: seq<T>, readerWaits: bool) {
    |buffer| <= queue || (queue == 0 && |buffer| == 1 && readerWaits)
  }

  ghost predicate LinesBounded(queue: nat, b: Block) {
    b.Fork? ==>
      forall l | 0 <= l < |b.lines| ::
        && Bounded(queue, b.lines[l].inputs, b.lines[l].worker.Idle?)
        && Bounded(queue, b.lines[l].outputs, GathererAt(b, l))
  }

  ghost predicate QueuesBounded(cfg: Config, s: Net) {
    && Fits(cfg, s)
    && (forall k | 0 <= k <= |s.blocks| :: Bounded(cfg.queue, s.chans[k], ChanReaderWaits(s, k)))
    && (forall k | 0 <= k < |s.blocks| :: LinesBounded(cfg.queue, s.blocks[k]))
  }

  lemma InsideKeepsBounds(queue: nat, stage: Stage, b: Block, i: Inner)
    requires Shaped(stage, b) && InnerEnabled(queue, stage, b, i) && LinesBounded(queue, b)
    ensures LinesBounded(queue, InnerNext(queue, stage, b, i))
    ensures ReaderWaits(b) ==> ReaderWaits(InnerNext(queue, stage, b, i))
  {
  }

  lemma OuterKeepsBounds(queue: nat, stage: Stage, b: Block, x: Item)
    requires Shaped(stage, b) && LinesBounded(queue, b)
    ensures ReaderWaits(b) ==> LinesBounded(queue, Accept(stage, b, x))
    ensures Offers(b) ==> LinesBounded(queue, Release(b)) && ReaderWaits(b) == (b.Fork? && ReaderWaits(Release(b)))
  {
  }

  lemma StopKeepsBounds(queue: nat, b: Block)
    requires LinesBounded(queue, b)
    ensures LinesBounded(queue, EndReader(b)) && LinesBounded(queue, EndWriter(b))
  {
  }

  lemma StepKeepsLineBounds(cfg: Config, s: Net, a: Action)
    requires QueuesBounded(cfg, s) && Enabled(cfg, s, a)
    ensures forall k | 0 <= k < |s.blocks| :: LinesBounded(cfg.queue, Next(cfg, s, a).blocks[k])
  {
    hide LinesBounded, Bounded;
    match a
    case Inside(k, i) => InsideKeepsBounds(cfg.queue, cfg.stages[k], s.blocks[k], i);
    case Take(k) => OuterKeepsBounds(cfg.queue, cfg.stages[k], s.blocks[k], s.chans[k][0]);
    case Put(k) => OuterKeepsBounds(cfg.queue, cfg.stages[k], s.blocks[k], Offer(s.blocks[k]));
    case StopReading(k) => StopKeepsBounds(cfg.queue, s.blocks[k]);
    case StopWriting(k) => StopKeepsBounds(cfg.queue, s.blocks[k]);
    case _ =>
  }

  lemma StepKeepsChanBounds(cfg: Config, s: Net, a: Action, k: nat)
    requires QueuesBounded(cfg, s) && Enabled(cfg, s, a) && k <= |s.blocks|
    ensures Bounded(cfg.queue, Next(cfg, s, a).chans[k], ChanReaderWaits(Next(cfg, s, a), k))
  {
    hide LinesBounded;
    assert Bounded(cfg.queue, s.chans[k], ChanReaderWaits(s, k));
    if a.Inside? {
      InsideKeepsBounds(cfg.queue, cfg.stages[a.k], s.blocks[a.k], a.i);
    }
  }

  lemma StepKeepsBounds(cfg: Config, s: Net, a: Action)
    requires QueuesBounded(cfg, s) && Enabled(cfg, s, a)
    ensures QueuesBounded(cfg, Next(cfg, s, a))
  {
    hide Next, Enabled, LinesBounded, Bounded;
    StepKeepsLineBounds(cfg, s, a);
    forall k | 0 <= k <= |s.blocks| ensures Bounded(cfg.queue, Next(cfg, s, a).chans[k], ChanReaderWaits(Next(cfg, s, a), k)) {
      StepKeepsChanBounds(cfg, s, a, k);
    }
  }

  lemma {:induction false} RunKeepsBounds(cfg: Config, s: Net, acts: seq<Action>)
    requires QueuesBounded(cfg, s) && Runs(cfg, s, acts)
    ensures QueuesBounded(cfg, After(cfg, s, acts))
    decreases |acts|
  {
    if acts != [] {
      StepKeepsBounds(cfg, s, acts[0]);
      RunKeepsBounds(cfg, Next(cfg, s, acts[0]), acts[1..]);
    }
  }

  // ---- items inside ---------------------------------------------------------

  /** Items a stage took and has not forwarded; a returned gatherer forwards none. */
  ghost function Held(b: Block): int {
    if b.Straight? then if b.thread.Holding? then 1 else 0
    else if b.gatherer.Finished? then 0
    else |b.taken| - |b.joined| + (if b.gatherer.Offering? then 1 else 0)
  }

  /** What a stage can hold: one item in a single thread, two queues and three threads deep in a fork-join. */
  ghost function Limit(queue: nat, stage: Stage): nat {
    if stage.FilterMap? then 1 else 2 * queue + 3
  }

  ghost function InsideUpTo(s: Net, k: nat): int
    requires k <= |s.blocks| && |s.chans| == |s.blocks| + 1
  {
    if k == 0 then 0 else InsideUpTo(s, k - 1) + |s.chans[k - 1]| + Held(s.blocks[k - 1])
  }

  ghost function LimitUpTo(cfg: Config, k: nat): nat
    requires k <= |cfg.stages|
  {
    if k == 0 then 0 else LimitUpTo(cfg, k - 1) + cfg.queue + Limit(cfg.queue, cfg.stages[k - 1])
  }

  lemma StageHolds(queue: nat, stage: Stage, b: Block)
    requires Shaped(stage, b) && BlockInv(stage, b) && LinesBounded(queue, b)
    requires stage.ForkJoin? ==> stage.lines > 0
    ensures Held(b) <= Limit(queue, stage) - (if ReaderWaits(b) then 1 else 0)
  {
    if b.Fork? && !b.gatherer.Finished? {
      assert LineAligned(stage, b, 0);
    }
  }

  lemma {:induction false} InsideWithinLimit(cfg: Config, s: Net, k: nat)
    requires QueuesBounded(cfg, s) && BlocksInv(cfg, s) && HasLines(cfg) && k <= |s.blocks|
    ensures InsideUpTo(s, k) <= LimitUpTo(cfg, k)
  {
    if k > 0 {
      InsideWithinLimit(cfg, s, k - 1);
      StageHolds(cfg.queue, cfg.stages[k - 1], s.blocks[k - 1]);
      assert Bounded(cfg.queue, s.chans[k - 1], ChanReaderWaits(s, k - 1));
    }
  }

  lemma {:induction false} StraightLimit(cfg: Config, k: nat)
    requires k <= |cfg.stages| && forall j | 0 <= j < k :: cfg.stages[j].FilterMap?
    ensures LimitUpTo(cfg, k) == k * cfg.queue + k
  {
    if k > 0 {
      StraightLimit(cfg, k - 1);
      assert k * cfg.queue == (k - 1) * cfg.queue + cfg.queue;
    }
  }

  /**
   In every reachable state the items inside stay within the sum of the queue sizes
   and the stage limits.  The last term is an item already handed to a caller that
   waits at a rendezvous output.
   */
  lemma BoundedInFlight(cfg: Config, acts: seq<Action>)
    requires HasLines(cfg) && Runs(cfg, Init(cfg), acts)
    ensures var s, m := After(cfg, Init(cfg), acts), |cfg.stages|;
      InsideUpTo(s, m) + |s.chans[m]|
        <= LimitUpTo(cfg, m) + cfg.queue + (if cfg.queue == 0 && s.consumer.Receiving? then 1 else 0)
  {
    hide Faithful, LimitUpTo, InsideUpTo;
    InitFaithful(cfg);
    RunKeepsFaithful(cfg, Init(cfg), acts);
    RunKeepsBounds(cfg, Init(cfg), acts);
    var s := After(cfg, Init(cfg), acts);
    InsideWithinLimit(cfg, s, |cfg.stages|);
    assert Bounded(cfg.queue, s.chans[|cfg.stages|], ChanReaderWaits(s, |cfg.stages|));
  }

  /** `m` single-thread stages never hold more than `(m + 1) * queue + m` items. */
  lemma StraightInFlight(cfg: Config, acts: seq<Action>)
    requires (forall k | 0 <= k < |cfg.stages| :: cfg.stages[k].FilterMap?) && Runs(cfg, Init(cfg), acts)
    ensures var s, m := After(cfg, Init(cfg), acts), |cfg.stages|;
      InsideUpTo(s, m) + |s.chans[m]|
        <= (m + 1) * cfg.queue + m + (if cfg.queue == 0 && s.consumer.Receiving? then 1 else 0)
  {
    hide LimitUpTo, InsideUpTo;
    BoundedInFlight(cfg, acts);
    StraightLimit(cfg, |cfg.stages|);
    assert (|cfg.stages| + 1) * cfg.queue == |cfg.stages| * cfg.queue + cfg.queue;
  }

  // ---- room ----------------------------------------------------------------------

  /** Sending these items one after the other. */
  function SendAll(xs: seq<Item>): seq<Action> {
    if xs == [] then [] else [Send(xs[0])] + SendAll(xs[1..])
  }

  lemma SendOne(cfg: Config, s: Net, x: Item)
    requires Fits(cfg, s) && s.open && !ChanReaderGone(s, 0) && cfg.queue > 0
    ensures Enabled(cfg, s, Send(x)) <==> |s.chans[0]| < cfg.queue
    ensures Enabled(cfg, s, Send(x)) ==> var s' := Next(cfg, s, Send(x));
      Fits(cfg, s') && s'.open && !ChanReaderGone(s', 0) && s'.chans[0] == s.chans[0] + [x] && s'.blocks == s.blocks
  {
  }

  lemma SendAllStep(cfg: Config, s: Net, xs: seq<Item>)
    requires Fits(cfg, s) && xs != []
    ensures Runs(cfg, s, SendAll(xs)) <==>
      Enabled(cfg, s, Send(xs[0])) && Runs(cfg, Next(cfg, s, Send(xs[0])), SendAll(xs[1..]))
    ensures Runs(cfg, s, SendAll(xs)) ==>
      After(cfg, s, SendAll(xs)) == After(cfg, Next(cfg, s, Send(xs[0])), SendAll(xs[1..]))
  {
    hide Enabled, Next;
    assert SendAll(xs)[1..] == SendAll(xs[1..]) && SendAll(xs)[0] == Send(xs[0]);
  }

  lemma SendNothing(cfg: Config, s: Net)
    requires Fits(cfg, s)
    ensures Runs(cfg, s, SendAll([])) && After(cfg, s, SendAll([])) == s
  {
  }

  lemma JoinFirst(chan: seq<Item>, xs: seq<Item>)
    requires xs != []
    ensures (chan + [xs[0]]) + xs[1..] == chan + xs
  {
  }

  /** A live input channel of size q takes items until it holds q of them, before any thread moves, and no more. */
  lemma {:induction false} InputTakesQueueSize(cfg: Config, s: Net, xs: seq<Item>)
    requires Fits(cfg, s) && s.open && !ChanReaderGone(s, 0) && cfg.queue > 0 && |s.chans[0]| <= cfg.queue
    ensures Runs(cfg, s, SendAll(xs)) <==> |s.chans[0]| + |xs| <= cfg.queue
    ensures Runs(cfg, s, SendAll(xs)) ==> var s' := After(cfg, s, SendAll(xs));
      s'.chans[0] == s.chans[0] + xs && s'.blocks == s.blocks
    decreases |xs|
  {
    hide Enabled, Next, Runs, After, SendAll, ChanReaderGone;
    if xs == [] {
      SendNothing(cfg, s);
      assert s.chans[0] + xs == s.chans[0];
    } else {
      SendOne(cfg, s, xs[0]);
      SendAllStep(cfg, s, xs);
      if |s.chans[0]| < cfg.queue {
        InputTakesQueueSize(cfg, Next(cfg, s, Send(xs[0])), xs[1..]);
        JoinFirst(s.chans[0], xs);
      }
    }
  }

  /** A rendezvous input takes an item exactly when its reader waits and holds none. */
  lemma RendezvousInput(cfg: Config, s: Net, x: Item)
    requires Fits(cfg, s) && s.open && !ChanReaderGone(s, 0) && cfg.queue == 0
    ensures Enabled(cfg, s, Send(x)) <==> ReaderSideWaits(s) && s.chans[0] == []
  {
  }

  ghost predicate ReaderSideWaits(s: Net) {
    if |s.blocks| == 0 then s.consumer.Receiving?
    else if s.blocks[0].Straight? then s.blocks[0].thread.Idle? else s.blocks[0].distributer.Waiting?
  }

  /** A stage with an output ready can send it as long as the next channel is live and not full. */
  lemma OutputTakesQueueSize(cfg: Config, s: Net, k: nat)
    requires Fits(cfg, s) && k < |s.blocks| && Offers(s.blocks[k]) && !ChanReaderGone(s, k + 1) && cfg.queue > 0
    ensures Enabled(cfg, s, Put(k)) <==> |s.chans[k + 1]| < cfg.queue
  {
  }

  /** So can a distributer to a live line, and a worker to its gatherer. */
  lemma LinesTakeQueueSize(queue: nat, stage: Stage, b: Block, l: nat)
    requires Shaped(stage, b) && b.Fork? && l < |b.lines| && queue > 0
    ensures b.distributer.Sending? && b.distributer.line == l && !b.lines[l].worker.Ended? ==>
      (InnerEnabled(queue, stage, b, Distribute) <==> |b.lines[l].inputs| < queue)
    ensures b.lines[l].worker.Holding? && !b.gatherer.Finished? ==>
      (InnerEnabled(queue, stage, b, WorkerPuts(l)) <==> |b.lines[l].outputs| < queue)
  {
  }
}
