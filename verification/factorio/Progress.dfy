/**
 Freedom from deadlock.  A pipeline with something left inside can always step as
 long as its output side moves, whatever the queue size, including rendezvous
 queues and fork-joins whose workers run at different speeds.
 */
module Progress {
  import opened Stages
  import opened Network
  import opened ForkJoinRows
  import opened Schedules

  ghost predicate IsThreadStep(a: Action) {
    a.Take? || a.Put? || a.StopReading? || a.StopWriting? || a.Inside?
  }

  ghost predicate ThreadsStuck(cfg: Config, s: Net)
    requires Fits(cfg, s)
  {
    forall a | IsThreadStep(a) :: !Enabled(cfg, s, a)
  }

  /** Nothing is being computed, held or queued inside a stage. */
  ghost predicate Empty(b: Block) {
    if b.Straight? then !b.thread.Holding?
    else
      && !b.distributer.Sending?
      && (b.gatherer.Finished? || b.gatherer == Collecting([]))
      && forall l | 0 <= l < |b.lines| ::
           b.lines[l].inputs == [] && b.lines[l].outputs == [] && !b.lines[l].worker.Holding?
  }

  /** Stage `k` and the channel it reads are empty. */
  ghost predicate Quiet(s: Net, k: nat)
    requires k < |s.blocks| && |s.chans| == |s.blocks| + 1
  {
    s.chans[k] == [] && Empty(s.blocks[k])
  }

  /** A send into channel `k` would not block. */
  ghost predicate Accepts(cfg: Config, s: Net, k: nat)
    requires Fits(cfg, s) && k <= |s.blocks|
  {
    ChanReaderGone(s, k) || HasRoom(cfg.queue, s.chans[k], ChanReaderWaits(s, k))
  }

  ghost predicate InnerStuck(queue: nat, stage: Stage, b: Block)
    requires Shaped(stage, b)
  {
    forall i: Inner :: !InnerEnabled(queue, stage, b, i)
  }

  lemma StuckAfterGatherer(queue: nat, stage: Stage, b: Block)
    requires Shaped(stage, b) && b.Fork? && BlockInv(stage, b) && InnerStuck(queue, stage, b)
    requires b.gatherer.Finished? && !MayStopReading(b, false, false)
    ensures Empty(b)
  {
    forall l | 0 <= l < |b.lines|
      ensures b.lines[l].inputs == [] && b.lines[l].outputs == [] && !b.lines[l].worker.Holding?
    {
      assert !InnerEnabled(queue, stage, b, WorkerTakes(l));
      assert !InnerEnabled(queue, stage, b, WorkerEnds(l));
    }
    assert !InnerEnabled(queue, stage, b, Distribute);
  }

  /** The line the gatherer waits for owes it nothing once no thread can step. */
  lemma StuckLineOwesNothing(queue: nat, stage: Stage, b: Block)
    requires Shaped(stage, b) && b.Fork? && BlockInv(stage, b) && InnerStuck(queue, stage, b)
    requires b.gatherer.Collecting?
    ensures |b.gatherer.outs| < |b.lines|
    ensures var line := b.lines[|b.gatherer.outs|];
      line.inputs == [] && line.outputs == [] && line.worker.Idle?
  {
    assert !InnerEnabled(queue, stage, b, Join);
    var l := |b.gatherer.outs|;
    assert !InnerEnabled(queue, stage, b, Gather);
    assert !InnerEnabled(queue, stage, b, GathererEnds);
    assert !InnerEnabled(queue, stage, b, WorkerPuts(l));
    assert !InnerEnabled(queue, stage, b, WorkerTakes(l));
  }

  lemma StuckWithGatherer(queue: nat, stage: Stage, b: Block)
    requires Shaped(stage, b) && b.Fork? && BlockInv(stage, b) && InnerStuck(queue, stage, b)
    requires b.gatherer.Collecting?
    ensures Empty(b)
  {
    StuckLineOwesNothing(queue, stage, b);
    forall l | 0 <= l < |b.lines| ensures SentTo(b, l) == DueTo(b, l) {
      assert LineAligned(stage, b, l);
    }
    assert !InnerEnabled(queue, stage, b, Distribute);
    var at := if b.distributer.Sending? then b.distributer.line else 0;
    assert SentTo(b, at) == DueTo(b, at) && SentTo(b, |b.gatherer.outs|) == DueTo(b, |b.gatherer.outs|);
    forall l | 0 <= l < |b.lines|
      ensures b.lines[l].inputs == [] && b.lines[l].outputs == [] && !b.lines[l].worker.Holding?
    {
      assert LineAligned(stage, b, l);
    }
  }

  /** Unequal workers cannot wedge a fork-join: stuck and not blocked on its output means empty. */
  lemma StuckForkIsEmpty(queue: nat, stage: Stage, b: Block)
    requires Shaped(stage, b) && b.Fork? && BlockInv(stage, b) && InnerStuck(queue, stage, b)
    requires !Offers(b) && !MayStopReading(b, false, false)
    ensures Empty(b)
  {
    if b.gatherer.Finished? {
      StuckAfterGatherer(queue, stage, b);
    } else {
      StuckWithGatherer(queue, stage, b);
    }
  }

  lemma StuckStageIsQuiet(cfg: Config, s: Net, k: nat)
    requires Faithful(cfg, s) && HasLines(cfg) && ThreadsStuck(cfg, s)
    requires ReadersClear(s)
    requires k < |s.blocks| && Accepts(cfg, s, k + 1)
    ensures Quiet(s, k) && Accepts(cfg, s, k)
  {
    var stage, b := cfg.stages[k], s.blocks[k];
    assert !Enabled(cfg, s, Put(k));
    assert !Enabled(cfg, s, StopWriting(k));
    assert !Offers(b);
    if b.Fork? {
      assert !Enabled(cfg, s, StopReading(k));
      forall i: Inner ensures !InnerEnabled(cfg.queue, stage, b, i) {
        assert !Enabled(cfg, s, Inside(k, i));
      }
      StuckForkIsEmpty(cfg.queue, stage, b);
    }
    assert !Enabled(cfg, s, Take(k));
  }

  lemma {:induction false} StuckIsQuiet(cfg: Config, s: Net, k: nat)
    requires Faithful(cfg, s) && HasLines(cfg) && ThreadsStuck(cfg, s) && ReadersClear(s)
    requires k <= |s.blocks| && Accepts(cfg, s, |s.blocks|)
    ensures forall j | k <= j < |s.blocks| :: Quiet(s, j)
    ensures Accepts(cfg, s, k)
    decreases |s.blocks| - k
  {
    if k < |s.blocks| {
      StuckIsQuiet(cfg, s, k + 1);
      StuckStageIsQuiet(cfg, s, k);
    }
  }

  // ---- a returned reader leaves its channel empty ----------------------------

  ghost predicate ReadersClear(s: Net) {
    && |s.chans| == |s.blocks| + 1
    && forall k | 0 <= k < |s.blocks| && ReaderGone(s.blocks[k]) :: s.chans[k] == []
  }

  lemma {:induction false} RunKeepsClear(cfg: Config, s: Net, acts: seq<Action>)
    requires Fits(cfg, s) && ReadersClear(s) && Runs(cfg, s, acts)
    ensures ReadersClear(After(cfg, s, acts))
    decreases |acts|
  {
    if acts != [] {
      var s' := Next(cfg, s, acts[0]);
      forall k | 0 <= k < |s'.blocks| && ReaderGone(s'.blocks[k]) ensures s'.chans[k] == [] {
        assert ReaderGone(s.blocks[k]) ==> s.chans[k] == [];
      }
      RunKeepsClear(cfg, s', acts[1..]);
    }
  }

  /** The output side moves: dropped, with room, or with a caller waiting for an item. */
  ghost predicate OutputMoves(cfg: Config, s: Net)
    requires Fits(cfg, s)
  {
    Accepts(cfg, s, |s.blocks|) || s.consumer.Receiving?
  }

  /**
   In every reachable state: if any stage or the channel before it is not empty and
   the output side moves, some thread can step or the waiting caller gets an item.
   */
  lemma NoDeadlock(cfg: Config, acts: seq<Action>)
    requires HasLines(cfg) && Runs(cfg, Init(cfg), acts)
    requires OutputMoves(cfg, After(cfg, Init(cfg), acts))
    requires exists k :: 0 <= k < |cfg.stages| && !Quiet(After(cfg, Init(cfg), acts), k)
    ensures exists a :: (IsThreadStep(a) || a.GetOutput?) && Enabled(cfg, After(cfg, Init(cfg), acts), a)
  {
    InitFaithful(cfg);
    RunKeepsFaithful(cfg, Init(cfg), acts);
    RunKeepsClear(cfg, Init(cfg), acts);
    var s := After(cfg, Init(cfg), acts);
    if ThreadsStuck(cfg, s) {
      if Accepts(cfg, s, |s.blocks|) {
        StuckIsQuiet(cfg, s, 0);
        assert false;
      } else {
        assert Enabled(cfg, s, GetOutput);
      }
    }
  }
}
