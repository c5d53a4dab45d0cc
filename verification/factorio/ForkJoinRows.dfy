/**
 Row alignment inside a fork-join: however unequal the workers' speeds, the lines
 never get out of step with one another, and `join` is given whole rows in input
 order.
 */
module ForkJoinRows {
  import opened Stages
  import opened Network

  /** What a line still owes the gatherer, oldest first. */
  ghost function LineItems(work: (Item, nat) -> Item, line: Line): (r: seq<Item>)
    ensures |r| == |line.outputs| + (if line.worker.Holding? then 1 else 0) + |line.inputs|
  {
    line.outputs
    + (if line.worker.Holding? then [line.worker.item] else [])
    + seq(|line.inputs|, i requires 0 <= i < |line.inputs| => work(line.inputs[i].0, line.inputs[i].1))
  }

  /** How many rows the gatherer has already read from line `l`. */
  ghost function ReadFrom(b: Block, l: nat): nat
    requires b.Fork?
  {
    |b.joined| + (if b.gatherer.Collecting? && l < |b.gatherer.outs| then 1 else 0)
  }

  /** How many items line `l` was sent, counted while the gatherer runs: read, produced, held or still queued. */
  ghost function SentTo(b: Block, l: nat): nat
    requires b.Fork? && l < |b.lines|
  {
    ReadFrom(b, l) + |b.lines[l].outputs| + (if b.lines[l].worker.Holding? then 1 else 0) + |b.lines[l].inputs|
  }

  /** Items the distributer took, less the one it has not yet sent to line `l`. */
  ghost function DueTo(b: Block, l: nat): int
    requires b.Fork?
  {
    |b.taken| - (if b.distributer.Sending? && b.distributer.line <= l then 1 else 0)
  }

  ghost predicate LineAligned(stage: Stage, b: Block, l: nat)
    requires stage.ForkJoin? && Shaped(stage, b) && l < |b.lines|
  {
    && SentTo(b, l) == DueTo(b, l)
    && (forall i | 0 <= i < |b.lines[l].inputs| :: b.lines[l].inputs[i].1 == l)
    && (var items := LineItems(stage.work, b.lines[l]);
        forall i | 0 <= i < |items| :: ReadFrom(b, l) + i < |b.taken| && items[i] == stage.work(b.taken[ReadFrom(b, l) + i], l))
  }

  ghost predicate GathererAligned(stage: Stage, b: Block)
    requires stage.ForkJoin? && Shaped(stage, b)
  {
    match b.gatherer
    case Collecting(outs) =>
      outs != [] ==> |b.joined| < |b.taken| && outs == Row(stage.work, b.taken[|b.joined|], stage.lines)[..|outs|]
    case Offering(u) =>
      |b.joined| > 0 && u == stage.join(b.joined[|b.joined| - 1])
    case Finished => true
  }

  /** Every vector ever given to `join` is one whole row, in input order. */
  ghost predicate WholeRows(stage: Stage, b: Block)
    requires stage.ForkJoin? && Shaped(stage, b)
  {
    && |b.joined| <= |b.taken|
    && forall k | 0 <= k < |b.joined| :: b.joined[k] == Row(stage.work, b.taken[k], stage.lines)
  }

  ghost predicate Aligned(stage: Stage, b: Block)
    requires stage.ForkJoin? && Shaped(stage, b)
  {
    && (b.distributer.Sending? ==> |b.taken| > 0 && b.distributer.item == b.taken[|b.taken| - 1])
    && GathererAligned(stage, b)
    && (forall l | 0 <= l < |b.lines| :: LineAligned(stage, b, l))
  }

  /** A worker returns only after the distributer, or after the gatherer gave up. */
  ghost predicate EndsInOrder(b: Block)
    requires b.Fork?
  {
    && (forall l | 0 <= l < |b.lines| && b.lines[l].worker.Ended? ::
          b.lines[l].inputs == [] && (b.distributer.Stopped? || b.gatherer.Finished?))
    && (b.gatherer.Finished? ==> forall l | 0 <= l < |b.lines| :: b.lines[l].outputs == [])
  }

  ghost predicate BlockInv(stage: Stage, b: Block)
    requires Shaped(stage, b)
  {
    b.Fork? ==> EndsInOrder(b) && WholeRows(stage, b) && (!b.gatherer.Finished? ==> Aligned(stage, b))
  }

  lemma NewBlockInv(stage: Stage)
    ensures BlockInv(stage, NewBlock(stage))
  {
  }

  // ---- the outer steps ------------------------------------------------------

  lemma AcceptKeepsBlock(stage: Stage, b: Block, x: Item)
    requires Shaped(stage, b) && ReaderWaits(b) && BlockInv(stage, b)
    requires stage.ForkJoin? ==> stage.lines > 0
    ensures BlockInv(stage, Accept(stage, b, x))
  {
    if b.Fork? && !b.gatherer.Finished? {
      var b' := Accept(stage, b, x);
      forall l | 0 <= l < |b.lines| ensures LineAligned(stage, b', l) {
        assert LineAligned(stage, b, l);
      }
    }
  }

  lemma ReleaseKeepsBlock(stage: Stage, b: Block)
    requires Shaped(stage, b) && Offers(b) && BlockInv(stage, b)
    ensures Shaped(stage, Release(b)) && BlockInv(stage, Release(b))
  {
    if b.Fork? {
      var b' := Release(b);
      forall l | 0 <= l < |b.lines| ensures LineAligned(stage, b', l) {
        assert LineAligned(stage, b, l);
      }
    }
  }

  lemma EndReaderKeepsBlock(stage: Stage, b: Block, empty: bool, writerGone: bool)
    requires Shaped(stage, b) && BlockInv(stage, b) && MayStopReading(b, empty, writerGone)
    ensures Shaped(stage, EndReader(b)) && BlockInv(stage, EndReader(b))
  {
    if b.Fork? && !b.gatherer.Finished? {
      var b' := EndReader(b);
      forall l | 0 <= l < |b.lines| ensures LineAligned(stage, b', l) {
        assert LineAligned(stage, b, l);
      }
    }
  }

  lemma EndWriterKeepsBlock(stage: Stage, b: Block)
    requires Shaped(stage, b) && BlockInv(stage, b)
    ensures Shaped(stage, EndWriter(b)) && BlockInv(stage, EndWriter(b))
  {
  }

  // ---- the inner steps ------------------------------------------------------

  lemma DistributeLine(queue: nat, stage: Stage, b: Block, l: nat)
    requires Shaped(stage, b) && InnerEnabled(queue, stage, b, Distribute) && l < |b.lines|
    requires |b.taken| > 0 && b.distributer.item == b.taken[|b.taken| - 1] && LineAligned(stage, b, l)
    ensures LineAligned(stage, InnerNext(queue, stage, b, Distribute), l)
  {
    var b' := InnerNext(queue, stage, b, Distribute);
    if l == b.distributer.line {
      var items, items' := LineItems(stage.work, b.lines[l]), LineItems(stage.work, b'.lines[l]);
      assert items' == items + [stage.work(b.distributer.item, l)];
    } else {
      assert b'.lines[l] == b.lines[l];
    }
  }

  lemma DistributeKeeps(queue: nat, stage: Stage, b: Block)
    requires Shaped(stage, b) && BlockInv(stage, b) && InnerEnabled(queue, stage, b, Distribute)
    ensures BlockInv(stage, InnerNext(queue, stage, b, Distribute))
  {
    hide LineAligned, LineItems;
    var b' := InnerNext(queue, stage, b, Distribute);
    if !b.gatherer.Finished? {
      forall l | 0 <= l < |b.lines| ensures LineAligned(stage, b', l) {
        DistributeLine(queue, stage, b, l);
      }
    }
  }

  /** A line that owes the same items stays aligned, whatever else changes in it. */
  lemma SameItemsAligned(stage: Stage, b: Block, b': Block, l: nat)
    requires stage.ForkJoin? && Shaped(stage, b) && Shaped(stage, b') && l < |b.lines| && LineAligned(stage, b, l)
    requires b'.taken == b.taken && DueTo(b', l) == DueTo(b, l) && ReadFrom(b', l) == ReadFrom(b, l)
    requires LineItems(stage.work, b'.lines[l]) == LineItems(stage.work, b.lines[l])
    requires forall i | 0 <= i < |b'.lines[l].inputs| :: b'.lines[l].inputs[i].1 == l
    ensures LineAligned(stage, b', l)
  {
  }

  lemma TakeItems(work: (Item, nat) -> Item, line: Line, made: seq<Item>)
    requires line.worker.Idle? && line.inputs != []
    ensures var taking := line.(inputs := line.inputs[1..], made := made,
        worker := Holding(work(line.inputs[0].0, line.inputs[0].1)));
      LineItems(work, taking) == LineItems(work, line)
  {
  }

  lemma InputsAreForLine(stage: Stage, b: Block, l: nat)
    requires stage.ForkJoin? && Shaped(stage, b) && l < |b.lines| && LineAligned(stage, b, l)
    ensures forall i | 0 <= i < |b.lines[l].inputs| :: b.lines[l].inputs[i].1 == l
  {
  }

  lemma WorkerTakesLine(queue: nat, stage: Stage, b: Block, l: nat, j: nat)
    requires Shaped(stage, b) && InnerEnabled(queue, stage, b, WorkerTakes(l)) && j < |b.lines|
    requires LineAligned(stage, b, j)
    ensures LineAligned(stage, InnerNext(queue, stage, b, WorkerTakes(l)), j)
  {
    hide LineAligned, LineItems;
    var b' := InnerNext(queue, stage, b, WorkerTakes(l));
    TakeItems(stage.work, b.lines[l], b'.lines[l].made);
    InputsAreForLine(stage, b, j);
    SameItemsAligned(stage, b, b', j);
  }

  lemma WorkerTakesKeeps(queue: nat, stage: Stage, b: Block, l: nat)
    requires Shaped(stage, b) && BlockInv(stage, b) && InnerEnabled(queue, stage, b, WorkerTakes(l))
    ensures BlockInv(stage, InnerNext(queue, stage, b, WorkerTakes(l)))
  {
    hide LineAligned, LineItems;
    var b' := InnerNext(queue, stage, b, WorkerTakes(l));
    if !b.gatherer.Finished? {
      forall j | 0 <= j < |b.lines| ensures LineAligned(stage, b', j) {
        WorkerTakesLine(queue, stage, b, l, j);
      }
    }
  }

  lemma WorkerPutsKeeps(queue: nat, stage: Stage, b: Block, l: nat)
    requires Shaped(stage, b) && BlockInv(stage, b) && InnerEnabled(queue, stage, b, WorkerPuts(l))
    ensures BlockInv(stage, InnerNext(queue, stage, b, WorkerPuts(l)))
  {
    var b' := InnerNext(queue, stage, b, WorkerPuts(l));
    forall j | 0 <= j < |b.lines| ensures LineAligned(stage, b', j) {
      assert LineAligned(stage, b, j);
      if j == l {
        assert LineItems(stage.work, b'.lines[l]) == LineItems(stage.work, b.lines[l]);
      }
    }
  }

  lemma WorkerEndsKeeps(queue: nat, stage: Stage, b: Block, l: nat)
    requires Shaped(stage, b) && BlockInv(stage, b) && InnerEnabled(queue, stage, b, WorkerEnds(l))
    ensures BlockInv(stage, InnerNext(queue, stage, b, WorkerEnds(l)))
  {
    var b' := InnerNext(queue, stage, b, WorkerEnds(l));
    if !b.gatherer.Finished? {
      forall j | 0 <= j < |b.lines| ensures LineAligned(stage, b', j) {
        assert LineAligned(stage, b, j);
        if j == l {
          assert LineItems(stage.work, b'.lines[l]) == LineItems(stage.work, b.lines[l]);
        }
      }
    }
  }

  lemma GatherLine(queue: nat, stage: Stage, b: Block, l: nat)
    requires Shaped(stage, b) && InnerEnabled(queue, stage, b, Gather) && l < |b.lines| && LineAligned(stage, b, l)
    ensures LineAligned(stage, InnerNext(queue, stage, b, Gather), l)
  {
    var b', at := InnerNext(queue, stage, b, Gather), |b.gatherer.outs|;
    if l == at {
      var items, items' := LineItems(stage.work, b.lines[l]), LineItems(stage.work, b'.lines[l]);
      assert items' == items[1..];
    } else {
      assert b'.lines[l] == b.lines[l];
    }
  }

  /** The output the gatherer reads is the next entry of the row it collects. */
  lemma GatheredOutput(queue: nat, stage: Stage, b: Block)
    requires Shaped(stage, b) && InnerEnabled(queue, stage, b, Gather) && LineAligned(stage, b, |b.gatherer.outs|)
    ensures var at := |b.gatherer.outs|;
      |b.joined| < |b.taken| && b.lines[at].outputs[0] == stage.work(b.taken[|b.joined|], at)
  {
    var at := |b.gatherer.outs|;
    assert b.lines[at].outputs[0] == LineItems(stage.work, b.lines[at])[0];
  }

  lemma GatherKeeps(queue: nat, stage: Stage, b: Block)
    requires Shaped(stage, b) && BlockInv(stage, b) && InnerEnabled(queue, stage, b, Gather)
    ensures BlockInv(stage, InnerNext(queue, stage, b, Gather))
  {
    hide LineAligned, LineItems;
    var b' := InnerNext(queue, stage, b, Gather);
    var at := |b.gatherer.outs|;
    forall l | 0 <= l < |b.lines| ensures LineAligned(stage, b', l) {
      GatherLine(queue, stage, b, l);
    }
    GatheredOutput(queue, stage, b);
    var row := Row(stage.work, b.taken[|b.joined|], stage.lines);
    assert row[..at + 1] == row[..at] + [row[at]];
  }

  lemma JoinKeeps(queue: nat, stage: Stage, b: Block)
    requires Shaped(stage, b) && BlockInv(stage, b) && InnerEnabled(queue, stage, b, Join)
    requires |b.lines| > 0
    ensures BlockInv(stage, InnerNext(queue, stage, b, Join))
  {
    var b' := InnerNext(queue, stage, b, Join);
    forall l | 0 <= l < |b.lines| ensures LineAligned(stage, b', l) {
      assert LineAligned(stage, b, l);
    }
    var row := Row(stage.work, b.taken[|b.joined|], stage.lines);
    assert row[..|row|] == row;
  }

  lemma InnerKeepsBlock(queue: nat, stage: Stage, b: Block, i: Inner)
    requires Shaped(stage, b) && BlockInv(stage, b) && InnerEnabled(queue, stage, b, i)
    requires stage.ForkJoin? ==> stage.lines > 0
    ensures BlockInv(stage, InnerNext(queue, stage, b, i))
  {
    match i
    case Distribute => DistributeKeeps(queue, stage, b);
    case WorkerTakes(l) => WorkerTakesKeeps(queue, stage, b, l);
    case WorkerPuts(l) => WorkerPutsKeeps(queue, stage, b, l);
    case WorkerEnds(l) => WorkerEndsKeeps(queue, stage, b, l);
    case Gather => GatherKeeps(queue, stage, b);
    case GathererEnds => EndWriterKeepsBlock(stage, b);
    case Join => JoinKeeps(queue, stage, b);
  }
}
