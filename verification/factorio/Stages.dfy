/**
 The assembly lines a `FactorioBuilder` strings together, and what they compute
 when they are run one after the other on a whole list of items.  The threaded
 pipeline is compared against this sequential reading.
 */
module Stages {
  import opened Options

  /** One type stands for every item that travels through a pipeline. */
  type Item(!new)

  datatype Stage =
    | FilterMap(f: Item -> Option<Item>)
    | ForkJoin(work: (Item, nat) -> Item, lines: nat, join: seq<Item> -> Item)

  /** What the `lines` workers of a fork-join produce for one item, by line. */
  ghost function Row(work: (Item, nat) -> Item, x: Item, lines: nat): (row: seq<Item>)
    ensures |row| == lines
    ensures forall l | 0 <= l < lines :: row[l] == work(x, l)
  {
    seq(lines, l requires 0 <= l < lines => work(x, l))
  }

  /** What a stage forwards for one item: nothing or exactly one item. */
  ghost function Apply(stage: Stage, x: Item): seq<Item> {
    match stage
    case FilterMap(f) => (match f(x) case None => [] case Some(u) => [u])
    case ForkJoin(work, lines, join) => [join(Row(work, x, lines))]
  }

  ghost function RunStage(stage: Stage, xs: seq<Item>): seq<Item> {
    if xs == [] then [] else Apply(stage, xs[0]) + RunStage(stage, xs[1..])
  }

  /** The first `k` stages, each applied to the whole output of the one before. */
  ghost function Compose(stages: seq<Stage>, k: nat, xs: seq<Item>): seq<Item>
    requires k <= |stages|
  {
    if k == 0 then xs else RunStage(stages[k - 1], Compose(stages, k - 1, xs))
  }

  lemma {:induction false} RunStageConcat(stage: Stage, xs: seq<Item>, ys: seq<Item>)
    ensures RunStage(stage, xs + ys) == RunStage(stage, xs) + RunStage(stage, ys)
  {
    if xs == [] {
      assert xs + ys == ys;
    } else {
      assert (xs + ys)[0] == xs[0] && (xs + ys)[1..] == xs[1..] + ys;
      RunStageConcat(stage, xs[1..], ys);
    }
  }

  /** The stages treat a list of items piece by piece. */
  lemma {:induction false} ComposeConcat(stages: seq<Stage>, k: nat, xs: seq<Item>, ys: seq<Item>)
    requires k <= |stages|
    ensures Compose(stages, k, xs + ys) == Compose(stages, k, xs) + Compose(stages, k, ys)
  {
    if k > 0 {
      ComposeConcat(stages, k - 1, xs, ys);
      var a, b := Compose(stages, k - 1, xs), Compose(stages, k - 1, ys);
      RunStageConcat(stages[k - 1], a, b);
      assert Compose(stages, k, xs + ys) == RunStage(stages[k - 1], a + b);
    }
  }

  lemma {:induction false} ComposeNothing(stages: seq<Stage>, k: nat)
    requires k <= |stages|
    ensures Compose(stages, k, []) == []
  {
    if k > 0 {
      ComposeNothing(stages, k - 1);
    }
  }
}

/**
 The builder itself.  It owns a queue size and the stages added so far; `Map` and
 `Filter` are wrappers around `FilterMap`, and every pipeline starts with a thread
 that forwards its input.
 */
module Builder {
  import opened Options
  import opened Stages

  datatype FactorioBuilder = FactorioBuilder(queueSize: nat, stages: seq<Stage>) {

    static ghost function New(queueSize: nat): FactorioBuilder {
      FactorioBuilder(queueSize, [Stage.FilterMap(x => Some(x))])
    }

    ghost function FilterMap(f: Item -> Option<Item>): FactorioBuilder {
      this.(stages := stages + [Stage.FilterMap(f)])
    }

    ghost function Map(f: Item -> Item): FactorioBuilder {
      FilterMap(x => Some(f(x)))
    }

    ghost function Filter(f: Item -> bool): FactorioBuilder {
      FilterMap(x => if f(x) then Some(x) else None)
    }

    ghost function ForkJoin(work: (Item, nat) -> Item, lines: nat, join: seq<Item> -> Item): FactorioBuilder {
      this.(stages := stages + [Stage.ForkJoin(work, lines, join)])
    }

    /** What the pipeline built from this computes, stage by stage. */
    ghost function Output(xs: seq<Item>): seq<Item> {
      Compose(stages, |stages|, xs)
    }
  }

  ghost function KeepIf(f: Item -> bool, xs: seq<Item>): seq<Item> {
    if xs == [] then [] else (if f(xs[0]) then [xs[0]] else []) + KeepIf(f, xs[1..])
  }

  /** The results of `f` that are there, in order. */
  ghost function KeepSome(f: Item -> Option<Item>, xs: seq<Item>): seq<Item> {
    if xs == [] then []
    else if f(xs[0]).None? then KeepSome(f, xs[1..])
    else [f(xs[0]).value] + KeepSome(f, xs[1..])
  }

  lemma {:induction false} ComposePrefix(stages: seq<Stage>, more: seq<Stage>, k: nat, xs: seq<Item>)
    requires k <= |stages|
    ensures Compose(stages + more, k, xs) == Compose(stages, k, xs)
  {
    hide RunStage;
    if k > 0 {
      assert (stages + more)[k - 1] == stages[k - 1];
      ComposePrefix(stages, more, k - 1, xs);
    }
  }

  /** An empty pipeline forwards its input unchanged. */
  lemma {:induction false} NewForwards(queueSize: nat, xs: seq<Item>)
    ensures FactorioBuilder.New(queueSize).Output(xs) == xs
  {
    var stages := FactorioBuilder.New(queueSize).stages;
    assert Compose(stages, 0, xs) == xs;
    Forwards(stages[0], xs);
  }

  lemma {:induction false} Forwards(stage: Stage, xs: seq<Item>)
    requires stage.FilterMap? && forall x :: stage.f(x) == Some(x)
    ensures RunStage(stage, xs) == xs
  {
    if xs != [] {
      Forwards(stage, xs[1..]);
      assert xs == [xs[0]] + xs[1..];
    }
  }

  lemma AppendRuns(b: FactorioBuilder, stage: Stage, xs: seq<Item>)
    ensures b.(stages := b.stages + [stage]).Output(xs) == RunStage(stage, b.Output(xs))
  {
    ComposePrefix(b.stages, [stage], |b.stages|, xs);
  }

  /** `filter_map` drops the items `f` has no result for and delivers its result for each of the others, in order. */
  lemma FilterMapMeaning(b: FactorioBuilder, f: Item -> Option<Item>, xs: seq<Item>)
    ensures b.FilterMap(f).Output(xs) == KeepSome(f, b.Output(xs))
  {
    AppendRuns(b, Stage.FilterMap(f), xs);
    FilterMapRuns(Stage.FilterMap(f), f, b.Output(xs));
  }

  lemma {:induction false} FilterMapRuns(stage: Stage, f: Item -> Option<Item>, ys: seq<Item>)
    requires stage == Stage.FilterMap(f)
    ensures RunStage(stage, ys) == KeepSome(f, ys)
  {
    if ys != [] {
      FilterMapRuns(stage, f, ys[1..]);
    }
  }

  /** `map` puts `f` behind the old output, item by item. */
  lemma MapMeaning(b: FactorioBuilder, f: Item -> Item, xs: seq<Item>)
    ensures |b.Map(f).Output(xs)| == |b.Output(xs)|
    ensures forall i | 0 <= i < |b.Output(xs)| :: b.Map(f).Output(xs)[i] == f(b.Output(xs)[i])
  {
    var stage := Stage.FilterMap(x => Some(f(x)));
    AppendRuns(b, stage, xs);
    MapRuns(stage, f, b.Output(xs));
  }

  lemma {:induction false} MapRuns(stage: Stage, f: Item -> Item, ys: seq<Item>)
    requires stage.FilterMap? && forall x :: stage.f(x) == Some(f(x))
    ensures |RunStage(stage, ys)| == |ys|
    ensures forall i | 0 <= i < |ys| :: RunStage(stage, ys)[i] == f(ys[i])
  {
    if ys != [] {
      MapRuns(stage, f, ys[1..]);
    }
  }

  /** `filter` keeps exactly the items that pass, in order. */
  lemma FilterMeaning(b: FactorioBuilder, f: Item -> bool, xs: seq<Item>)
    ensures b.Filter(f).Output(xs) == KeepIf(f, b.Output(xs))
  {
    var stage := Stage.FilterMap(x => if f(x) then Some(x) else None);
    AppendRuns(b, stage, xs);
    FilterRuns(stage, f, b.Output(xs));
  }

  lemma {:induction false} FilterRuns(stage: Stage, f: Item -> bool, ys: seq<Item>)
    requires stage.FilterMap? && forall x :: stage.f(x) == if f(x) then Some(x) else None
    ensures RunStage(stage, ys) == KeepIf(f, ys)
  {
    if ys != [] {
      FilterRuns(stage, f, ys[1..]);
    }
  }

  /** `fork_join` joins the row of all line results of each item, in input order. */
  lemma ForkJoinMeaning(b: FactorioBuilder, work: (Item, nat) -> Item, lines: nat,
                        join: seq<Item> -> Item, xs: seq<Item>)
    ensures |b.ForkJoin(work, lines, join).Output(xs)| == |b.Output(xs)|
    ensures forall i | 0 <= i < |b.Output(xs)| ::
              b.ForkJoin(work, lines, join).Output(xs)[i] == join(Row(work, b.Output(xs)[i], lines))
  {
    var stage := Stage.ForkJoin(work, lines, join);
    AppendRuns(b, stage, xs);
    ForkJoinRuns(stage, b.Output(xs));
  }

  lemma {:induction false} ForkJoinRuns(stage: Stage, ys: seq<Item>)
    requires stage.ForkJoin?
    ensures |RunStage(stage, ys)| == |ys|
    ensures forall i | 0 <= i < |ys| ::
              RunStage(stage, ys)[i] == stage.join(Row(stage.work, ys[i], stage.lines))
  {
    if ys != [] {
      ForkJoinRuns(stage, ys[1..]);
    }
  }
}
