/**
 The running pipeline as a step relation.

 Stage `k` reads channel `k` and writes channel `k + 1`; channel 0 is fed by the
 caller and the last channel is read by the caller.  A `filter_map` stage is one
 thread; a `fork_join` stage is a distributer, one worker per line and a gatherer,
 joined by a pair of inner channels per line.  A channel end is open exactly while
 the thread owning it runs, so no separate flags are kept.

 A channel of size 0 is a rendezvous: a value can be put into it only while its
 reader waits, and then belongs to that reader.
 */
module Network {
  import opened Options
  import opened Stages

  /** A thread that receives one item, computes, and sends at most one item. */
  datatype Thread = Idle | Holding(item: Item) | Ended

  /** `Sending(x, l)`: lines below `l` already got `x`. */
  datatype Distributer = Waiting | Sending(item: Item, line: nat) | Stopped

  datatype Gatherer = Collecting(outs: seq<Item>) | Offering(output: Item) | Finished

  /** `sent` records every item sent to the line, `made` every result its worker computed. */
  datatype Line = Line(inputs: seq<(Item, nat)>, worker: Thread, outputs: seq<Item>, sent: seq<Item>, made: seq<Item>)

  /** `taken` and `joined` record every item read and every vector given to `join`. */
  datatype Block =
    | Straight(thread: Thread)
    | Fork(distributer: Distributer, lines: seq<Line>, gatherer: Gatherer,
           taken: seq<Item>, joined: seq<seq<Item>>)

  /** The caller's end of the output channel. */
  datatype Consumer = Away | Receiving | Disconnected | Dropped

  datatype Config = Config(queue: nat, stages: seq<Stage>)

  datatype Net = Net(chans: seq<seq<Item>>, blocks: seq<Block>, open: bool, consumer: Consumer,
                     sent: seq<Item>, received: seq<Item>)

  datatype Inner =
    | Distribute
    | WorkerTakes(l: nat)
    | WorkerPuts(l: nat)
    | WorkerEnds(l: nat)
    | Gather
    | GathererEnds
    | Join

  datatype Action =
    | Send(x: Item)           // the caller sends an input
    | CloseInput              // the last input sender is dropped
    | Take(k: nat)            // stage k receives
    | Put(k: nat)             // stage k sends what it holds
    | StopReading(k: nat)     // stage k's reading thread returns
    | StopWriting(k: nat)     // stage k's writing thread returns, its send failed
    | Inside(k: nat, i: Inner)
    | AskOutput               // the caller calls recv on the output
    | GetOutput
    | SeeEnd                  // ... and is told the channel is disconnected
    | DropOutput              // the caller drops the output receiver

  // ---- shapes -------------------------------------------------------------

  ghost predicate Shaped(stage: Stage, b: Block) {
    match stage
    case FilterMap(_) => b.Straight?
    case ForkJoin(_, n, _) =>
      && b.Fork? && |b.lines| == n
      && (b.distributer.Sending? ==> b.distributer.line < n)
      && (b.gatherer.Collecting? ==> |b.gatherer.outs| <= n)
  }

  ghost predicate Fits(cfg: Config, s: Net) {
    && |s.blocks| == |cfg.stages|
    && |s.chans| == |cfg.stages| + 1
    && forall k | 0 <= k < |cfg.stages| :: Shaped(cfg.stages[k], s.blocks[k])
  }

  ghost function NewLine(): Line { Line([], Idle, [], [], []) }

  ghost function NewBlock(stage: Stage): (b: Block)
    ensures Shaped(stage, b)
  {
    match stage
    case FilterMap(_) => Straight(Idle)
    case ForkJoin(_, n, _) => Fork(Waiting, seq(n, _ => NewLine()), Collecting([]), [], [])
  }

  ghost function Init(cfg: Config): (s: Net)
    ensures Fits(cfg, s)
  {
    Net(seq(|cfg.stages| + 1, _ => []), seq(|cfg.stages|, k requires 0 <= k < |cfg.stages| => NewBlock(cfg.stages[k])),
        true, Away, [], [])
  }

  // ---- one stage seen from its two outer channels ---------------------------

  ghost predicate ReaderWaits(b: Block) {
    if b.Straight? then b.thread.Idle? else b.distributer.Waiting?
  }

  ghost predicate ReaderGone(b: Block) {
    if b.Straight? then b.thread.Ended? else b.distributer.Stopped?
  }

  ghost predicate WriterGone(b: Block) {
    if b.Straight? then b.thread.Ended? else b.gatherer.Finished?
  }

  ghost predicate Offers(b: Block) {
    if b.Straight? then b.thread.Holding? else b.gatherer.Offering?
  }

  ghost function Offer(b: Block): Item
    requires Offers(b)
  {
    if b.Straight? then b.thread.item else b.gatherer.output
  }

  /** A bounded send succeeds at once: there is room, or a rendezvous partner. */
  ghost predicate HasRoom<T>(queue: nat, buffer: seq<T>, readerWaits: bool) {
    |buffer| < queue || (queue == 0 && buffer == [] && readerWaits)
  }

  ghost function Accept(stage: Stage, b: Block, x: Item): (b': Block)
    requires Shaped(stage, b) && ReaderWaits(b)
    ensures Shaped(stage, b')
  {
    match stage
    case FilterMap(f) => Straight(match f(x) case None => Idle case Some(u) => Holding(u))
    case ForkJoin(_, n, _) =>
      b.(distributer := if n == 0 then Waiting else Sending(x, 0), taken := b.taken + [x])
  }

  ghost function Release(b: Block): Block
    requires Offers(b)
  {
    if b.Straight? then Straight(Idle) else b.(gatherer := Collecting([]))
  }

  ghost predicate MayStopReading(b: Block, empty: bool, writerGone: bool)
  {
    if b.Straight? then b.thread.Idle? && empty && writerGone
    else
      || (b.distributer.Waiting? && empty && writerGone)
      || (b.distributer.Sending? && b.distributer.line < |b.lines| && b.lines[b.distributer.line].worker.Ended?)
  }

  ghost function EndReader(b: Block): Block {
    if b.Straight? then Straight(Ended) else b.(distributer := Stopped)
  }

  /** Dropping the receiving end of a line's output channel discards its contents. */
  ghost function DropOutputs(lines: seq<Line>): (r: seq<Line>)
    ensures |r| == |lines|
    ensures forall l | 0 <= l < |lines| :: r[l] == lines[l].(outputs := [])
  {
    seq(|lines|, l requires 0 <= l < |lines| => lines[l].(outputs := []))
  }

  ghost function EndWriter(b: Block): Block {
    if b.Straight? then Straight(Ended) else b.(gatherer := Finished, lines := DropOutputs(b.lines))
  }

  // ---- inside a fork-join ---------------------------------------------------

  ghost predicate GathererAt(b: Block, l: nat)
    requires b.Fork?
  {
    b.gatherer.Collecting? && |b.gatherer.outs| == l
  }

  ghost predicate InnerEnabled(queue: nat, stage: Stage, b: Block, i: Inner)
    requires Shaped(stage, b)
  {
    b.Fork? &&
    match i
    case Distribute =>
      b.distributer.Sending? &&
      var line := b.lines[b.distributer.line];
      !line.worker.Ended? && HasRoom(queue, line.inputs, line.worker.Idle?)
    case WorkerTakes(l) => l < |b.lines| && b.lines[l].worker.Idle? && b.lines[l].inputs != []
    case WorkerPuts(l) =>
      && l < |b.lines| && b.lines[l].worker.Holding? && !b.gatherer.Finished?
      && HasRoom(queue, b.lines[l].outputs, GathererAt(b, l))
    case WorkerEnds(l) =>
      && l < |b.lines|
      && ((b.lines[l].worker.Idle? && b.lines[l].inputs == [] && b.distributer.Stopped?)
          || (b.lines[l].worker.Holding? && b.gatherer.Finished?))
    case Gather =>
      b.gatherer.Collecting? &&
      var l := |b.gatherer.outs|;
      l < |b.lines| && b.lines[l].outputs != []
    case GathererEnds =>
      b.gatherer.Collecting? &&
      var l := |b.gatherer.outs|;
      l < |b.lines| && b.lines[l].outputs == [] && b.lines[l].worker.Ended?
    case Join => b.gatherer.Collecting? && |b.gatherer.outs| == |b.lines|
  }

  ghost function InnerNext(queue: nat, stage: Stage, b: Block, i: Inner): (b': Block)
    requires Shaped(stage, b) && InnerEnabled(queue, stage, b, i)
    ensures Shaped(stage, b')
  {
    match i
    case Distribute =>
      var x, l := b.distributer.item, b.distributer.line;
      b.(lines := b.lines[l := b.lines[l].(inputs := b.lines[l].inputs + [(x, l)], sent := b.lines[l].sent + [x])],
         distributer := if l + 1 < |b.lines| then Sending(x, l + 1) else Waiting)
    case WorkerTakes(l) =>
      var line := b.lines[l];
      var (x, index) := line.inputs[0];
      var result := stage.work(x, index);
      b.(lines := b.lines[l := line.(inputs := line.inputs[1..], worker := Holding(result), made := line.made + [result])])
    case WorkerPuts(l) =>
      var line := b.lines[l];
      b.(lines := b.lines[l := line.(outputs := line.outputs + [line.worker.item], worker := Idle)])
    case WorkerEnds(l) =>
      b.(lines := b.lines[l := b.lines[l].(inputs := [], worker := Ended)])
    case Gather =>
      var l := |b.gatherer.outs|;
      var line := b.lines[l];
      b.(lines := b.lines[l := line.(outputs := line.outputs[1..])],
         gatherer := Collecting(b.gatherer.outs + [line.outputs[0]]))
    case GathererEnds => EndWriter(b)
    case Join =>
      b.(gatherer := Offering(stage.join(b.gatherer.outs)), joined := b.joined + [b.gatherer.outs])
  }

  // ---- the whole pipeline ---------------------------------------------------

  ghost predicate ChanWriterGone(s: Net, k: nat)
    requires k <= |s.blocks|
  {
    if k == 0 then !s.open else WriterGone(s.blocks[k - 1])
  }

  ghost predicate ChanReaderWaits(s: Net, k: nat)
    requires k <= |s.blocks|
  {
    if k < |s.blocks| then ReaderWaits(s.blocks[k]) else s.consumer.Receiving?
  }

  ghost predicate ChanReaderGone(s: Net, k: nat)
    requires k <= |s.blocks|
  {
    if k < |s.blocks| then ReaderGone(s.blocks[k]) else s.consumer.Dropped?
  }

  ghost predicate CanPut(cfg: Config, s: Net, k: nat)
    requires Fits(cfg, s) && k <= |s.blocks|
  {
    !ChanReaderGone(s, k) && HasRoom(cfg.queue, s.chans[k], ChanReaderWaits(s, k))
  }

  ghost predicate Enabled(cfg: Config, s: Net, a: Action)
    requires Fits(cfg, s)
  {
    var m := |s.blocks|;
    match a
    case Send(x) => s.open && CanPut(cfg, s, 0)
    case CloseInput => s.open
    case Take(k) => k < m && ReaderWaits(s.blocks[k]) && s.chans[k] != []
    case Put(k) => k < m && Offers(s.blocks[k]) && CanPut(cfg, s, k + 1)
    case StopReading(k) => k < m && MayStopReading(s.blocks[k], s.chans[k] == [], ChanWriterGone(s, k))
    case StopWriting(k) => k < m && Offers(s.blocks[k]) && ChanReaderGone(s, k + 1)
    case Inside(k, i) => k < m && InnerEnabled(cfg.queue, cfg.stages[k], s.blocks[k], i)
    case AskOutput => s.consumer.Away?
    case GetOutput => s.consumer.Receiving? && s.chans[m] != []
    case SeeEnd => s.consumer.Receiving? && s.chans[m] == [] && ChanWriterGone(s, m)
    case DropOutput => s.consumer.Away?
  }

  ghost function Next(cfg: Config, s: Net, a: Action): (s': Net)
    requires Fits(cfg, s) && Enabled(cfg, s, a)
    ensures Fits(cfg, s')
  {
    var m := |s.blocks|;
    match a
    case Send(x) => s.(chans := s.chans[0 := s.chans[0] + [x]], sent := s.sent + [x])
    case CloseInput => s.(open := false)
    case Take(k) =>
      s.(chans := s.chans[k := s.chans[k][1..]],
         blocks := s.blocks[k := Accept(cfg.stages[k], s.blocks[k], s.chans[k][0])])
    case Put(k) =>
      s.(chans := s.chans[k + 1 := s.chans[k + 1] + [Offer(s.blocks[k])]],
         blocks := s.blocks[k := Release(s.blocks[k])])
    case StopReading(k) =>
      s.(chans := s.chans[k := []], blocks := s.blocks[k := EndReader(s.blocks[k])])
    case StopWriting(k) =>
      s.(chans := if s.blocks[k].Straight? then s.chans[k := []] else s.chans,
         blocks := s.blocks[k := EndWriter(s.blocks[k])])
    case Inside(k, i) =>
      s.(blocks := s.blocks[k := InnerNext(cfg.queue, cfg.stages[k], s.blocks[k], i)])
    case AskOutput => s.(consumer := Receiving)
    case GetOutput =>
      s.(chans := s.chans[m := s.chans[m][1..]], consumer := Away, received := s.received + [s.chans[m][0]])
    case SeeEnd => s.(consumer := Disconnected)
    case DropOutput => s.(consumer := Dropped, chans := s.chans[m := []])
  }

  /** A schedule: every action is enabled when its turn comes. */
  ghost predicate Runs(cfg: Config, s: Net, acts: seq<Action>)
    requires Fits(cfg, s)
    decreases |acts|
  {
    acts == [] || (Enabled(cfg, s, acts[0]) && Runs(cfg, Next(cfg, s, acts[0]), acts[1..]))
  }

  ghost function After(cfg: Config, s: Net, acts: seq<Action>): (s': Net)
    requires Fits(cfg, s) && Runs(cfg, s, acts)
    ensures Fits(cfg, s')
    decreases |acts|
  {
    if acts == [] then s else After(cfg, Next(cfg, s, acts[0]), acts[1..])
  }
}
