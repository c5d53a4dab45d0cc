/**
 Progress of the worker queue: between two calls of its owner it makes only boundedly
 many steps, and it comes to rest only when the pending call has returned, or asks for
 a result that no job is left to produce.
 */
module QueueProgress {
  import opened WorkerQueue
  import opened QueueSafety

  function WorkerWork(w: Worker): nat {
    match w
    case Running(_) => 3
    case Ran(_) => 2
    case Idle => 1
    case _ => 0
  }

  function DeskWork(d: Desk): nat {
    4 * |d.inbox| + WorkerWork(d.worker)
  }

  function DesksWork(desks: seq<Desk>): nat {
    if desks == [] then 0 else DeskWork(desks[0]) + DesksWork(desks[1..])
  }

  function OwnerWork(o: Owner, n: nat): nat {
    match o
    case Sending(_, _) => 5
    case Reading => 1
    case Joining(i) => if i <= n then 2 + n - i else 1
    case _ => 0
  }

  /** Bounds the steps left until the owner is called again. */
  function Work(s: Queue): nat {
    DesksWork(s.desks) + OwnerWork(s.owner, |s.desks|)
  }

  lemma {:induction false} DesksWorkUpdate(desks: seq<Desk>, w: nat, d: Desk)
    requires w < |desks|
    ensures DesksWork(desks[w := d]) + DeskWork(desks[w]) == DesksWork(desks) + DeskWork(d)
  {
    if w == 0 {
      assert desks[w := d][1..] == desks[1..];
    } else {
      DesksWorkUpdate(desks[1..], w - 1, d);
      assert desks[w := d][1..] == desks[1..][w - 1 := d];
    }
  }

  /** Every step that is not a new call leaves less work. */
  lemma StepUsesWork(s: Queue, a: Action)
    requires DesksOk(s) && Enabled(s, a) && !ByCaller(a)
    ensures Work(Next(s, a)) < Work(s)
  {
    hide DesksWork;
    SendsSucceed(s, a);
    var s' := Next(s, a);
    match a
    case Put => DesksWorkUpdate(s.desks, s.owner.target, s'.desks[s.owner.target]);
    case Take(w) => DesksWorkUpdate(s.desks, w, s'.desks[w]);
    case Run(w) => DesksWorkUpdate(s.desks, w, s'.desks[w]);
    case Post(w) => DesksWorkUpdate(s.desks, w, s'.desks[w]);
    case Exit(w) => DesksWorkUpdate(s.desks, w, s'.desks[w]);
    case _ =>
  }

  ghost predicate NoCalls(acts: seq<Action>) {
    forall a | a in acts :: !ByCaller(a)
  }

  /** A run without new calls is no longer than the work it starts with. */
  lemma {:induction false} RunsAreShort(s: Queue, acts: seq<Action>)
    requires Safe(s) && Runs(s, acts) && NoCalls(acts)
    ensures |acts| <= Work(s)
    decreases |acts|
  {
    hide Work, Next, Enabled, Conserved, LanesHold, Numbered, DesksOk;
    if acts != [] {
      StepUsesWork(s, acts[0]);
      StepKeepsSafe(s, acts[0]);
      RunsAreShort(Next(s, acts[0]), acts[1..]);
    }
  }

  /** Nothing moves until the owner is called. */
  ghost predicate Rest(s: Queue) {
    forall a :: Enabled(s, a) ==> ByCaller(a)
  }

  /** From every reachable state the queue comes to rest without a new call. */
  lemma {:induction false} ComesToRest(s: Queue) returns (acts: seq<Action>)
    requires Safe(s)
    ensures Runs(s, acts) && NoCalls(acts) && Rest(After(s, acts))
    decreases Work(s)
  {
    hide Conserved, LanesHold, Numbered, DesksOk, Next, Enabled, Work, ByCaller;
    if a :| Enabled(s, a) && !ByCaller(a) {
      StepUsesWork(s, a);
      StepKeepsSafe(s, a);
      var rest := ComesToRest(Next(s, a));
      acts := [a] + rest;
      assert acts[1..] == rest;
    } else {
      acts := [];
    }
  }

  lemma RestingDesk(s: Queue, w: nat)
    requires DesksOk(s) && Rest(s) && w < |s.desks|
    ensures var d := s.desks[w];
      d.inbox == [] && (d.worker.Exited? || (d.worker.Idle? && !SendersGone(s.owner)))
  {
    assert DeskOk(s.bound, s.owner, s.desks[w]);
    assert !Enabled(s, Take(w)) && !Enabled(s, Run(w)) && !Enabled(s, Post(w)) && !Enabled(s, Exit(w));
  }

  lemma RestingDesks(s: Queue)
    requires DesksOk(s) && Rest(s)
    ensures AtDesks(s.desks) == multiset{}
  {
    forall d | d in s.desks ensures AtDesk(d) == multiset{} {
      var w :| 0 <= w < |s.desks| && s.desks[w] == d;
      RestingDesk(s, w);
    }
    NoneAtDesks(s.desks);
  }

  lemma RestingOwner(s: Queue)
    requires Numbered(s) && DesksOk(s) && Rest(s)
    ensures s.owner.Ready? || s.owner.Closed? || (s.owner.Reading? && s.results == [])
  {
    assert !Enabled(s, Put) && !Enabled(s, Join) && !Enabled(s, Return) && !Enabled(s, Read);
    match s.owner
    case Sending(_, t) =>
      DivUnique(t, |s.desks|, 0, t);
      RestingDesk(s, t);
      RoomAtRest(s, t);
    case Joining(i) =>
      if i < |s.desks| {
        RestingDesk(s, i);
      }
    case _ =>
  }

  lemma RoomAtRest(s: Queue, t: nat)
    requires t < |s.desks| && s.desks[t].inbox == []
    ensures s.desks[t].worker.Idle? || Hung(s.desks[t]) ==> Hung(s.desks[t]) || HasRoom(s.bound, s.desks[t])
  {
  }

  /**
   At rest no call is pending, save a `next_result` that can never return: every accepted
   job has run and every result has been read.
   */
  lemma RestMeansDone(s: Queue)
    requires Safe(s) && Rest(s)
    ensures s.owner.Ready? || s.owner.Closed? || s.owner.Reading?
    ensures multiset(s.accepted) == multiset(s.results) + multiset(s.read)
    ensures s.owner.Reading? ==> s.results == [] && multiset(s.read) == multiset(s.accepted)
  {
    hide AtDesks, LanesHold, Rest;
    RestingOwner(s);
    RestingDesks(s);
  }

  /** What one pending enqueue comes to. */
  ghost predicate EnqueueGoes(job: Job, before: seq<Job>, s: Queue) {
    || (s.owner.Sending? && s.owner.job == job && s.accepted == before)
    || (s.owner.Ready? && s.accepted == before + [job])
  }

  lemma StepEnqueue(s: Queue, a: Action, job: Job, before: seq<Job>)
    requires DesksOk(s) && Enabled(s, a) && !ByCaller(a) && EnqueueGoes(job, before, s)
    ensures EnqueueGoes(job, before, Next(s, a))
  {
    SendsSucceed(s, a);
  }

  /** A blocked `enqueue` is always unblocked: when the workers come to rest its job is accepted. */
  lemma EnqueueUnblocks(s: Queue, acts: seq<Action>)
    requires Safe(s) && s.owner.Sending?
    requires Runs(s, acts) && NoCalls(acts) && Rest(After(s, acts))
    ensures var s' := After(s, acts); s'.owner.Ready? && s'.accepted == s.accepted + [s.owner.job]
  {
    hide Next, Enabled, Runs, After, Safe, Rest, NoCalls;
    EnqueueEnds(s, acts, s.owner.job, s.accepted);
  }

  lemma {:induction false} EnqueueEnds(s: Queue, acts: seq<Action>, job: Job, before: seq<Job>)
    requires Safe(s) && EnqueueGoes(job, before, s)
    requires Runs(s, acts) && NoCalls(acts) && Rest(After(s, acts))
    ensures var s' := After(s, acts); s'.owner.Ready? && s'.accepted == before + [job]
    decreases |acts|
  {
    hide Next, Enabled, Conserved, LanesHold, Numbered, DesksOk, Rest;
    if acts == [] {
      RestMeansDone(s);
    } else {
      StepEnqueue(s, acts[0], job, before);
      StepKeepsSafe(s, acts[0]);
      EnqueueEnds(Next(s, acts[0]), acts[1..], job, before);
    }
  }

  lemma StepClosing(s: Queue, a: Action)
    requires DesksOk(s) && Enabled(s, a) && !ByCaller(a) && SendersGone(s.owner)
    ensures SendersGone(Next(s, a).owner)
  {
    if a.Join? {
      assert DeskOk(s.bound, s.owner, s.desks[s.owner.next]);
    }
  }

  /** `close` always returns: when the workers come to rest after it was called, it has. */
  lemma {:induction false} CloseReturns(s: Queue, acts: seq<Action>)
    requires Safe(s) && SendersGone(s.owner) && Runs(s, acts) && NoCalls(acts) && Rest(After(s, acts))
    ensures After(s, acts).owner.Closed?
    decreases |acts|
  {
    hide Next, Enabled, Conserved, LanesHold, Numbered, DesksOk, Rest;
    if acts == [] {
      RestMeansDone(s);
    } else {
      StepClosing(s, acts[0]);
      StepKeepsSafe(s, acts[0]);
      CloseReturns(Next(s, acts[0]), acts[1..]);
    }
  }

  /** What one pending `next_result` comes to. */
  ghost predicate ReadGoes(accepted: seq<Job>, before: seq<Job>, s: Queue) {
    && s.accepted == accepted
    && ((s.owner.Reading? && s.read == before) || (s.owner.Ready? && |s.read| == |before| + 1 && before <= s.read))
  }

  lemma StepRead(s: Queue, a: Action, accepted: seq<Job>, before: seq<Job>)
    requires DesksOk(s) && Enabled(s, a) && !ByCaller(a) && ReadGoes(accepted, before, s)
    ensures ReadGoes(accepted, before, Next(s, a))
  {
  }

  /** `next_result` returns one more result if and only if some accepted job's result has not been read. */
  lemma ReadReturnsIff(s: Queue, acts: seq<Action>)
    requires Safe(s) && s.owner.Reading?
    requires Runs(s, acts) && NoCalls(acts) && Rest(After(s, acts))
    ensures var s' := After(s, acts);
      if |s.read| < |s.accepted| then s'.owner.Ready? && |s'.read| == |s.read| + 1 && s.read <= s'.read
      else s'.owner.Reading? && s'.read == s.read
  {
    hide Next, Enabled, Runs, After, Safe, Rest, NoCalls;
    ReadEnds(s, acts, s.accepted, s.read);
  }

  lemma {:induction false} ReadEnds(s: Queue, acts: seq<Action>, accepted: seq<Job>, before: seq<Job>)
    requires Safe(s) && ReadGoes(accepted, before, s)
    requires Runs(s, acts) && NoCalls(acts) && Rest(After(s, acts))
    ensures var s' := After(s, acts);
      if |before| < |accepted| then s'.owner.Ready? && |s'.read| == |before| + 1 && before <= s'.read
      else s'.owner.Reading? && s'.read == before
    decreases |acts|
  {
    hide Next, Enabled, LanesHold, Numbered, DesksOk, Rest;
    if acts == [] {
      RestMeansDone(s);
      Sizes(s);
    } else {
      StepRead(s, acts[0], accepted, before);
      StepKeepsSafe(s, acts[0]);
      ReadEnds(Next(s, acts[0]), acts[1..], accepted, before);
    }
  }

  lemma Sizes(s: Queue)
    requires multiset(s.accepted) == multiset(s.results) + multiset(s.read)
    ensures |s.accepted| == |s.results| + |s.read|
  {
    assert |multiset(s.accepted)| == |multiset(s.results)| + |multiset(s.read)|;
  }
}
