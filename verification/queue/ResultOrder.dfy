/**
 The order of the results: they are handed out in the order the workers finished, and
 each worker finishes its jobs in the order it got them.
 */
module ResultOrder {
  import opened WorkerQueue
  import opened QueueSafety

  /** Every result sent so far, oldest first; `next_result` takes from the front. */
  function Results(s: Queue): seq<Job> {
    s.read + s.results
  }

  /** The results of the jobs of worker `w`, in order. */
  function OfWorker(jobs: seq<Job>, w: nat, n: nat): seq<Job>
    requires n > 0
  {
    if jobs == [] then []
    else OfWorker(jobs[..|jobs| - 1], w, n) + if jobs[|jobs| - 1].id % n == w then [jobs[|jobs| - 1]] else []
  }

  lemma OfWorkerAppend(jobs: seq<Job>, job: Job, w: nat, n: nat)
    requires n > 0
    ensures OfWorker(jobs + [job], w, n) == if job.id % n == w then OfWorker(jobs, w, n) + [job] else OfWorker(jobs, w, n)
  {
    assert (jobs + [job])[..|jobs|] == jobs;
  }

  // ---- results are only added, at the end -------------------------------------------

  lemma StepAddsAtEnd(s: Queue, a: Action)
    requires Enabled(s, a)
    ensures Results(Next(s, a)) ==
      if a.Post? && !s.owner.Closed? then Results(s) + [s.desks[a.w].worker.job] else Results(s)
  {
    if a.Read? {
      assert s.results == [s.results[0]] + s.results[1..];
    }
  }

  /** In every run what was handed out, followed by what is ready, only grows at the end. */
  lemma {:induction false} ResultsGrow(s: Queue, acts: seq<Action>)
    requires Runs(s, acts)
    ensures Results(s) <= Results(After(s, acts)) && s.read <= After(s, acts).read
    decreases |acts|
  {
    hide Next, Enabled, Results;
    if acts != [] {
      StepAddsAtEnd(s, acts[0]);
      StepReads(s, acts[0]);
      ResultsGrow(Next(s, acts[0]), acts[1..]);
    }
  }

  lemma StepReads(s: Queue, a: Action)
    requires Enabled(s, a)
    ensures Next(s, a).read == s.read + if a.Read? then [s.results[0]] else []
  {
  }

  // ---- each worker's results ------------------------------------------------------------

  /** The jobs a worker has finished: all it took, but for the one at hand. */
  function Finished(d: Desk): seq<Job> {
    if (d.worker.Running? || d.worker.Ran?) && d.taken != [] then d.taken[..|d.taken| - 1] else d.taken
  }

  /** A worker is busy with the job it took last. */
  predicate BusyWithLast(d: Desk) {
    d.worker.Running? || d.worker.Ran? ==> d.taken != [] && d.worker.job == d.taken[|d.taken| - 1]
  }

  ghost predicate AllBusyWithLast(s: Queue) {
    forall w | 0 <= w < |s.desks| :: BusyWithLast(s.desks[w])
  }

  ghost predicate ResultsInv(s: Queue) {
    && |s.desks| > 0 && AllBusyWithLast(s)
    && forall w | 0 <= w < |s.desks| :: OfWorker(Results(s), w, |s.desks|) == Finished(s.desks[w])
  }

  lemma StepKeepsBusy(s: Queue, a: Action)
    requires AllBusyWithLast(s) && Enabled(s, a)
    ensures AllBusyWithLast(Next(s, a))
  {
    var s' := Next(s, a);
    forall w | 0 <= w < |s'.desks| ensures BusyWithLast(s'.desks[w]) {
      assert BusyWithLast(s.desks[w]);
    }
  }

  /** Only sending a result makes a worker finish a job. */
  lemma StepFinishes(s: Queue, a: Action, w: nat)
    requires AllBusyWithLast(s) && DesksOk(s) && Enabled(s, a) && w < |s.desks|
    ensures Finished(Next(s, a).desks[w]) ==
      if a == Post(w) then Finished(s.desks[w]) + [s.desks[w].worker.job] else Finished(s.desks[w])
  {
    SendsSucceed(s, a);
    assert BusyWithLast(s.desks[w]) && DeskOk(s.bound, s.owner, s.desks[w]);
    if a == Take(w) {
      TakenLast(s.desks[w].taken, s.desks[w].inbox[0]);
    }
    if a.Put? {
      TakenLast(s.desks[w].taken, s.owner.job);
    }
  }

  lemma TakenLast(taken: seq<Job>, job: Job)
    ensures (taken + [job])[..|taken + [job]| - 1] == taken
  {
  }

  lemma LaneIds(jobs: seq<Job>, w: nat, n: nat, j: nat)
    requires w < n && j < |Lane(jobs, w, n)| && forall k | 0 <= k < |jobs| :: jobs[k].id == k
    ensures Lane(jobs, w, n)[j].id % n == w
  {
    hide Lane, LaneLength;
    LaneAt(jobs, w, n);
    DivUnique(w + j * n, n, j, w);
  }

  lemma LastTaken(d: Desk)
    requires BusyWithLast(d) && (d.worker.Running? || d.worker.Ran?)
    ensures |d.taken| > 0 && (d.taken + d.inbox)[|d.taken| - 1] == d.worker.job
  {
  }

  /** The job at hand is one of the worker's own. */
  lemma JobIsOwn(s: Queue, w: nat)
    requires LanesHold(s) && Numbered(s) && AllBusyWithLast(s) && w < |s.desks|
    requires s.desks[w].worker.Running? || s.desks[w].worker.Ran?
    ensures s.desks[w].worker.job.id % |s.desks| == w
  {
    hide Lane, BusyWithLast;
    var d := s.desks[w];
    LastTaken(d);
    assert d.taken + d.inbox == Lane(s.accepted, w, |s.desks|);
    LaneIds(s.accepted, w, |s.desks|, |d.taken| - 1);
  }

  lemma StepKeepsResults(s: Queue, a: Action)
    requires Safe(s) && ResultsInv(s) && Enabled(s, a)
    ensures ResultsInv(Next(s, a))
  {
    hide OfWorker, Results, Finished, BusyWithLast, Next, Enabled, Conserved;
    var s', n := Next(s, a), |s.desks|;
    StepKeepsSize(s, a);
    StepKeepsBusy(s, a);
    StepAddsAtEnd(s, a);
    SendsSucceed(s, a);
    forall w | 0 <= w < n ensures OfWorker(Results(s'), w, n) == Finished(s'.desks[w]) {
      StepFinishes(s, a, w);
      if a.Post? {
        PostIsBusy(s, a);
        JobIsOwn(s, a.w);
        OfWorkerAppend(Results(s), s.desks[a.w].worker.job, w, n);
      }
    }
  }

  lemma PostIsBusy(s: Queue, a: Action)
    requires Enabled(s, a) && a.Post?
    ensures a.w < |s.desks| && s.desks[a.w].worker.Ran?
  {
  }

  lemma {:induction false} RunKeepsResults(s: Queue, acts: seq<Action>)
    requires Safe(s) && ResultsInv(s) && Runs(s, acts)
    ensures ResultsInv(After(s, acts))
    decreases |acts|
  {
    hide Next, Enabled, Safe, ResultsInv;
    if acts != [] {
      StepKeepsSafe(s, acts[0]);
      StepKeepsResults(s, acts[0]);
      RunKeepsResults(Next(s, acts[0]), acts[1..]);
    }
  }

  lemma InitResults(n: nat, bound: nat)
    requires n > 0
    ensures ResultsInv(Init(n, bound))
  {
  }

  /**
   In every reachable state the results of worker `w`, in the order they are handed out,
   are the jobs it took, in order, but for the one at hand; and these are the first of the
   jobs numbered `w`, `w + n`, `w + 2n`, ...
   */
  lemma ResultsInOrder(n: nat, bound: nat, acts: seq<Action>, w: nat)
    requires w < n && Runs(Init(n, bound), acts)
    ensures var s := After(Init(n, bound), acts);
      && |s.desks| == n
      && OfWorker(Results(s), w, n) == Finished(s.desks[w])
      && OfWorker(Results(s), w, n) <= Lane(s.accepted, w, n)
  {
    hide Next, Enabled, Runs, After, Conserved, Numbered, DesksOk, Lane, OfWorker, Results;
    InitSafe(n, bound);
    InitResults(n, bound);
    RunKeepsSafe(Init(n, bound), acts);
    RunKeepsResults(Init(n, bound), acts);
    var s := After(Init(n, bound), acts);
    assert |Init(n, bound).desks| == n;
    assert s.desks[w].taken + s.desks[w].inbox == Lane(s.accepted, w, n);
  }

  lemma {:induction false} OneWorkerTakesAll(jobs: seq<Job>)
    ensures Lane(jobs, 0, 1) == jobs && OfWorker(jobs, 0, 1) == jobs
  {
    if jobs != [] {
      OneWorkerTakesAll(jobs[..|jobs| - 1]);
      assert jobs == jobs[..|jobs| - 1] + [jobs[|jobs| - 1]];
    }
  }

  /** With one worker the results come in the order of the jobs. */
  lemma OneWorkerInOrder(bound: nat, acts: seq<Action>)
    requires Runs(Init(1, bound), acts)
    ensures var s := After(Init(1, bound), acts); Results(s) <= s.accepted
  {
    hide Next, Enabled, Runs, After, Lane, OfWorker, Results;
    ResultsInOrder(1, bound, acts, 0);
    var s := After(Init(1, bound), acts);
    OneWorkerTakesAll(s.accepted);
    OneWorkerTakesAll(Results(s));
  }

  // ---- room in the inboxes ---------------------------------------------------------------

  /** A send into the inbox of a worker that has not left waits only while the inbox is full. */
  lemma PutWaitsOnlyForRoom(s: Queue)
    requires DesksOk(s) && Numbered(s) && s.owner.Sending? && s.bound > 0
    ensures s.owner.target < |s.desks|
    ensures Enabled(s, Put) <==> |s.desks[s.owner.target].inbox| < s.bound
  {
    DivUnique(s.owner.target, |s.desks|, 0, s.owner.target);
    assert DeskOk(s.bound, s.owner, s.desks[s.owner.target]);
  }

  /** Between calls the owner can make any call. */
  lemma ReadyTakesCalls(s: Queue, value: Value)
    requires LanesHold(s) && Numbered(s)
    ensures Enabled(s, Submit(value)) <==> s.owner.Ready?
    ensures Enabled(s, Ask) <==> s.owner.Ready?
    ensures Enabled(s, Close) <==> s.owner.Ready?
    ensures s.owner.Ready? ==> var o := Next(s, Submit(value)).owner;
      o.Sending? && o.job == Job(|s.accepted|, value) && o.target == |s.accepted| % |s.desks|
  {
    if s.owner.Ready? {
      var n, k := |s.desks|, |s.accepted|;
      assert k == (k / n) * n + k % n;
    }
  }
}
