/**
 What every reachable state of the worker queue keeps: jobs go round robin, none is lost
 or run twice, and no send between the threads ever fails.
 */
module QueueSafety {
  import opened Collections
  import opened WorkerQueue

  // ---- where the jobs are ------------------------------------------------------------

  function HeldBy(w: Worker): multiset<Job> {
    match w
    case Running(job) => multiset{job}
    case Ran(job) => multiset{job}
    case _ => multiset{}
  }

  function AtDesk(d: Desk): multiset<Job> {
    multiset(d.inbox) + HeldBy(d.worker)
  }

  /** The jobs accepted whose results are not sent yet. */
  function AtDesks(desks: seq<Desk>): multiset<Job> {
    if desks == [] then multiset{} else AtDesk(desks[0]) + AtDesks(desks[1..])
  }

  lemma Regroup(head: multiset<Job>, a: multiset<Job>, b: multiset<Job>, c: multiset<Job>, d: multiset<Job>)
    requires a + b == c + d
    ensures (head + a) + b == (head + c) + d
  {
    assert (head + a) + b == head + (a + b);
    assert (head + c) + d == head + (c + d);
  }

  lemma {:induction false} AtDesksUpdate(desks: seq<Desk>, w: nat, d: Desk)
    requires w < |desks|
    ensures AtDesks(desks[w := d]) + AtDesk(desks[w]) == AtDesks(desks) + AtDesk(d)
  {
    hide AtDesk;
    if w == 0 {
      assert desks[w := d][1..] == desks[1..];
    } else {
      AtDesksUpdate(desks[1..], w - 1, d);
      var tail := desks[1..][w - 1 := d];
      assert desks[w := d][1..] == tail;
      Regroup(AtDesk(desks[0]), AtDesks(tail), AtDesk(desks[w]), AtDesks(desks[1..]), AtDesk(d));
    }
  }

  lemma {:induction false} NoneAtDesks(desks: seq<Desk>)
    requires forall d | d in desks :: AtDesk(d) == multiset{}
    ensures AtDesks(desks) == multiset{}
  {
    hide AtDesk;
    if desks != [] {
      assert desks[0] in desks;
      NoneAtDesks(desks[1..]);
    }
  }

  // ---- the invariant -------------------------------------------------------------------

  ghost predicate Conserved(s: Queue) {
    multiset(s.accepted) == AtDesks(s.desks) + multiset(s.results) + multiset(s.read)
  }

  /** What worker `w` received, then what waits for it, is its share of the jobs in order. */
  ghost predicate LanesHold(s: Queue) {
    && |s.desks| > 0
    && forall w | 0 <= w < |s.desks| ::
         s.desks[w].taken + s.desks[w].inbox == Lane(s.accepted, w, |s.desks|)
  }

  ghost predicate Numbered(s: Queue) {
    && |s.desks| > 0
    && (forall k | 0 <= k < |s.accepted| :: s.accepted[k].id == k)
    && (if s.owner.Sending? then
          && s.owner.job.id == |s.accepted|
          && s.owner.target == |s.accepted| % |s.desks|
          && s.next == (|s.accepted| + 1) % |s.desks|
        else s.next == |s.accepted| % |s.desks|)
  }

  /** A worker runs what it took last, and leaves only when nothing can come any more. */
  ghost predicate DeskOk(bound: nat, o: Owner, d: Desk) {
    && !d.worker.Panicked?
    && |d.inbox| <= bound
    && (d.worker.Exited? ==> d.inbox == [] && SendersGone(o))
  }

  ghost predicate DesksOk(s: Queue) {
    && !s.owner.Failed?
    && (forall w | 0 <= w < |s.desks| :: DeskOk(s.bound, s.owner, s.desks[w]))
    && (s.owner.Joining? ==>
          s.owner.next <= |s.desks| && forall w | 0 <= w < s.owner.next :: s.desks[w].worker.Exited?)
    && (s.owner.Closed? ==> forall w | 0 <= w < |s.desks| :: s.desks[w].worker.Exited?)
  }

  ghost predicate Safe(s: Queue) {
    Conserved(s) && LanesHold(s) && Numbered(s) && DesksOk(s)
  }

  lemma InitSafe(n: nat, bound: nat)
    requires n > 0
    ensures Safe(Init(n, bound))
  {
    var s := Init(n, bound);
    assert forall d | d in s.desks :: AtDesk(d) == multiset{};
    NoneAtDesks(s.desks);
    DivUnique(0, n, 0, 0);
  }

  lemma StepKeepsDesks(s: Queue, a: Action)
    requires DesksOk(s) && Enabled(s, a)
    ensures DesksOk(Next(s, a))
  {
    var s' := Next(s, a);
    match a
    case Put =>
      assert DeskOk(s.bound, s.owner, s.desks[s.owner.target]);
    case Join =>
      assert DeskOk(s.bound, s.owner, s.desks[s.owner.next]);
    case Post(w) =>
      assert DeskOk(s.bound, s.owner, s.desks[w]);
    case _ =>
  }

  /** The senders and the receivers outlive every send: neither `unwrap` in the source can fail. */
  lemma SendsSucceed(s: Queue, a: Action)
    requires DesksOk(s) && Enabled(s, a)
    ensures a.Put? ==> !Hung(s.desks[s.owner.target])
    ensures a.Post? ==> !s.owner.Closed?
  {
    if a.Put? {
      assert DeskOk(s.bound, s.owner, s.desks[s.owner.target]);
    }
  }

  lemma SuccMod(k: nat, n: nat)
    requires n > 0
    ensures (k % n + 1) % n == (k + 1) % n
  {
    var q, r := k / n, k % n;
    assert k == q * n + r;
    if r + 1 == n {
      assert k + 1 == (q + 1) * n + 0;
      DivUnique(k + 1, n, q + 1, 0);
      DivUnique(r + 1, n, 1, 0);
    } else {
      DivUnique(k + 1, n, q, r + 1);
      DivUnique(r + 1, n, 0, r + 1);
    }
  }

  lemma StepKeepsNumbers(s: Queue, a: Action)
    requires Numbered(s) && DesksOk(s) && Enabled(s, a)
    ensures Numbered(Next(s, a))
  {
    SendsSucceed(s, a);
    SuccMod(|s.accepted|, |s.desks|);
  }

  lemma PutKeepsLanes(s: Queue)
    requires LanesHold(s) && Numbered(s) && DesksOk(s) && Enabled(s, Put)
    ensures LanesHold(Next(s, Put))
  {
    hide Lane;
    SendsSucceed(s, Put);
    var s', job, t := Next(s, Put), s.owner.job, s.owner.target;
    assert DeskOk(s.bound, s.owner, s.desks[t]);
    forall w | 0 <= w < |s'.desks|
      ensures s'.desks[w].taken + s'.desks[w].inbox == Lane(s'.accepted, w, |s'.desks|)
    {
      LaneAppend(s.accepted, job, w, |s.desks|);
      var d := s.desks[w];
      assert d.taken + d.inbox == Lane(s.accepted, w, |s.desks|);
      if w == t {
        AcceptAppends(s.bound, d, job);
      } else {
        assert s'.desks[w] == d;
      }
    }
  }

  lemma AcceptAppends(bound: nat, d: Desk, job: Job)
    requires |d.inbox| <= bound
    ensures var d' := Accept(bound, d, job); d'.taken + d'.inbox == d.taken + d.inbox + [job]
  {
  }

  lemma TakeKeepsOrder(d: Desk)
    requires d.inbox != []
    ensures (d.taken + [d.inbox[0]]) + d.inbox[1..] == d.taken + d.inbox
  {
  }

  lemma StepKeepsLanes(s: Queue, a: Action)
    requires LanesHold(s) && Numbered(s) && DesksOk(s) && Enabled(s, a)
    ensures LanesHold(Next(s, a))
  {
    hide Lane;
    if a.Put? {
      PutKeepsLanes(s);
    } else {
      var s' := Next(s, a);
      if a.Take? {
        TakeKeepsOrder(s.desks[a.w]);
      }
      forall w | 0 <= w < |s'.desks|
        ensures s'.desks[w].taken + s'.desks[w].inbox == Lane(s'.accepted, w, |s'.desks|)
      {
        assert s.desks[w].taken + s.desks[w].inbox == Lane(s.accepted, w, |s.desks|);
      }
    }
  }

  lemma Rebalance(x: multiset<Job>, x': multiset<Job>, d: multiset<Job>, d': multiset<Job>,
                  r: multiset<Job>, r': multiset<Job>, acc: multiset<Job>, acc': multiset<Job>)
    requires x' + d == x + d' && acc == x + r && acc' + d + r == acc + d' + r'
    ensures acc' == x' + r'
  {
    forall j ensures acc'[j] == (x' + r')[j] {
      assert (x' + d)[j] == (x + d')[j];
      assert acc[j] == (x + r)[j];
      assert (acc' + d + r)[j] == (acc + d' + r')[j];
    }
  }

  ghost predicate Balanced(s: Queue, s': Queue, w: nat)
    requires w < |s.desks| && w < |s'.desks|
  {
    && s'.desks == s.desks[w := s'.desks[w]]
    && multiset(s'.accepted) + AtDesk(s.desks[w]) + (multiset(s.results) + multiset(s.read))
       == multiset(s.accepted) + AtDesk(s'.desks[w]) + (multiset(s'.results) + multiset(s'.read))
  }

  lemma BalancedConserves(s: Queue, s': Queue, w: nat)
    requires Conserved(s) && w < |s.desks| && w < |s'.desks| && Balanced(s, s', w)
    ensures Conserved(s')
  {
    hide AtDesks, AtDesk;
    AtDesksUpdate(s.desks, w, s'.desks[w]);
    var r, r' := multiset(s.results) + multiset(s.read), multiset(s'.results) + multiset(s'.read);
    assert multiset(s.accepted) == AtDesks(s.desks) + r;
    Rebalance(AtDesks(s.desks), AtDesks(s'.desks), AtDesk(s.desks[w]), AtDesk(s'.desks[w]), r, r',
      multiset(s.accepted), multiset(s'.accepted));
    assert AtDesks(s'.desks) + r' == AtDesks(s'.desks) + multiset(s'.results) + multiset(s'.read);
  }

  lemma TakeConserves(s: Queue, w: nat)
    requires Conserved(s) && Enabled(s, Take(w))
    ensures Conserved(Next(s, Take(w)))
  {
    hide AtDesks, Conserved;
    var d, d' := s.desks[w], Next(s, Take(w)).desks[w];
    FirstAndRest(d.inbox);
    assert AtDesk(d') == AtDesk(d);
    BalancedConserves(s, Next(s, Take(w)), w);
  }

  lemma PostConserves(s: Queue, w: nat)
    requires Conserved(s) && DesksOk(s) && Enabled(s, Post(w))
    ensures Conserved(Next(s, Post(w)))
  {
    hide AtDesks, Conserved;
    SendsSucceed(s, Post(w));
    var d, s' := s.desks[w], Next(s, Post(w));
    assert AtDesk(d) == AtDesk(s'.desks[w]) + multiset{d.worker.job};
    assert multiset(s'.results) == multiset(s.results) + multiset{d.worker.job};
    BalancedConserves(s, s', w);
  }

  /** Only the state of one worker changes. */
  lemma SameJobsConserve(s: Queue, s': Queue, w: nat)
    requires Conserved(s) && w < |s.desks| && w < |s'.desks| && s'.desks == s.desks[w := s'.desks[w]]
    requires AtDesk(s'.desks[w]) == AtDesk(s.desks[w])
    requires s'.accepted == s.accepted && s'.results == s.results && s'.read == s.read
    ensures Conserved(s')
  {
    hide AtDesk, AtDesks, Conserved;
    BalancedConserves(s, s', w);
  }

  lemma RunConserves(s: Queue, w: nat)
    requires Conserved(s) && Enabled(s, Run(w))
    ensures Conserved(Next(s, Run(w)))
  {
    hide AtDesks, Conserved;
    SameJobsConserve(s, Next(s, Run(w)), w);
  }

  lemma ExitConserves(s: Queue, w: nat)
    requires Conserved(s) && Enabled(s, Exit(w))
    ensures Conserved(Next(s, Exit(w)))
  {
    hide AtDesks, Conserved;
    SameJobsConserve(s, Next(s, Exit(w)), w);
  }

  lemma PutConserves(s: Queue)
    requires Conserved(s) && DesksOk(s) && Enabled(s, Put)
    ensures Conserved(Next(s, Put))
  {
    hide AtDesks;
    SendsSucceed(s, Put);
    BalancedConserves(s, Next(s, Put), s.owner.target);
  }

  lemma StepConserves(s: Queue, a: Action)
    requires Conserved(s) && DesksOk(s) && Enabled(s, a)
    ensures Conserved(Next(s, a))
  {
    hide AtDesks;
    match a
    case Put => PutConserves(s);
    case Read => FirstAndRest(s.results);
    case Take(w) => TakeConserves(s, w);
    case Post(w) => PostConserves(s, w);
    case Run(w) => RunConserves(s, w);
    case Exit(w) => ExitConserves(s, w);
    case _ =>
  }

  lemma StepKeepsSafe(s: Queue, a: Action)
    requires Safe(s) && Enabled(s, a)
    ensures Safe(Next(s, a))
  {
    hide *;
    hide Next, Enabled;
    SafeParts(s);
    StepKeepsDesks(s, a);
    StepKeepsNumbers(s, a);
    StepKeepsLanes(s, a);
    StepConserves(s, a);
    SafeFromParts(Next(s, a));
  }

  lemma SafeParts(s: Queue)
    requires Safe(s)
    ensures Conserved(s) && LanesHold(s) && Numbered(s) && DesksOk(s)
  {
  }

  lemma SafeFromParts(s: Queue)
    requires Conserved(s) && LanesHold(s) && Numbered(s) && DesksOk(s)
    ensures Safe(s)
  {
  }

  lemma {:induction false} RunKeepsSafe(s: Queue, acts: seq<Action>)
    requires Safe(s) && Runs(s, acts)
    ensures Safe(After(s, acts)) && |After(s, acts).desks| == |s.desks|
    decreases |acts|
  {
    hide Safe, Next, Enabled;
    if acts != [] {
      StepKeepsSafe(s, acts[0]);
      StepKeepsSize(s, acts[0]);
      RunKeepsSafe(Next(s, acts[0]), acts[1..]);
    }
  }

  lemma StepKeepsSize(s: Queue, a: Action)
    requires Enabled(s, a)
    ensures |Next(s, a).desks| == |s.desks|
  {
  }

  // ---- the results -------------------------------------------------------------------------

  /** Job number `k` goes to worker `k % n`, and each worker receives its jobs in order. */
  lemma RoundRobin(n: nat, bound: nat, acts: seq<Action>, w: nat)
    requires n > 0 && w < n && Runs(Init(n, bound), acts)
    ensures var s := After(Init(n, bound), acts);
      && |s.desks| == n
      && var jobs := s.desks[w].taken + s.desks[w].inbox;
      && |jobs| == LaneLength(|s.accepted|, w, n)
      && forall j | 0 <= j < |jobs| :: w + j * n < |s.accepted| && jobs[j] == s.accepted[w + j * n] && jobs[j].id == w + j * n
  {
    hide Next, Enabled, Runs, After, Conserved, DesksOk, Lane, LaneLength;
    InitSafe(n, bound);
    RunKeepsSafe(Init(n, bound), acts);
    var s := After(Init(n, bound), acts);
    assert |Init(n, bound).desks| == n;
    LaneAt(s.accepted, w, n);
  }

  /** Every job accepted is waiting, running, among the unread results, or read, exactly once. */
  lemma JobsConserved(n: nat, bound: nat, acts: seq<Action>)
    requires n > 0 && Runs(Init(n, bound), acts)
    ensures var s := After(Init(n, bound), acts);
      multiset(s.accepted) == AtDesks(s.desks) + multiset(s.results) + multiset(s.read)
  {
    hide Next, Enabled, Runs, After, LanesHold, Numbered, DesksOk;
    InitSafe(n, bound);
    RunKeepsSafe(Init(n, bound), acts);
  }

  lemma ExitedHoldNothing(s: Queue)
    requires DesksOk(s) && forall w | 0 <= w < |s.desks| :: s.desks[w].worker.Exited?
    ensures AtDesks(s.desks) == multiset{}
  {
    forall d | d in s.desks ensures AtDesk(d) == multiset{} {
      var w :| 0 <= w < |s.desks| && s.desks[w] == d;
      assert DeskOk(s.bound, s.owner, s.desks[w]);
    }
    NoneAtDesks(s.desks);
  }

  /** When `close` has returned every worker has ended and every accepted job ran exactly once. */
  lemma CloseRunsEverything(n: nat, bound: nat, acts: seq<Action>)
    requires n > 0 && Runs(Init(n, bound), acts) && After(Init(n, bound), acts).owner.Closed?
    ensures var s := After(Init(n, bound), acts);
      && (forall w | 0 <= w < |s.desks| :: s.desks[w].worker.Exited?)
      && multiset(s.accepted) == multiset(s.results) + multiset(s.read)
  {
    hide Next, Enabled, Runs, After, LanesHold, Numbered, AtDesks;
    InitSafe(n, bound);
    RunKeepsSafe(Init(n, bound), acts);
    ExitedHoldNothing(After(Init(n, bound), acts));
  }
}
