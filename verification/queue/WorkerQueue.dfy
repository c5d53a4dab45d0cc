/**
 The worker queue as a step relation: one owner that enqueues, reads results and closes,
 and `n` workers with a bounded inbox each.  A channel end is dropped exactly when the
 owner or worker that holds it moves on, so no flags are kept.  An inbox of size 0 is a
 rendezvous: a job can be put into it only while its worker waits.
 */
module WorkerQueue {
  type Value(!new)

  /** The `id`-th job enqueued; running it yields `value`. */
  datatype Job = Job(id: nat, value: Value)

  datatype Worker = Idle | Running(job: Job) | Ran(job: Job) | Exited | Panicked

  /** `taken` records every job the worker received. */
  datatype Desk = Desk(worker: Worker, inbox: seq<Job>, taken: seq<Job>)

  /** `Joining(i)`: closing, with the workers below `i` joined. */
  datatype Owner =
    | Ready
    | Sending(job: Job, target: nat)
    | Reading
    | Joining(next: nat)
    | Closed
    | Failed

  /** `accepted` and `read` record the jobs whose enqueue ended and the results handed out. */
  datatype Queue = Queue(
    bound: nat, desks: seq<Desk>, next: nat, owner: Owner, results: seq<Job>, accepted: seq<Job>, read: seq<Job>)

  datatype Action =
    | Submit(value: Value)     // enqueue is called
    | Put                      // ... and its send ends
    | Ask                      // next_result is called
    | Read                     // ... and returns
    | Close                    // close is called: the senders are dropped
    | Join                     // ... one more worker is joined
    | Return                   // ... and close returns
    | Take(w: nat)
    | Run(w: nat)
    | Post(w: nat)             // the result is sent
    | Exit(w: nat)

  predicate ByCaller(a: Action) {
    a.Submit? || a.Ask? || a.Close?
  }

  predicate HasRoom(bound: nat, d: Desk) {
    if bound == 0 then d.worker.Idle? && d.inbox == [] else |d.inbox| < bound
  }

  predicate Hung(d: Desk) {
    d.worker.Exited? || d.worker.Panicked?
  }

  /** The owner has dropped the senders. */
  predicate SendersGone(o: Owner) {
    o.Joining? || o.Closed?
  }

  ghost predicate Enabled(s: Queue, a: Action) {
    match a
    case Submit(_) => s.owner.Ready? && s.next < |s.desks|
    case Put =>
      && s.owner.Sending? && s.owner.target < |s.desks|
      && var d := s.desks[s.owner.target]; Hung(d) || HasRoom(s.bound, d)
    case Ask => s.owner.Ready?
    case Read => s.owner.Reading? && s.results != []
    case Close => s.owner.Ready?
    case Join => s.owner.Joining? && s.owner.next < |s.desks| && Hung(s.desks[s.owner.next])
    case Return => s.owner.Joining? && s.owner.next >= |s.desks|
    case Take(w) => w < |s.desks| && s.desks[w].worker.Idle? && s.desks[w].inbox != []
    case Run(w) => w < |s.desks| && s.desks[w].worker.Running?
    case Post(w) => w < |s.desks| && s.desks[w].worker.Ran?
    case Exit(w) => w < |s.desks| && s.desks[w].worker.Idle? && s.desks[w].inbox == [] && SendersGone(s.owner)
  }

  /** A job reaches a desk: it waits in the inbox, or goes straight to a waiting worker. */
  function Accept(bound: nat, d: Desk, job: Job): Desk {
    if bound == 0 then Desk(Running(job), d.inbox, d.taken + [job]) else d.(inbox := d.inbox + [job])
  }

  ghost function SetDesk(s: Queue, w: nat, d: Desk): Queue
    requires w < |s.desks|
  {
    s.(desks := s.desks[w := d])
  }

  ghost function Next(s: Queue, a: Action): Queue
    requires Enabled(s, a)
  {
    match a
    case Submit(v) =>
      s.(owner := Sending(Job(|s.accepted|, v), s.next), next := (s.next + 1) % |s.desks|)
    case Put =>
      var job, w := s.owner.job, s.owner.target;
      if Hung(s.desks[w]) then s.(owner := Failed)
      else SetDesk(s, w, Accept(s.bound, s.desks[w], job)).(owner := Ready, accepted := s.accepted + [job])
    case Ask => s.(owner := Reading)
    case Read => s.(owner := Ready, results := s.results[1..], read := s.read + [s.results[0]])
    case Close => s.(owner := Joining(0))
    case Join => if s.desks[s.owner.next].worker.Panicked? then s.(owner := Failed) else s.(owner := Joining(s.owner.next + 1))
    case Return => s.(owner := Closed)
    case Take(w) =>
      var d := s.desks[w];
      SetDesk(s, w, Desk(Running(d.inbox[0]), d.inbox[1..], d.taken + [d.inbox[0]]))
    case Run(w) => SetDesk(s, w, s.desks[w].(worker := Ran(s.desks[w].worker.job)))
    case Post(w) =>
      if s.owner.Closed? then SetDesk(s, w, s.desks[w].(worker := Panicked))
      else SetDesk(s, w, s.desks[w].(worker := Idle)).(results := s.results + [s.desks[w].worker.job])
    case Exit(w) => SetDesk(s, w, s.desks[w].(worker := Exited))
  }

  ghost function Init(n: nat, bound: nat): Queue {
    Queue(bound, seq(n, _ => Desk(Idle, [], [])), 0, Ready, [], [], [])
  }

  ghost predicate Runs(s: Queue, acts: seq<Action>)
    decreases |acts|
  {
    acts == [] || (Enabled(s, acts[0]) && Runs(Next(s, acts[0]), acts[1..]))
  }

  ghost function After(s: Queue, acts: seq<Action>): Queue
    requires Runs(s, acts)
    decreases |acts|
  {
    if acts == [] then s else After(Next(s, acts[0]), acts[1..])
  }

  // ---- round robin -----------------------------------------------------------------

  /** The jobs at positions `w`, `w + n`, `w + 2n`, ... */
  function Lane(jobs: seq<Job>, w: nat, n: nat): seq<Job>
    requires n > 0
  {
    if jobs == [] then []
    else Lane(jobs[..|jobs| - 1], w, n) + if (|jobs| - 1) % n == w then [jobs[|jobs| - 1]] else []
  }

  lemma LaneAppend(jobs: seq<Job>, job: Job, w: nat, n: nat)
    requires n > 0
    ensures Lane(jobs + [job], w, n) == Lane(jobs, w, n) + if |jobs| % n == w then [job] else []
  {
    assert (jobs + [job])[..|jobs|] == jobs;
  }

  /** How many of the numbers below `k` are `w` modulo `n`. */
  function LaneLength(k: nat, w: nat, n: nat): nat
    requires n > 0 && w < n
  {
    if k <= w then 0 else 1 + (k - w - 1) / n
  }

  lemma DivStep(x: nat, n: nat)
    requires n > 0
    ensures (x + 1) / n == x / n + if (x + 1) % n == 0 then 1 else 0
  {
    var q, r := x / n, x % n;
    assert x == q * n + r;
    if r + 1 == n {
      assert x + 1 == (q + 1) * n;
      DivUnique(x + 1, n, q + 1, 0);
    } else {
      DivUnique(x + 1, n, q, r + 1);
    }
  }

  lemma MulBound(d: int, n: nat)
    ensures d >= 1 ==> d * n >= n
    ensures d <= -1 ==> d * n <= 0 - n
  {
  }

  lemma DivUnique(x: nat, n: nat, q: nat, r: nat)
    requires n > 0 && x == q * n + r && r < n
    ensures x / n == q && x % n == r
  {
    var q', r' := x / n, x % n;
    assert x == q' * n + r';
    assert (q - q') * n == r' - r;
    MulBound(q - q', n);
  }

  lemma ModShift(q: nat, r: nat, w: nat, n: nat)
    requires r < n && w < n
    ensures (q * n + r + w) % n == w <==> r == 0
  {
    if r + w < n {
      DivUnique(q * n + r + w, n, q, r + w);
    } else {
      assert (q + 1) * n == q * n + n;
      DivUnique(q * n + r + w, n, q + 1, r + w - n);
    }
  }

  lemma LaneLengthStep(k: nat, w: nat, n: nat)
    requires n > 0 && w < n
    ensures LaneLength(k + 1, w, n) == LaneLength(k, w, n) + if k % n == w then 1 else 0
    ensures k % n == w ==> k == w + LaneLength(k, w, n) * n
  {
    if k <= w {
      DivUnique(k, n, 0, k);
      DivUnique(0, n, 0, 0);
    } else {
      DivStep(k - w - 1, n);
      var q, r := (k - w) / n, (k - w) % n;
      assert k == q * n + r + w;
      ModShift(q, r, w, n);
    }
  }

  /** The `j`-th job of worker `w` is job number `w + j * n`. */
  lemma {:induction false} LaneAt(jobs: seq<Job>, w: nat, n: nat)
    requires n > 0 && w < n
    ensures |Lane(jobs, w, n)| == LaneLength(|jobs|, w, n)
    ensures forall j | 0 <= j < |Lane(jobs, w, n)| :: w + j * n < |jobs| && Lane(jobs, w, n)[j] == jobs[w + j * n]
  {
    if jobs != [] {
      var before := jobs[..|jobs| - 1];
      LaneAt(before, w, n);
      LaneLengthStep(|before|, w, n);
      forall j | 0 <= j < |Lane(jobs, w, n)|
        ensures w + j * n < |jobs| && Lane(jobs, w, n)[j] == jobs[w + j * n]
      {
        if j < |Lane(before, w, n)| {
          assert Lane(before, w, n)[j] == before[w + j * n];
        }
      }
    }
  }
}
