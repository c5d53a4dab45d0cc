/**
 Lock discipline: what a task may hold while it waits, why waiting never goes in a
 circle, and why some lock step is always possible.
 */
module ChatLocks {
  import opened Options
  import opened ChatServer
  import opened ChatSafety

  /** At rest: waiting for its client, or finished.  Every other place is inside the server. */
  predicate AtRest(pc: Pc) {
    pc.Awaiting? || pc.Serving? || pc.Done?
  }

  /** The actions by which a task inside the server moves on; the other ones need a client or the accept loop. */
  predicate Internal(a: Action) {
    || a.Grant? || a.Check? || a.LockOwn? || a.SendAnswer? || a.UnlockOwn? || a.Insert? || a.InsertUnlock?
    || a.LockWriter? || a.SendNext? || a.UnlockWriter? || a.Finish? || a.Remove? || a.RemoveUnlock?
  }

  /** No task holds two writers, or waits for the map lock while it holds any lock. */
  lemma LockDiscipline(s: Server, t: nat)
    requires Safe(s)
    ensures forall v, w | v in s.mutexes && w in s.mutexes && s.mutexes[v] == t && s.mutexes[w] == t :: v == w
    ensures t in s.queue ==> t !in s.readers && s.writer != Some(t) && forall w | w in s.mutexes :: s.mutexes[w] != t
  {
    hide QueueInv, MapLockInv, PlansInv, EntriesInv, TargetsInv;
    forall v, w | v in s.mutexes && w in s.mutexes && s.mutexes[v] == t && s.mutexes[w] == t ensures v == w {
      assert HeldWriter(t, PcOf(s, t)) == Some(v) && HeldWriter(t, PcOf(s, t)) == Some(w);
    }
    if t in s.queue {
      QueuedHoldsNothing(s, t);
    }
  }

  lemma QueuedHoldsNothing(s: Server, t: nat)
    requires QueueInv(s) && MapLockInv(s) && MutexInv(s) && t in s.queue
    ensures t !in s.readers && s.writer != Some(t) && forall w | w in s.mutexes :: s.mutexes[w] != t
  {
    assert Queued(PcOf(s, t));
    assert t in s.readers <==> HoldsShared(PcOf(s, t));
    assert s.writer == Some(t) <==> HoldsExclusive(PcOf(s, t));
    forall w | w in s.mutexes ensures s.mutexes[w] != t {
      assert HeldWriter(t, PcOf(s, t)) == Some(w) <==> w in s.mutexes && s.mutexes[w] == t;
    }
  }

  // ---- waiting -------------------------------------------------------------------------

  /** The writer whose mutex a task asks for next. */
  function WantedWriter(t: nat, pc: Pc): Option<nat> {
    match pc
    case Answering(_, _) => Some(t)
    case Reacting(_, plan, k, _, failed) => if !failed && k < |plan| then Some(plan[k].to) else None
    case _ => None
  }

  /** `t` waits for the map lock behind `u`: `u` is ahead in the queue, or holds the lock. */
  ghost predicate WaitsForMap(s: Server, t: nat, u: nat) {
    exists i | 0 <= i < |s.queue| ::
      s.queue[i] == t && (u in s.queue[..i] || u in s.readers || s.writer == Some(u))
  }

  /** `t` waits for the mutex of a writer that `u` is sending to. */
  ghost predicate WaitsForWriter(s: Server, t: nat, u: nat) {
    exists w :: WantedWriter(t, PcOf(s, t)) == Some(w) && w in s.mutexes && s.mutexes[w] == u
  }

  ghost predicate WaitsFor(s: Server, t: nat, u: nat) {
    WaitsForMap(s, t, u) || WaitsForWriter(s, t, u)
  }

  ghost function IndexIn(queue: seq<nat>, t: nat): (i: nat)
    ensures i <= |queue|
    ensures t in queue ==> i < |queue| && queue[i] == t
    ensures t !in queue ==> i == |queue|
  {
    if queue == [] || queue[0] == t then 0 else 1 + IndexIn(queue[1..], t)
  }

  /** Waiting goes down in rank: first the queue, then tasks in the map lock, then holders of a writer. */
  ghost function Rank(s: Server, t: nat): nat {
    if t in s.queue then 2 + IndexIn(s.queue, t)
    else if HeldWriter(t, PcOf(s, t)).Some? then 0
    else 1
  }

  lemma IndexUnique(queue: seq<nat>, i: nat, j: nat)
    requires forall a, b | 0 <= a < b < |queue| :: queue[a] != queue[b]
    requires i < |queue| && j < |queue| && queue[i] == queue[j]
    ensures i == j
  {
  }

  lemma RankInQueue(s: Server, i: nat)
    requires QueueInv(s) && i < |s.queue|
    ensures Rank(s, s.queue[i]) == 2 + i
  {
    hide Queued;
    IndexUnique(s.queue, i, IndexIn(s.queue, s.queue[i]));
  }

  lemma RankOfHolder(s: Server, u: nat)
    requires QueueInv(s) && MapLockInv(s) && (u in s.readers || s.writer == Some(u))
    ensures Rank(s, u) < 2
  {
    assert u in s.readers <==> HoldsShared(PcOf(s, u));
    assert s.writer == Some(u) <==> HoldsExclusive(PcOf(s, u));
    assert !Queued(PcOf(s, u));
  }

  lemma MapWaitDescends(s: Server, t: nat, u: nat)
    requires QueueInv(s) && MapLockInv(s) && WaitsForMap(s, t, u)
    ensures Rank(s, u) < Rank(s, t)
  {
    hide QueueInv, MapLockInv, Rank;
    var i :| 0 <= i < |s.queue| && s.queue[i] == t && (u in s.queue[..i] || u in s.readers || s.writer == Some(u));
    RankInQueue(s, i);
    if u in s.queue[..i] {
      var j :| 0 <= j < i && s.queue[j] == u;
      RankInQueue(s, j);
    } else {
      RankOfHolder(s, u);
    }
  }

  lemma WriterWaitDescends(s: Server, t: nat, u: nat)
    requires QueueInv(s) && MutexInv(s) && WaitsForWriter(s, t, u)
    ensures Rank(s, u) < Rank(s, t)
  {
    var w :| WantedWriter(t, PcOf(s, t)) == Some(w) && w in s.mutexes && s.mutexes[w] == u;
    assert HeldWriter(u, PcOf(s, u)) == Some(w);
    assert !Queued(PcOf(s, u)) && HeldWriter(t, PcOf(s, t)).None?;
  }

  lemma WaitDescends(s: Server, t: nat, u: nat)
    requires Safe(s) && WaitsFor(s, t, u)
    ensures Rank(s, u) < Rank(s, t)
  {
    hide QueueInv, MapLockInv, MutexInv, WaitsForMap, WaitsForWriter, Rank;
    if WaitsForMap(s, t, u) {
      MapWaitDescends(s, t, u);
    } else {
      WriterWaitDescends(s, t, u);
    }
  }

  ghost predicate WaitChain(s: Server, chain: seq<nat>) {
    forall i | 0 <= i < |chain| - 1 :: WaitsFor(s, chain[i], chain[i + 1])
  }

  lemma {:induction false} ChainDescends(s: Server, chain: seq<nat>)
    requires Safe(s) && |chain| > 1 && WaitChain(s, chain)
    ensures Rank(s, chain[|chain| - 1]) < Rank(s, chain[0])
    decreases |chain|
  {
    hide Safe, WaitsFor, Rank;
    WaitDescends(s, chain[0], chain[1]);
    if |chain| > 2 {
      assert forall i | 0 <= i < |chain| - 2 :: WaitsFor(s, chain[1..][i], chain[1..][i + 1]);
      ChainDescends(s, chain[1..]);
    }
  }

  /** In every reachable state the wait-for relation has no cycle. */
  lemma NoWaitCycle(maxClients: nat, acts: seq<Action>, chain: seq<nat>)
    requires Runs(Init(maxClients), acts)
    requires |chain| > 1 && WaitChain(After(Init(maxClients), acts), chain)
    ensures chain[0] != chain[|chain| - 1]
  {
    hide Next, Enabled, Runs, After, WaitChain, Safe, Rank;
    InitSafe(maxClients);
    RunKeepsSafe(Init(maxClients), acts);
    ChainDescends(After(Init(maxClients), acts), chain);
  }

  // ---- progress ----------------------------------------------------------------------------

  ghost predicate CanStep(s: Server, t: nat) {
    exists a :: Internal(a) && Actor(s, a) == t && Enabled(s, a)
  }

  /** Someone inside the server that `t` waits for. */
  ghost predicate WaitsInside(s: Server, t: nat) {
    exists u :: WaitsFor(s, t, u) && !AtRest(PcOf(s, u))
  }

  lemma {:induction false} SomeOrder(names: set<Name>) returns (order: seq<Name>)
    ensures Lists(order, names)
  {
    if n :| n in names {
      var rest := SomeOrder(names - {n});
      order := [n] + rest;
      assert multiset(order) == multiset{n} + multiset(rest);
      assert multiset(names) == multiset{n} + multiset(names - {n});
    } else {
      order := [];
      assert names == {};
    }
  }

  lemma SomeGoodOrder(clients: map<Name, nat>, name: Name, msg: ClientMsg) returns (order: seq<Name>)
    ensures GoodOrder(clients, name, msg, order)
  {
    order := SomeOrder(if msg.ListUsers? then clients.Keys else clients.Keys - {name});
  }

  lemma HeadCanStep(s: Server, t: nat)
    requires t in s.tasks && Queued(s.tasks[t].pc) && Grantable(s, t)
    ensures CanStep(s, t)
  {
    hide Lists;
    var order: seq<Name> := [];
    if s.tasks[t].pc.ReactQueued? {
      order := SomeGoodOrder(s.clients, s.tasks[t].pc.name, s.tasks[t].pc.msg);
    }
    assert Enabled(s, Grant(t, order));
    assert Actor(s, Grant(t, order)) == t;
  }

  lemma QueuedStepsOrWaits(s: Server, t: nat)
    requires QueueInv(s) && MapLockInv(s) && Queued(PcOf(s, t))
    ensures CanStep(s, t) || WaitsInside(s, t)
  {
    hide CanStep;
    assert t in s.queue;
    var i := IndexIn(s.queue, t);
    if i > 0 {
      assert s.queue[0] in s.queue[..i];
      assert WaitsForMap(s, t, s.queue[0]);
      assert Queued(PcOf(s, s.queue[0]));
    } else if s.writer.Some? {
      var u := s.writer.value;
      assert HoldsExclusive(PcOf(s, u));
      assert WaitsForMap(s, t, u);
    } else if Grantable(s, t) {
      HeadCanStep(s, t);
    } else {
      assert s.readers != {};
      var u :| u in s.readers;
      assert HoldsShared(PcOf(s, u));
      assert WaitsForMap(s, t, u);
    }
  }

  /** The action of a task that holds what it needs. */
  function Pending(t: nat, pc: Pc): Action {
    match pc
    case Checking(_) => Check(t)
    case AnswerLocked(_, _) => SendAnswer(t, true)
    case AnswerSent(_, _) => UnlockOwn(t)
    case Inserting(_, _) => Insert(t)
    case Inserted(_) => InsertUnlock(t)
    case Answering(_, _) => LockOwn(t)
    case Reacting(_, plan, k, _, failed) => if failed || k >= |plan| then Finish(t) else LockWriter(t)
    case Locked(_, _, _, _) => SendNext(t, true)
    case Unlocking(_, _, _, _, _) => UnlockWriter(t)
    case Removing(_) => Remove(t)
    case _ => RemoveUnlock(t)
  }

  lemma HolderStepsOrWaits(s: Server, t: nat)
    requires MutexInv(s) && PlansInv(s) && !AtRest(PcOf(s, t)) && !Queued(PcOf(s, t))
    ensures CanStep(s, t) || WaitsInside(s, t)
  {
    hide CanStep, WaitsInside, MutexInv;
    var a := Pending(t, PcOf(s, t));
    assert PlanBounds(PcOf(s, t));
    if Enabled(s, a) {
      assert Internal(a) && Actor(s, a) == t;
      Witness(s, t, a);
    } else {
      var wanted := WantedWriter(t, PcOf(s, t));
      assert wanted.Some? && wanted.value in s.mutexes;
      WriterHolder(s, t, wanted.value);
    }
  }

  lemma Witness(s: Server, t: nat, a: Action)
    requires Internal(a) && Actor(s, a) == t && Enabled(s, a)
    ensures CanStep(s, t)
  {
    hide Enabled, Internal;
  }

  lemma WriterHolder(s: Server, t: nat, w: nat)
    requires MutexInv(s) && WantedWriter(t, PcOf(s, t)) == Some(w) && w in s.mutexes
    ensures WaitsInside(s, t)
  {
    var u := s.mutexes[w];
    assert HeldWriter(u, PcOf(s, u)) == Some(w);
    assert WaitsForWriter(s, t, u);
  }

  /** A task inside the server can step, or waits for a task inside the server that leads to one that can. */
  lemma {:induction false} SomeoneCanStep(s: Server, t: nat) returns (u: nat, chain: seq<nat>)
    requires Safe(s) && !AtRest(PcOf(s, t))
    ensures CanStep(s, u)
    ensures |chain| > 0 && chain[0] == t && chain[|chain| - 1] == u && WaitChain(s, chain)
    decreases Rank(s, t)
  {
    hide QueueInv, MapLockInv, PlansInv, MutexInv, EntriesInv, TargetsInv, CanStep, WaitsFor, Rank, AtRest;
    if Queued(PcOf(s, t)) {
      QueuedStepsOrWaits(s, t);
    } else {
      HolderStepsOrWaits(s, t);
    }
    if CanStep(s, t) {
      u, chain := t, [t];
    } else {
      var v :| WaitsFor(s, t, v) && !AtRest(PcOf(s, v));
      WaitDescends(s, t, v);
      var rest;
      u, rest := SomeoneCanStep(s, v);
      chain := [t] + rest;
      forall i | 0 <= i < |chain| - 1 ensures WaitsFor(s, chain[i], chain[i + 1]) {
        if i > 0 {
          assert WaitsFor(s, rest[i - 1], rest[i]);
        }
      }
    }
  }

  /** No deadlock: in every reachable state with a task inside the server, some such task can step. */
  lemma NoDeadlock(maxClients: nat, acts: seq<Action>, t: nat)
    requires Runs(Init(maxClients), acts) && !AtRest(PcOf(After(Init(maxClients), acts), t))
    ensures exists a :: Internal(a) && Enabled(After(Init(maxClients), acts), a)
  {
    hide Next, Enabled, Runs, After, Safe, AtRest;
    InitSafe(maxClients);
    RunKeepsSafe(Init(maxClients), acts);
    var u, _ := SomeoneCanStep(After(Init(maxClients), acts), t);
  }

  /** A writer is in use only for its own task's answer, or while its task is in the map. */
  lemma WriterInUse(s: Server, w: nat)
    requires MutexInv(s) && PlansInv(s) && EntriesInv(s) && TargetsInv(s) && w in s.mutexes
    ensures PcOf(s, w).AnswerLocked? || PcOf(s, w).AnswerSent? || NameOf(PcOf(s, w)).Some?
  {
    var u := s.mutexes[w];
    var pc := PcOf(s, u);
    assert HeldWriter(u, pc) == Some(w);
    assert PlanBounds(pc) && TargetsListed(s.clients, PlanOf(pc));
    if pc.Locked? || pc.Unlocking? {
      var n :| n in s.clients && s.clients[n] == PlanOf(pc)[pc.k].to;
      assert NameOf(PcOf(s, w)) == Some(n);
    }
  }

  /** A joining task never waits for its own writer: nobody can reach it before it is in the map. */
  lemma OwnWriterIsFree(s: Server, t: nat)
    requires Safe(s) && PcOf(s, t).Answering?
    ensures t !in s.mutexes
  {
    hide QueueInv, MapLockInv, PlansInv, MutexInv, EntriesInv, TargetsInv;
    if t in s.mutexes {
      WriterInUse(s, t);
    }
  }
}
