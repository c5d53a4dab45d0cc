/**
 What every reachable state of the server keeps: the locks mean what they should,
 and the map lists only clients that inserted themselves and have not left yet.
 */
module ChatSafety {
  import opened Collections
  import opened Options
  import opened ChatServer

  /** Where `t` is; a task not in the set is as good as done. */
  ghost function PcOf(s: Server, t: nat): Pc {
    if t in s.tasks then s.tasks[t].pc else Done
  }

  ghost function ReqsOf(s: Server, t: nat): nat {
    if t in s.tasks then s.tasks[t].reqs else 0
  }

  /** The one task an action moves. */
  ghost function Actor(s: Server, a: Action): nat {
    if a.Accept? then s.nextId else a.t
  }

  lemma GrantFrame(s: Server, t: nat, order: seq<Name>)
    requires Enabled(s, Grant(t, order))
    ensures var s' := GrantTo(s, t, order);
      && (forall u :: u in s'.tasks <==> u in s.tasks)
      && (forall u | u in s.tasks && u != t :: s'.tasks[u] == s.tasks[u])
      && s'.clients == s.clients && s'.mutexes == s.mutexes && s'.inserts == s.inserts && s'.log == s.log
      && s'.nextId == s.nextId && s'.maxClients == s.maxClients
      && s'.queue == s.queue[1..] && s.queue[0] == t
  {
    hide Plan;
  }

  lemma GrantMoves(s: Server, t: nat, order: seq<Name>)
    requires Enabled(s, Grant(t, order))
    ensures var p, p' := s.tasks[t].pc, PcOf(GrantTo(s, t, order), t);
      && !Queued(p') && NameOf(p') == NameOf(p) && PlanBounds(p')
      && HeldWriter(t, p') == None && HeldWriter(t, p) == None
  {
    hide Plan;
  }

  /** A grant touches the queue, the lock and the task it goes to, and nothing else. */
  lemma GrantFacts(s: Server, t: nat, order: seq<Name>)
    requires Enabled(s, Grant(t, order))
    ensures var s' := GrantTo(s, t, order);
      && (forall u :: u in s'.tasks <==> u in s.tasks)
      && (forall u | u in s.tasks && u != t :: s'.tasks[u] == s.tasks[u])
      && s'.clients == s.clients && s'.mutexes == s.mutexes && s'.inserts == s.inserts && s'.log == s.log
      && s'.nextId == s.nextId && s'.maxClients == s.maxClients
      && s'.queue == s.queue[1..] && s.queue[0] == t
      && !Queued(s'.tasks[t].pc)
      && NameOf(s'.tasks[t].pc) == NameOf(s.tasks[t].pc)
      && HeldWriter(t, s'.tasks[t].pc) == None && HeldWriter(t, s.tasks[t].pc) == None
      && PlanBounds(s'.tasks[t].pc)
  {
    hide Plan, GrantTo, PlanBounds, HeldWriter, NameOf;
    GrantFrame(s, t, order);
    GrantMoves(s, t, order);
  }

  lemma WriterStepMovesActor(s: Server, a: Action)
    requires Enabled(s, a) && TouchesWriters(a)
    ensures forall u | u != a.t :: PcOf(Next(s, a), u) == PcOf(s, u) && ReqsOf(Next(s, a), u) == ReqsOf(s, u)
  {
  }

  lemma OtherStepMovesActor(s: Server, a: Action)
    requires Enabled(s, a) && !TouchesWriters(a) && !a.Grant?
    ensures forall u | u != Actor(s, a) :: PcOf(Next(s, a), u) == PcOf(s, u) && ReqsOf(Next(s, a), u) == ReqsOf(s, u)
  {
    hide GrantTo;
  }

  lemma GrantMovesActor(s: Server, a: Action)
    requires Enabled(s, a) && a.Grant?
    ensures forall u | u != a.t :: PcOf(Next(s, a), u) == PcOf(s, u) && ReqsOf(Next(s, a), u) == ReqsOf(s, u)
  {
    hide Plan, GrantTo;
    GrantFrame(s, a.t, a.order);
  }

  lemma OnlyActorMoves(s: Server, a: Action)
    requires Enabled(s, a)
    ensures forall u | u != Actor(s, a) :: PcOf(Next(s, a), u) == PcOf(s, u) && ReqsOf(Next(s, a), u) == ReqsOf(s, u)
  {
    hide Next, Enabled;
    if a.Grant? {
      GrantMovesActor(s, a);
    } else if TouchesWriters(a) {
      WriterStepMovesActor(s, a);
    } else {
      OtherStepMovesActor(s, a);
    }
  }

  ghost predicate OthersStay(s: Server, s': Server, t: nat) {
    forall u | u != t :: PcOf(s', u) == PcOf(s, u)
  }

  // ---- the queue of the map lock --------------------------------------------------

  /** The queue holds exactly the tasks waiting for the map lock, once each. */
  ghost predicate QueueInv(s: Server) {
    && (forall i, j | 0 <= i < j < |s.queue| :: s.queue[i] != s.queue[j])
    && (forall t :: t in s.queue <==> Queued(PcOf(s, t)))
  }

  ghost predicate QueueEffect(s: Server, s': Server, t: nat) {
    if Queued(PcOf(s, t)) then
      s.queue != [] && s.queue[0] == t && s'.queue == s.queue[1..] && !Queued(PcOf(s', t))
    else if Queued(PcOf(s', t)) then s'.queue == s.queue + [t]
    else s'.queue == s.queue
  }

  lemma GrantQueueEffect(s: Server, a: Action)
    requires Enabled(s, a) && a.Grant?
    ensures QueueEffect(s, Next(s, a), a.t)
  {
    hide Plan, GrantTo;
    GrantFacts(s, a.t, a.order);
  }

  lemma WriterStepQueueEffect(s: Server, a: Action)
    requires Enabled(s, a) && TouchesWriters(a)
    ensures QueueEffect(s, Next(s, a), a.t)
  {
  }

  lemma OtherStepQueueEffect(s: Server, a: Action)
    requires Fresh(s) && Enabled(s, a) && !TouchesWriters(a) && !a.Grant?
    ensures QueueEffect(s, Next(s, a), Actor(s, a))
  {
    hide GrantTo;
  }

  lemma StepQueueEffect(s: Server, a: Action)
    requires Fresh(s) && Enabled(s, a)
    ensures QueueEffect(s, Next(s, a), Actor(s, a))
  {
    hide Next, Enabled, QueueEffect;
    if a.Grant? {
      GrantQueueEffect(s, a);
    } else if TouchesWriters(a) {
      WriterStepQueueEffect(s, a);
    } else {
      OtherStepQueueEffect(s, a);
    }
  }

  lemma QueueEffectKeeps(s: Server, s': Server, t: nat)
    requires QueueInv(s) && OthersStay(s, s', t) && QueueEffect(s, s', t)
    ensures QueueInv(s')
  {
    if Queued(PcOf(s, t)) {
      assert s.queue == [t] + s'.queue;
    }
    forall u ensures u in s'.queue <==> Queued(PcOf(s', u)) {
      assert u in s.queue <==> Queued(PcOf(s, u));
    }
  }

  // ---- the map lock -----------------------------------------------------------------

  /** The map lock is held by whoever is where it is needed: many readers or one writer. */
  ghost predicate MapLockInv(s: Server) {
    && (forall t :: t in s.readers <==> HoldsShared(PcOf(s, t)))
    && (forall t: nat :: s.writer == Some(t) <==> HoldsExclusive(PcOf(s, t)))
    && (s.writer.Some? ==> s.readers == {})
  }

  ghost predicate MapLockEffect(s: Server, s': Server, t: nat) {
    var p, p' := PcOf(s, t), PcOf(s', t);
    && s'.readers == (if HoldsShared(p') then s.readers + {t} else s.readers - {t})
    && s'.writer == (if HoldsExclusive(p') then Some(t) else if HoldsExclusive(p) then None else s.writer)
    && (HoldsShared(p') && !HoldsShared(p) ==> s.writer.None?)
    && (HoldsExclusive(p') && !HoldsExclusive(p) ==> s.writer.None? && s.readers == {})
  }

  predicate TouchesMapLock(a: Action) {
    a.Grant? || a.Check? || a.InsertUnlock? || a.Finish? || a.RemoveUnlock?
  }

  lemma GrantEffect(s: Server, t: nat, order: seq<Name>)
    requires MapLockInv(s) && Enabled(s, Grant(t, order))
    ensures MapLockEffect(s, GrantTo(s, t, order), t)
  {
    hide Plan;
    assert t in s.readers <==> HoldsShared(PcOf(s, t));
    match s.tasks[t].pc
    case CheckQueued(_) =>
    case InsertQueued(_, _) =>
    case RemoveQueued(_) =>
    case ReactQueued(_, _) =>
  }

  lemma ReleaseSharedEffect(s: Server, a: Action)
    requires MapLockInv(s) && Enabled(s, a) && (a.Check? || a.Finish?)
    ensures MapLockEffect(s, Next(s, a), a.t)
  {
    assert a.t in s.readers <==> HoldsShared(PcOf(s, a.t));
  }

  lemma ReleaseExclusiveEffect(s: Server, a: Action)
    requires MapLockInv(s) && Enabled(s, a) && (a.InsertUnlock? || a.RemoveUnlock?)
    ensures MapLockEffect(s, Next(s, a), a.t)
  {
    assert a.t in s.readers <==> HoldsShared(PcOf(s, a.t));
  }

  lemma GrantStepEffect(s: Server, a: Action)
    requires MapLockInv(s) && Enabled(s, a) && a.Grant?
    ensures MapLockEffect(s, Next(s, a), a.t)
  {
    hide GrantTo, MapLockInv, MapLockEffect;
    GrantEffect(s, a.t, a.order);
  }

  lemma MapLockStepEffect(s: Server, a: Action)
    requires MapLockInv(s) && Enabled(s, a) && TouchesMapLock(a)
    ensures MapLockEffect(s, Next(s, a), a.t)
  {
    hide Next, Enabled, MapLockInv, MapLockEffect;
    if a.Grant? {
      GrantStepEffect(s, a);
    } else if a.Check? || a.Finish? {
      ReleaseSharedEffect(s, a);
    } else {
      ReleaseExclusiveEffect(s, a);
    }
  }

  predicate SameLocks(p: Pc, p': Pc) {
    HoldsShared(p') == HoldsShared(p) && HoldsExclusive(p') == HoldsExclusive(p)
  }

  lemma WriterStepLocks(s: Server, a: Action)
    requires Enabled(s, a) && TouchesWriters(a)
    ensures Next(s, a).readers == s.readers && Next(s, a).writer == s.writer
    ensures SameLocks(PcOf(s, a.t), PcOf(Next(s, a), a.t))
  {
  }

  lemma QuietStepLocks(s: Server, a: Action)
    requires Fresh(s) && Enabled(s, a) && !TouchesMapLock(a) && !TouchesWriters(a)
    ensures Next(s, a).readers == s.readers && Next(s, a).writer == s.writer
    ensures SameLocks(PcOf(s, Actor(s, a)), PcOf(Next(s, a), Actor(s, a)))
  {
    hide GrantTo;
  }

  lemma OtherMapLockEffect(s: Server, a: Action)
    requires Fresh(s) && MapLockInv(s) && Enabled(s, a) && !TouchesMapLock(a)
    ensures MapLockEffect(s, Next(s, a), Actor(s, a))
  {
    hide Plan, Next, Enabled;
    if TouchesWriters(a) {
      WriterStepLocks(s, a);
    } else {
      QuietStepLocks(s, a);
    }
    var t := Actor(s, a);
    assert t in s.readers <==> HoldsShared(PcOf(s, t));
    assert s.writer == Some(t) <==> HoldsExclusive(PcOf(s, t));
  }

  lemma StepMapLockEffect(s: Server, a: Action)
    requires Fresh(s) && MapLockInv(s) && Enabled(s, a)
    ensures MapLockEffect(s, Next(s, a), Actor(s, a))
  {
    hide Plan, GrantTo, Next;
    if TouchesMapLock(a) {
      MapLockStepEffect(s, a);
    } else {
      OtherMapLockEffect(s, a);
    }
  }

  lemma MapLockEffectKeeps(s: Server, s': Server, t: nat)
    requires MapLockInv(s) && OthersStay(s, s', t) && MapLockEffect(s, s', t)
    ensures MapLockInv(s')
  {
    forall u ensures u in s'.readers <==> HoldsShared(PcOf(s', u)) {
      assert u in s.readers <==> HoldsShared(PcOf(s, u));
    }
    forall u: nat ensures s'.writer == Some(u) <==> HoldsExclusive(PcOf(s', u)) {
      assert s.writer == Some(u) <==> HoldsExclusive(PcOf(s, u));
      assert s.writer == Some(t) <==> HoldsExclusive(PcOf(s, t));
    }
  }

  // ---- the writers' mutexes ------------------------------------------------------------

  ghost predicate PlanBounds(pc: Pc) {
    && (pc.Reacting? ==> pc.k <= |pc.plan| && (pc.failed ==> pc.k < |pc.plan|))
    && (pc.Locked? ==> pc.k < |pc.plan|)
    && (pc.Unlocking? ==> pc.k < |pc.plan|)
  }

  ghost predicate PlansInv(s: Server) {
    forall t :: PlanBounds(PcOf(s, t))
  }

  /** A writer's mutex is held exactly by the one task that is sending to it. */
  ghost predicate MutexInv(s: Server) {
    forall t, w :: HeldWriter(t, PcOf(s, t)) == Some(w) <==> w in s.mutexes && s.mutexes[w] == t
  }

  ghost predicate MutexEffect(s: Server, s': Server, t: nat) {
    var h, h' := HeldWriter(t, PcOf(s, t)), HeldWriter(t, PcOf(s', t));
    if h == h' then s'.mutexes == s.mutexes
    else if h.None? then h'.value !in s.mutexes && s'.mutexes == s.mutexes[h'.value := t]
    else h'.None? && s'.mutexes == s.mutexes - {h.value}
  }

  lemma WriterStepKeepsPlans(s: Server, a: Action)
    requires PlansInv(s) && Enabled(s, a) && TouchesWriters(a)
    ensures PlanBounds(PcOf(Next(s, a), a.t))
  {
    assert PlanBounds(PcOf(s, a.t));
  }

  lemma OtherStepKeepsPlans(s: Server, a: Action)
    requires Enabled(s, a) && !TouchesWriters(a)
    ensures PlanBounds(PcOf(Next(s, a), Actor(s, a)))
  {
    hide Plan, GrantTo;
    if a.Grant? {
      GrantFacts(s, a.t, a.order);
    }
  }

  lemma StepKeepsPlans(s: Server, a: Action)
    requires PlansInv(s) && Enabled(s, a)
    ensures PlanBounds(PcOf(Next(s, a), Actor(s, a)))
  {
    hide Next, Enabled, PlanBounds;
    if TouchesWriters(a) {
      WriterStepKeepsPlans(s, a);
    } else {
      OtherStepKeepsPlans(s, a);
    }
  }

  predicate TouchesWriters(a: Action) {
    a.LockOwn? || a.SendAnswer? || a.UnlockOwn? || a.LockWriter? || a.SendNext? || a.UnlockWriter?
  }

  lemma OwnWriterEffect(s: Server, a: Action)
    requires Enabled(s, a) && (a.LockOwn? || a.SendAnswer? || a.UnlockOwn?)
    ensures MutexEffect(s, Next(s, a), a.t)
  {
  }

  lemma LockWriterEffect(s: Server, a: Action)
    requires Enabled(s, a) && a.LockWriter?
    ensures MutexEffect(s, Next(s, a), a.t)
  {
  }

  lemma PlanWriterEffect(s: Server, a: Action)
    requires Enabled(s, a) && (a.SendNext? || a.UnlockWriter?)
    ensures MutexEffect(s, Next(s, a), a.t)
  {
  }

  lemma WriterStepEffect(s: Server, a: Action)
    requires Enabled(s, a) && TouchesWriters(a)
    ensures MutexEffect(s, Next(s, a), a.t)
  {
    hide Next, Enabled, MutexEffect;
    match a
    case LockWriter(_) => LockWriterEffect(s, a);
    case SendNext(_, _) => PlanWriterEffect(s, a);
    case UnlockWriter(_) => PlanWriterEffect(s, a);
    case _ => OwnWriterEffect(s, a);
  }

  lemma GrantKeepsMutexes(s: Server, a: Action)
    requires Enabled(s, a) && a.Grant?
    ensures MutexEffect(s, Next(s, a), a.t)
  {
    hide Plan, GrantTo;
    GrantFacts(s, a.t, a.order);
  }

  predicate Enqueues(a: Action) {
    a.FirstJoin? || a.Request? || a.Leave? || a.Finish?
  }

  lemma QueueingStepEffect(s: Server, a: Action)
    requires Enabled(s, a) && Enqueues(a)
    ensures MutexEffect(s, Next(s, a), a.t)
  {
    hide Plan, GrantTo;
  }

  lemma OtherStepEffect(s: Server, a: Action)
    requires Fresh(s) && Enabled(s, a) && !TouchesWriters(a) && !Enqueues(a) && !a.Grant?
    ensures MutexEffect(s, Next(s, a), Actor(s, a))
  {
    hide Plan, GrantTo;
  }

  lemma StepMutexEffect(s: Server, a: Action)
    requires Fresh(s) && Enabled(s, a)
    ensures MutexEffect(s, Next(s, a), Actor(s, a))
  {
    hide Next, Enabled, MutexEffect;
    if TouchesWriters(a) {
      WriterStepEffect(s, a);
    } else if a.Grant? {
      GrantKeepsMutexes(s, a);
    } else if Enqueues(a) {
      QueueingStepEffect(s, a);
    } else {
      OtherStepEffect(s, a);
    }
  }

  lemma MutexEffectKeeps(s: Server, s': Server, t: nat)
    requires MutexInv(s) && OthersStay(s, s', t) && MutexEffect(s, s', t)
    ensures MutexInv(s')
  {
    forall u, w ensures HeldWriter(u, PcOf(s', u)) == Some(w) <==> w in s'.mutexes && s'.mutexes[w] == u {
      assert HeldWriter(u, PcOf(s, u)) == Some(w) <==> w in s.mutexes && s.mutexes[w] == u;
      assert HeldWriter(t, PcOf(s, t)) == Some(w) <==> w in s.mutexes && s.mutexes[w] == t;
    }
  }

  // ---- the map ----------------------------------------------------------------------

  /** The name a task has in the map, from its insertion to its removal. */
  function NameOf(pc: Pc): Option<Name> {
    match pc
    case Inserted(name) => Some(name)
    case Serving(name) => Some(name)
    case ReactQueued(name, _) => Some(name)
    case Reacting(name, _, _, _, _) => Some(name)
    case Locked(name, _, _, _) => Some(name)
    case Unlocking(name, _, _, _, _) => Some(name)
    case RemoveQueued(name) => Some(name)
    case Removing(name) => Some(name)
    case _ => None
  }

  /** Every entry belongs to a task that inserted it and has not yet removed its name. */
  ghost predicate EntriesInv(s: Server) {
    forall n | n in s.clients :: NameOf(PcOf(s, s.clients[n])) == Some(n)
  }

  ghost predicate EntriesEffect(s: Server, s': Server, t: nat) {
    var n, n' := NameOf(PcOf(s, t)), NameOf(PcOf(s', t));
    if n == n' then s'.clients == s.clients
    else if n.None? then s'.clients == s.clients[n'.value := t]
    else n'.None? && s'.clients == s.clients - {n.value}
  }

  lemma OwnWriterKeepsEntries(s: Server, a: Action)
    requires Enabled(s, a) && (a.LockOwn? || a.SendAnswer? || a.UnlockOwn?)
    ensures EntriesEffect(s, Next(s, a), a.t)
  {
  }

  lemma PlanWriterKeepsEntries(s: Server, a: Action)
    requires Enabled(s, a) && (a.LockWriter? || a.SendNext? || a.UnlockWriter?)
    ensures EntriesEffect(s, Next(s, a), a.t)
  {
  }

  lemma WriterStepKeepsEntries(s: Server, a: Action)
    requires Enabled(s, a) && TouchesWriters(a)
    ensures EntriesEffect(s, Next(s, a), a.t)
  {
    hide Next, Enabled, EntriesEffect;
    if a.LockOwn? || a.SendAnswer? || a.UnlockOwn? {
      OwnWriterKeepsEntries(s, a);
    } else {
      PlanWriterKeepsEntries(s, a);
    }
  }

  lemma GrantKeepsEntries(s: Server, a: Action)
    requires Enabled(s, a) && a.Grant?
    ensures EntriesEffect(s, Next(s, a), a.t)
  {
    hide Plan, GrantTo;
    GrantFacts(s, a.t, a.order);
  }

  lemma QueueingStepEntries(s: Server, a: Action)
    requires Enabled(s, a) && Enqueues(a)
    ensures EntriesEffect(s, Next(s, a), a.t)
  {
    hide Plan, GrantTo;
  }

  lemma OtherStepEntries(s: Server, a: Action)
    requires Fresh(s) && Enabled(s, a) && !TouchesWriters(a) && !Enqueues(a) && !a.Grant?
    ensures EntriesEffect(s, Next(s, a), Actor(s, a))
  {
    hide Plan, GrantTo;
  }

  lemma StepEntriesEffect(s: Server, a: Action)
    requires Fresh(s) && Enabled(s, a)
    ensures EntriesEffect(s, Next(s, a), Actor(s, a))
  {
    hide Next, Enabled, EntriesEffect;
    if TouchesWriters(a) {
      WriterStepKeepsEntries(s, a);
    } else if a.Grant? {
      GrantKeepsEntries(s, a);
    } else if Enqueues(a) {
      QueueingStepEntries(s, a);
    } else {
      OtherStepEntries(s, a);
    }
  }

  lemma EntriesEffectKeeps(s: Server, s': Server, t: nat)
    requires EntriesInv(s) && OthersStay(s, s', t) && EntriesEffect(s, s', t)
    ensures EntriesInv(s')
  {
    forall n | n in s'.clients ensures NameOf(PcOf(s', s'.clients[n])) == Some(n) {
    }
  }

  // ---- the sends of a running reaction --------------------------------------------------

  function PlanOf(pc: Pc): seq<Sending> {
    match pc
    case Reacting(_, plan, _, _, _) => plan
    case Locked(_, plan, _, _) => plan
    case Unlocking(_, plan, _, _, _) => plan
    case _ => []
  }

  /** Every writer a plan sends to is in the map. */
  ghost predicate TargetsListed(clients: map<Name, nat>, plan: seq<Sending>) {
    forall i | 0 <= i < |plan| :: exists n :: n in clients && clients[n] == plan[i].to
  }

  /** While a reaction runs, every writer it sends to stays in the map. */
  ghost predicate TargetsInv(s: Server) {
    forall t :: TargetsListed(s.clients, PlanOf(PcOf(s, t)))
  }

  lemma PlanListed(clients: map<Name, nat>, name: Name, msg: ClientMsg, order: seq<Name>)
    requires GoodOrder(clients, name, msg, order)
    ensures TargetsListed(clients, Plan(clients, name, msg, order))
  {
    var plan := Plan(clients, name, msg, order);
    if msg.Broadcast? {
      ListedAreMembers(order, clients.Keys - {name});
      forall i | 0 <= i < |plan| ensures exists n :: n in clients && clients[n] == plan[i].to {
        assert order[i] in order;
      }
    }
  }

  ghost predicate PlanEffect(s: Server, s': Server, t: nat) {
    PlanOf(PcOf(s', t)) == PlanOf(PcOf(s, t)) || TargetsListed(s.clients, PlanOf(PcOf(s', t)))
  }

  lemma NoPlanTargets(clients: map<Name, nat>)
    ensures TargetsListed(clients, [])
  {
  }

  lemma GrantPlanEffect(s: Server, a: Action)
    requires Enabled(s, a) && a.Grant?
    ensures PlanEffect(s, Next(s, a), a.t)
  {
    if s.tasks[a.t].pc.ReactQueued? {
      PlanListed(s.clients, s.tasks[a.t].pc.name, s.tasks[a.t].pc.msg, a.order);
    }
    hide Plan, TargetsListed;
  }

  lemma WriterStepPlanEffect(s: Server, a: Action)
    requires Enabled(s, a) && TouchesWriters(a)
    ensures PlanEffect(s, Next(s, a), a.t)
  {
    hide TargetsListed;
  }

  lemma OtherStepPlanEffect(s: Server, a: Action)
    requires Fresh(s) && Enabled(s, a) && !TouchesWriters(a) && !a.Grant?
    ensures PlanEffect(s, Next(s, a), Actor(s, a))
  {
    hide GrantTo, TargetsListed;
    NoPlanTargets(s.clients);
  }

  lemma StepPlanEffect(s: Server, a: Action)
    requires Fresh(s) && Enabled(s, a)
    ensures PlanEffect(s, Next(s, a), Actor(s, a))
  {
    hide Next, Enabled, PlanEffect;
    if a.Grant? {
      GrantPlanEffect(s, a);
    } else if TouchesWriters(a) {
      WriterStepPlanEffect(s, a);
    } else {
      OtherStepPlanEffect(s, a);
    }
  }

  lemma QuietStepKeepsMap(s: Server, a: Action)
    requires Enabled(s, a) && !a.Insert? && !a.Remove? && !a.Grant?
    ensures Next(s, a).clients == s.clients
  {
    hide GrantTo;
  }

  lemma GrantKeepsMap(s: Server, a: Action)
    requires Enabled(s, a) && a.Grant?
    ensures Next(s, a).clients == s.clients
  {
    hide Plan, GrantTo;
    GrantFrame(s, a.t, a.order);
  }

  lemma MapWriterIsAlone(s: Server, a: Action)
    requires Enabled(s, a) && (a.Insert? || a.Remove?)
    ensures HoldsExclusive(PcOf(s, a.t)) && PlanOf(PcOf(Next(s, a), a.t)) == []
  {
  }

  lemma MapChangesAlone(s: Server, a: Action)
    requires Fresh(s) && Enabled(s, a)
    ensures Next(s, a).clients == s.clients
         || (HoldsExclusive(PcOf(s, Actor(s, a))) && PlanOf(PcOf(Next(s, a), Actor(s, a))) == [])
  {
    hide Next, Enabled, PlanOf, HoldsExclusive;
    if a.Grant? {
      GrantKeepsMap(s, a);
    } else if a.Insert? || a.Remove? {
      MapWriterIsAlone(s, a);
    } else {
      QuietStepKeepsMap(s, a);
    }
  }

  /** The map changes only while no reaction runs. */
  lemma StepKeepsTargets(s: Server, a: Action)
    requires Fresh(s) && MapLockInv(s) && TargetsInv(s) && Enabled(s, a)
    ensures TargetsInv(Next(s, a))
  {
    hide Plan, Next, Enabled, HoldsExclusive, TargetsListed;
    var s', t := Next(s, a), Actor(s, a);
    OnlyActorMoves(s, a);
    StepPlanEffect(s, a);
    MapChangesAlone(s, a);
    if s'.clients != s.clients {
      assert s.writer == Some(t);
      NoPlanTargets(s'.clients);
      forall u ensures PlanOf(PcOf(s', u)) == [] {
        assert u in s.readers <==> HoldsShared(PcOf(s, u));
      }
    } else {
      forall u ensures TargetsListed(s'.clients, PlanOf(PcOf(s', u))) {
        assert TargetsListed(s.clients, PlanOf(PcOf(s, u)));
      }
    }
  }

  // ---- all of it -------------------------------------------------------------------------

  ghost predicate Fresh(s: Server) {
    forall t | t in s.tasks :: t < s.nextId
  }

  ghost predicate Safe(s: Server) {
    && Fresh(s) && |s.tasks| <= s.maxClients
    && QueueInv(s) && MapLockInv(s) && PlansInv(s) && MutexInv(s) && EntriesInv(s) && TargetsInv(s)
  }

  lemma InitSafe(maxClients: nat)
    ensures Safe(Init(maxClients))
  {
  }

  lemma StepKeys(s: Server, a: Action)
    requires Fresh(s) && Enabled(s, a)
    ensures Next(s, a).maxClients == s.maxClients
    ensures Next(s, a).nextId == s.nextId + (if a.Accept? then 1 else 0)
    ensures forall u :: u in Next(s, a).tasks <==>
      (u in s.tasks && a != Reap(u)) || (a.Accept? && u == s.nextId)
  {
    hide Plan, GrantTo;
    if a.Grant? {
      GrantFacts(s, a.t, a.order);
    }
  }

  lemma SizeGrows(a: set<nat>, b: set<nat>, x: nat)
    requires forall u :: u in b <==> u in a || u == x
    ensures |b| <= |a| + 1
  {
    assert b == a + {x};
  }

  lemma StepKeepsSize(s: Server, a: Action)
    requires Fresh(s) && |s.tasks| <= s.maxClients && Enabled(s, a)
    ensures Fresh(Next(s, a)) && |Next(s, a).tasks| <= Next(s, a).maxClients
  {
    hide Plan, Next;
    StepKeys(s, a);
    var s' := Next(s, a);
    assert |s.tasks| == |s.tasks.Keys| && |s'.tasks| == |s'.tasks.Keys|;
    if a.Accept? {
      SizeGrows(s.tasks.Keys, s'.tasks.Keys, s.nextId);
    } else {
      SubsetSize(s'.tasks.Keys, s.tasks.Keys);
    }
  }

  lemma StepKeepsSafe(s: Server, a: Action)
    requires Safe(s) && Enabled(s, a)
    ensures Safe(Next(s, a))
  {
    hide Plan, Next, Enabled, QueueInv, MapLockInv, MutexInv, EntriesInv, TargetsInv, PlanBounds;
    hide QueueEffect, MapLockEffect, MutexEffect, EntriesEffect, Fresh;
    var s', t := Next(s, a), Actor(s, a);
    StepKeepsSize(s, a);
    OnlyActorMoves(s, a);
    StepQueueEffect(s, a);
    QueueEffectKeeps(s, s', t);
    StepMapLockEffect(s, a);
    MapLockEffectKeeps(s, s', t);
    StepKeepsPlans(s, a);
    StepMutexEffect(s, a);
    MutexEffectKeeps(s, s', t);
    StepEntriesEffect(s, a);
    EntriesEffectKeeps(s, s', t);
    StepKeepsTargets(s, a);
    forall u ensures PlanBounds(PcOf(s', u)) {
      assert PlanBounds(PcOf(s, u));
    }
  }

  lemma {:induction false} RunKeepsSafe(s: Server, acts: seq<Action>)
    requires Safe(s) && Runs(s, acts)
    ensures Safe(After(s, acts))
    decreases |acts|
  {
    hide Safe, Next, Enabled;
    if acts != [] {
      StepKeepsSafe(s, acts[0]);
      RunKeepsSafe(Next(s, acts[0]), acts[1..]);
    }
  }
}
