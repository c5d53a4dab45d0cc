/**
 The server comes to rest: between two moves of its clients it makes only boundedly many
 steps, and it stops only when every task waits for its client or has ended.
 */
module ChatQuiescence {
  import opened Collections
  import opened Options
  import opened ChatServer
  import opened ChatSafety
  import opened ChatRegistry
  import opened ChatLocks

  /** Bounds the steps a task can make on its own, when no reaction sends more than `most`. */
  function PcWork(most: nat, pc: Pc): nat {
    match pc
    case CheckQueued(_) => 8
    case Checking(_) => 7
    case Answering(_, _) => 6
    case AnswerLocked(_, _) => 5
    case AnswerSent(_, _) => 4
    case InsertQueued(_, _) => 3
    case Inserting(_, _) => 2
    case Inserted(_) => 1
    case ReactQueued(_, _) => 5 + 3 * most
    case Reacting(_, plan, k, _, failed) => if failed || k >= |plan| then 4 else 4 + 3 * (|plan| - k)
    case Locked(_, plan, k, _) => if k >= |plan| then 4 else 3 + 3 * (|plan| - k)
    case Unlocking(_, plan, k, _, _) => if k >= |plan| then 4 else 2 + 3 * (|plan| - k)
    case RemoveQueued(_) => 3
    case Removing(_) => 2
    case Removed => 1
    case _ => 0
  }

  ghost function WorkBelow(s: Server, n: nat): nat {
    if n == 0 then 0 else WorkBelow(s, n - 1) + PcWork(s.maxClients, PcOf(s, n - 1))
  }

  ghost function Work(s: Server): nat {
    WorkBelow(s, s.nextId)
  }

  lemma {:induction false} OneTaskWork(s: Server, s': Server, t: nat, n: nat)
    requires OthersStay(s, s', t) && s'.maxClients == s.maxClients
    requires PcWork(s.maxClients, PcOf(s', t)) < PcWork(s.maxClients, PcOf(s, t))
    ensures WorkBelow(s', n) <= WorkBelow(s, n)
    ensures t < n ==> WorkBelow(s', n) < WorkBelow(s, n)
    decreases n
  {
    hide PcWork;
    if n > 0 {
      OneTaskWork(s, s', t, n - 1);
    }
  }

  lemma PlanSize(clients: map<Name, nat>, name: Name, msg: ClientMsg, order: seq<Name>, most: nat)
    requires GoodOrder(clients, name, msg, order) && |clients| <= most && most > 0
    ensures |Plan(clients, name, msg, order)| <= most
  {
    hide Lists;
    if msg.Broadcast? {
      ListedAreMembers(order, clients.Keys - {name});
      KeysSize(clients, name);
    }
  }

  lemma KeysSize(clients: map<Name, nat>, name: Name)
    ensures |clients.Keys - {name}| <= |clients|
  {
    SubsetSize(clients.Keys - {name}, clients.Keys);
    assert |clients| == |clients.Keys|;
  }

  lemma MapIsSmall(s: Server)
    requires EntriesInv(s) && |s.tasks| <= s.maxClients
    ensures |s.clients| <= s.maxClients
  {
    hide EntriesInv;
    forall n | n in s.clients ensures s.clients[n] in s.tasks {
      EntryIsTask(s, n);
    }
    forall n, m | n in s.clients && m in s.clients && s.clients[n] == s.clients[m] ensures n == m {
      OwnersDiffer(s, n, m);
    }
    InjectiveSize(s.clients, s.clients.Keys, s.tasks.Keys);
    assert |s.clients| == |s.clients.Keys| && |s.tasks| == |s.tasks.Keys|;
  }

  lemma EntryIsTask(s: Server, n: Name)
    requires EntriesInv(s) && n in s.clients
    ensures s.clients[n] in s.tasks
  {
    assert NameOf(PcOf(s, s.clients[n])) == Some(n);
  }

  lemma GrantUsesWork(s: Server, a: Action)
    requires EntriesInv(s) && |s.tasks| <= s.maxClients && Enabled(s, a) && a.Grant?
    ensures PcWork(s.maxClients, PcOf(Next(s, a), a.t)) < PcWork(s.maxClients, PcOf(s, a.t))
  {
    hide Plan, EntriesInv;
    MapIsSmall(s);
    SomeTask(s, a.t);
    if s.tasks[a.t].pc.ReactQueued? {
      PlanSize(s.clients, s.tasks[a.t].pc.name, s.tasks[a.t].pc.msg, a.order, s.maxClients);
    }
  }

  lemma SomeTask(s: Server, t: nat)
    requires t in s.tasks
    ensures |s.tasks| > 0
  {
    assert t in s.tasks.Keys && |s.tasks| == |s.tasks.Keys|;
  }

  lemma WriterStepUsesWork(s: Server, a: Action)
    requires PlansInv(s) && Enabled(s, a) && TouchesWriters(a)
    ensures PcWork(s.maxClients, PcOf(Next(s, a), a.t)) < PcWork(s.maxClients, PcOf(s, a.t))
  {
    assert PlanBounds(PcOf(s, a.t));
  }

  lemma OtherStepUsesWork(s: Server, a: Action)
    requires Enabled(s, a) && Internal(a) && !TouchesWriters(a) && !a.Grant?
    ensures PcWork(s.maxClients, PcOf(Next(s, a), a.t)) < PcWork(s.maxClients, PcOf(s, a.t))
  {
    hide Plan, GrantTo;
  }

  /** Every step of the server's own leaves less work. */
  lemma StepUsesWork(s: Server, a: Action)
    requires Safe(s) && Enabled(s, a) && Internal(a)
    ensures Work(Next(s, a)) < Work(s)
  {
    hide Next, Enabled, PcWork, QueueInv, MapLockInv, PlansInv, MutexInv, EntriesInv, TargetsInv;
    if a.Grant? {
      GrantUsesWork(s, a);
    } else if TouchesWriters(a) {
      WriterStepUsesWork(s, a);
    } else {
      OtherStepUsesWork(s, a);
    }
    StepKeys(s, a);
    OnlyActorMoves(s, a);
    ActorExists(s, a);
    OneTaskWork(s, Next(s, a), a.t, s.nextId);
  }

  lemma ActorExists(s: Server, a: Action)
    requires Fresh(s) && Enabled(s, a) && Internal(a)
    ensures a.t < s.nextId && Actor(s, a) == a.t
  {
  }

  ghost predicate AllInternal(acts: seq<Action>) {
    forall a | a in acts :: Internal(a)
  }

  /** A run in which no client moves is no longer than the work it starts with. */
  lemma {:induction false} RunsAreShort(s: Server, acts: seq<Action>)
    requires Safe(s) && Runs(s, acts) && AllInternal(acts)
    ensures |acts| <= Work(s)
    decreases |acts|
  {
    hide Next, Enabled, Safe, Work, Internal;
    if acts != [] {
      StepUsesWork(s, acts[0]);
      StepKeepsSafe(s, acts[0]);
      RunsAreShort(Next(s, acts[0]), acts[1..]);
    }
  }

  /** When the server can do nothing on its own, every task waits for its client or has ended, and every lock is free. */
  lemma RestMeansIdle(s: Server)
    requires Safe(s) && forall a :: Internal(a) ==> !Enabled(s, a)
    ensures forall t :: AtRest(PcOf(s, t))
    ensures s.queue == [] && s.readers == {} && s.writer == None && s.mutexes == map[]
  {
    hide Enabled, Internal, Safe;
    forall t ensures AtRest(PcOf(s, t)) {
      if !AtRest(PcOf(s, t)) {
        var u, chain := SomeoneCanStep(s, t);
      }
    }
    IdleLocks(s);
  }

  lemma IdleLocks(s: Server)
    requires Safe(s) && forall t :: AtRest(PcOf(s, t))
    ensures s.queue == [] && s.readers == {} && s.writer == None && s.mutexes == map[]
  {
    hide PlansInv, EntriesInv, TargetsInv;
    forall t ensures t !in s.queue && t !in s.readers && s.writer != Some(t) {
      assert AtRest(PcOf(s, t));
      assert t in s.queue <==> Queued(PcOf(s, t));
      assert t in s.readers <==> HoldsShared(PcOf(s, t));
    }
    HeadIsMember(s.queue);
    forall w ensures w !in s.mutexes {
      if w in s.mutexes {
        HolderIsBusy(s, w);
      }
    }
  }

  lemma HeadIsMember(queue: seq<nat>)
    ensures queue == [] || queue[0] in queue
  {
  }

  lemma HolderIsBusy(s: Server, w: nat)
    requires MutexInv(s) && w in s.mutexes
    ensures !AtRest(PcOf(s, s.mutexes[w]))
  {
    assert HeldWriter(s.mutexes[w], PcOf(s, s.mutexes[w])) == Some(w);
  }

  /** From every reachable state the server comes to rest on its own. */
  lemma {:induction false} ComesToRest(s: Server) returns (acts: seq<Action>)
    requires Safe(s)
    ensures Runs(s, acts) && AllInternal(acts)
    ensures forall a :: Internal(a) ==> !Enabled(After(s, acts), a)
    decreases Work(s)
  {
    hide Safe, Next, Enabled, Work, Internal;
    if a :| Internal(a) && Enabled(s, a) {
      StepUsesWork(s, a);
      StepKeepsSafe(s, a);
      var rest := ComesToRest(Next(s, a));
      acts := [a] + rest;
      assert acts[1..] == rest;
    } else {
      acts := [];
    }
  }
}
