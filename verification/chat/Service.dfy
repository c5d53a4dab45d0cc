/** What clients are granted: a place while there is one, the map lock in turn, and their own requests. */
module ChatService {
  import opened Collections
  import opened Options
  import opened ChatServer
  import opened ChatSafety
  import opened ChatLocks
  import opened ChatRegistry
  import opened ChatQuiescence
  import opened ChatJoining

  // ---- places ------------------------------------------------------------------------

  function Accepts(n: nat): seq<Action> {
    if n == 0 then [] else [Accept] + Accepts(n - 1)
  }

  lemma AcceptShape(s: Server)
    requires Fresh(s) && |s.tasks| < s.maxClients
    ensures Enabled(s, Accept) && s.nextId !in s.tasks
    ensures var s' := Next(s, Accept);
      Fresh(s') && s'.tasks == s.tasks[s.nextId := Task(Awaiting, 0)] && s'.maxClients == s.maxClients
  {
    hide GrantTo, Plan;
  }

  lemma AcceptOne(s: Server)
    requires Fresh(s) && |s.tasks| < s.maxClients
    ensures Enabled(s, Accept)
    ensures var s' := Next(s, Accept);
      Fresh(s') && |s'.tasks| == |s.tasks| + 1 && s'.maxClients == s.maxClients
  {
    hide Next, Enabled, Fresh;
    AcceptShape(s);
    NewKeySize(s.tasks, s.nextId, Task(Awaiting, 0));
  }

  /** As many connections are taken on as there are places, and no more. */
  lemma {:induction false} PlacesAreFilled(s: Server, n: nat)
    requires Fresh(s) && |s.tasks| <= s.maxClients
    ensures Runs(s, Accepts(n)) <==> |s.tasks| + n <= s.maxClients
    ensures Runs(s, Accepts(n)) ==> |After(s, Accepts(n)).tasks| == |s.tasks| + n
    decreases n
  {
    if n > 0 {
      assert Accepts(n)[1..] == Accepts(n - 1) && Accepts(n)[0] == Accept;
      if |s.tasks| < s.maxClients {
        AcceptOne(s);
        hide Next, Enabled;
        PlacesAreFilled(Next(s, Accept), n - 1);
      }
    }
  }

  /** Reaping a finished task frees its place. */
  lemma ReapingFreesPlace(s: Server, t: nat)
    requires t in s.tasks && |s.tasks| <= s.maxClients
    ensures Enabled(s, Reap(t)) <==> PcOf(s, t).Done?
    ensures Enabled(s, Reap(t)) ==> |Next(s, Reap(t)).tasks| == |s.tasks| - 1 && Enabled(Next(s, Reap(t)), Accept)
  {
    LostKeySize(s.tasks, t);
  }

  // ---- the map lock in turn -----------------------------------------------------------

  /** The task asks for the map lock to write. */
  predicate WantsExclusive(pc: Pc) {
    pc.InsertQueued? || pc.RemoveQueued?
  }

  /**
   The head of the queue can have the map lock if and only if no task is writing, and none
   is reading either when the head wants to write: readers share.
   */
  lemma GrantedIff(s: Server, t: nat)
    requires Safe(s) && s.queue != [] && s.queue[0] == t
    ensures (exists order :: Enabled(s, Grant(t, order))) <==>
      && (forall u :: !HoldsExclusive(PcOf(s, u)))
      && (WantsExclusive(PcOf(s, t)) ==> forall u :: !HoldsShared(PcOf(s, u)))
  {
    hide Lists, PlansInv, MutexInv, EntriesInv, TargetsInv;
    assert t in s.queue;
    assert Queued(PcOf(s, t));
    NobodyWrites(s);
    NobodyReads(s);
    if Grantable(s, t) {
      var order: seq<Name> := [];
      if s.tasks[t].pc.ReactQueued? {
        order := SomeGoodOrder(s.clients, s.tasks[t].pc.name, s.tasks[t].pc.msg);
      }
      assert Enabled(s, Grant(t, order));
    }
  }

  lemma NobodyWrites(s: Server)
    requires MapLockInv(s)
    ensures s.writer.None? <==> forall u :: !HoldsExclusive(PcOf(s, u))
  {
    if s.writer.Some? {
      assert HoldsExclusive(PcOf(s, s.writer.value));
    }
    forall u: nat | s.writer.None? ensures !HoldsExclusive(PcOf(s, u)) {
      assert s.writer != Some(u);
    }
  }

  lemma NobodyReads(s: Server)
    requires MapLockInv(s)
    ensures s.readers == {} <==> forall u :: !HoldsShared(PcOf(s, u))
  {
    if u :| u in s.readers {
      assert HoldsShared(PcOf(s, u));
    } else {
      forall u ensures !HoldsShared(PcOf(s, u)) {
        assert u !in s.readers;
      }
    }
  }

  // ---- requests -------------------------------------------------------------------------

  lemma RequestQueues(s: Server, t: nat, msg: ClientMsg)
    requires Enabled(s, Request(t, msg))
    ensures PcOf(s, t).Serving? && PcOf(Next(s, Request(t, msg)), t) == ReactQueued(PcOf(s, t).name, msg)
  {
  }

  /** A new client's first message is always heard, whatever it is. */
  lemma NewcomerIsHeard(s: Server, t: nat, name: Name, cause: Cause)
    requires t in s.tasks
    ensures Enabled(s, FirstJoin(t, name)) <==> s.tasks[t].pc.Awaiting?
    ensures Enabled(s, FirstWrong(t, cause)) <==> s.tasks[t].pc.Awaiting?
    ensures Enabled(s, FirstError(t)) <==> s.tasks[t].pc.Awaiting?
  {
  }

  /** A served client can always be heard, and can always leave. */
  lemma ServedIsHeard(s: Server, t: nat, msg: ClientMsg)
    ensures Enabled(s, Request(t, msg)) <==> PcOf(s, t).Serving?
    ensures Enabled(s, Leave(t)) <==> PcOf(s, t).Serving?
    ensures Enabled(s, Leave(t)) ==> PcOf(Next(s, Leave(t)), t) == RemoveQueued(PcOf(s, t).name)
  {
  }

  /** The request waits for the map lock as it came. */
  lemma {:induction false} RequestKept(s: Server, acts: seq<Action>, t: nat, name: Name, msg: ClientMsg)
    requires Safe(s) && Runs(s, acts) && PcOf(s, t) == ReactQueued(name, msg)
    requires forall a | a in acts :: !(a.Grant? && a.t == t)
    ensures PcOf(After(s, acts), t) == ReactQueued(name, msg)
    decreases |acts|
  {
    hide Next, Enabled, QueueInv, MapLockInv, PlansInv, MutexInv, EntriesInv, TargetsInv;
    if acts != [] {
      var a := acts[0];
      OnlyActorMoves(s, a);
      NewcomerIsNew(s, t);
      if Actor(s, a) == t {
        QueuedWaitsForGrant(s, a);
      }
      StepKeepsSafe(s, a);
      RequestKept(Next(s, a), acts[1..], t, name, msg);
    }
  }

  // ---- leaving --------------------------------------------------------------------------

  lemma StillLeaving(s: Server, a: Action)
    requires Enabled(s, a) && !a.Accept? && Leaving(PcOf(s, a.t))
    ensures if a.Remove? then Gone(PcOf(Next(s, a), a.t)) else Leaving(PcOf(Next(s, a), a.t))
  {
  }

  lemma LeaverIsOld(s: Server, t: nat)
    requires Fresh(s) && Leaving(PcOf(s, t))
    ensures t < s.nextId
  {
  }

  lemma {:induction false} LeavesOrWaits(s: Server, acts: seq<Action>, t: nat)
    requires Safe(s) && Runs(s, acts) && Leaving(PcOf(s, t))
    ensures if Remove(t) in acts then Gone(PcOf(After(s, acts), t)) else Leaving(PcOf(After(s, acts), t))
    decreases |acts|
  {
    hide Next, Enabled, Leaving, Gone, QueueInv, MapLockInv, PlansInv, MutexInv, EntriesInv, TargetsInv;
    if acts != [] {
      var a := acts[0];
      LeaverIsOld(s, t);
      StepKeys(s, a);
      OnlyActorMoves(s, a);
      if Actor(s, a) == t {
        StillLeaving(s, a);
      }
      StepKeepsSafe(s, a);
      assert acts == [a] + acts[1..];
      if a == Remove(t) {
        GoneForGood(Next(s, a), acts[1..], t);
      } else {
        LeavesOrWaits(Next(s, a), acts[1..], t);
      }
    }
  }

  lemma NotLeavingAtRest(pc: Pc)
    requires AtRest(pc)
    ensures !Leaving(pc)
  {
  }

  lemma NothingOwned(s: Server, t: nat)
    requires EntriesInv(s) && PcOf(s, t) == Done
    ensures forall n | n in s.clients :: s.clients[n] != t
  {
  }

  /** A client that is leaving has removed its name once the server is at rest, is done, and owns no entry. */
  lemma LeaverIsRemoved(s: Server, acts: seq<Action>, t: nat)
    requires Safe(s) && Leaving(PcOf(s, t)) && Runs(s, acts) && Quiet(After(s, acts))
    ensures Remove(t) in acts && PcOf(After(s, acts), t) == Done
    ensures forall n | n in After(s, acts).clients :: After(s, acts).clients[n] != t
  {
    hide Runs, After, Leaving, Gone, AtRest, QueueInv, MapLockInv, PlansInv, MutexInv, EntriesInv, TargetsInv;
    LeavesOrWaits(s, acts, t);
    RunKeepsSafe(s, acts);
    RestMeansIdle(After(s, acts));
    NotLeavingAtRest(PcOf(After(s, acts), t));
    AtRestPlaces(PcOf(After(s, acts), t), "");
    NothingOwned(After(s, acts), t);
  }
}
