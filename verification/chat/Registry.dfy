/**
 The registry: which names the map lists.  The name check and the insertion are two
 critical sections, so two clients can pass the check with one name; these lemmas say
 what holds anyway, and exactly when the map is the bijection it is meant to be.
 */
module ChatRegistry {
  import opened Collections
  import opened Options
  import opened ChatServer
  import opened ChatSafety

  // ---- sizes ------------------------------------------------------------------------

  ghost function PresentTasks(s: Server): set<nat> {
    set t | t in s.tasks && Present(s.tasks[t].pc)
  }

  lemma PresentHasName(pc: Pc)
    ensures Present(pc) <==> NameOf(pc).Some?
  {
  }

  lemma OwnersDiffer(s: Server, n: Name, m: Name)
    requires EntriesInv(s) && n in s.clients && m in s.clients && s.clients[n] == s.clients[m]
    ensures n == m
  {
    assert NameOf(PcOf(s, s.clients[n])) == Some(n);
  }

  lemma {:induction false} InjectiveSize(m: map<Name, nat>, keys: set<Name>, owners: set<nat>)
    requires forall n | n in keys :: n in m && m[n] in owners
    requires forall n, k | n in keys && k in keys && m[n] == m[k] :: n == k
    ensures |keys| <= |owners|
  {
    if n :| n in keys {
      InjectiveSize(m, keys - {n}, owners - {m[n]});
    }
  }

  /** Entries belong to distinct tasks that are serving or about to leave, and there is room for all of them. */
  lemma RegistrySafety(maxClients: nat, acts: seq<Action>)
    requires Runs(Init(maxClients), acts)
    ensures var s := After(Init(maxClients), acts);
      && (forall n | n in s.clients ::
            s.clients[n] in s.tasks && NameOf(s.tasks[s.clients[n]].pc) == Some(n))
      && (forall n, m | n in s.clients && m in s.clients && s.clients[n] == s.clients[m] :: n == m)
      && |s.clients| <= |PresentTasks(s)| <= |s.tasks| <= maxClients
  {
    hide Next, Enabled, Runs, After, QueueInv, MapLockInv, PlansInv, MutexInv, TargetsInv;
    InitSafe(maxClients);
    RunKeepsSafe(Init(maxClients), acts);
    RunKeepsMax(Init(maxClients), acts);
    var s := After(Init(maxClients), acts);
    forall n | n in s.clients
      ensures s.clients[n] in s.tasks && NameOf(s.tasks[s.clients[n]].pc) == Some(n)
      ensures s.clients[n] in PresentTasks(s)
    {
      PresentHasName(PcOf(s, s.clients[n]));
    }
    forall n, m | n in s.clients && m in s.clients && s.clients[n] == s.clients[m] ensures n == m {
      OwnersDiffer(s, n, m);
    }
    InjectiveSize(s.clients, s.clients.Keys, PresentTasks(s));
    SubsetSize(PresentTasks(s), s.tasks.Keys);
  }

  lemma {:induction false} RunKeepsMax(s: Server, acts: seq<Action>)
    requires Safe(s) && Runs(s, acts)
    ensures After(s, acts).maxClients == s.maxClients
    decreases |acts|
  {
    hide Next, Enabled, QueueInv, MapLockInv, PlansInv, MutexInv, EntriesInv, TargetsInv;
    if acts != [] {
      StepKeepsSafe(s, acts[0]);
      StepKeys(s, acts[0]);
      RunKeepsMax(Next(s, acts[0]), acts[1..]);
    }
  }

  // ---- the bijection ------------------------------------------------------------------

  /** The map lists exactly the tasks that are present, each under its own name. */
  ghost predicate Bijective(s: Server) {
    forall n, t :: (n in s.clients && s.clients[n] == t) <==> NameOf(PcOf(s, t)) == Some(n)
  }

  /** This action inserts a name that is in the map already. */
  ghost predicate Overwrites(s: Server, a: Action)
    requires Enabled(s, a)
  {
    a.Insert? && s.tasks[a.t].pc.name in s.clients
  }

  lemma EffectBijective(s: Server, s': Server, t: nat)
    requires Bijective(s) && OthersStay(s, s', t) && EntriesEffect(s, s', t)
    ensures var n, n' := NameOf(PcOf(s, t)), NameOf(PcOf(s', t));
      Bijective(s') <==> (n.None? && n'.Some? ==> n'.value !in s.clients)
  {
    var n, n' := NameOf(PcOf(s, t)), NameOf(PcOf(s', t));
    if n.None? && n'.Some? && n'.value in s.clients {
      var u := s.clients[n'.value];
      assert NameOf(PcOf(s, u)) == Some(n'.value);
      assert NameOf(PcOf(s', u)) == Some(n'.value) && s'.clients[n'.value] == t;
    } else {
      forall m, u ensures (m in s'.clients && s'.clients[m] == u) <==> NameOf(PcOf(s', u)) == Some(m) {
        assert (m in s.clients && s.clients[m] == u) <==> NameOf(PcOf(s, u)) == Some(m);
        assert (m in s.clients && s.clients[m] == t) <==> NameOf(PcOf(s, t)) == Some(m);
      }
    }
  }

  /** A step gives its task a name in the map exactly when it is an insertion, and the name inserted. */
  ghost predicate NamesEffect(s: Server, a: Action)
    requires Enabled(s, a)
  {
    var n, n' := NameOf(PcOf(s, Actor(s, a))), NameOf(PcOf(Next(s, a), Actor(s, a)));
    (n.None? && n'.Some?) == a.Insert? && (a.Insert? ==> n' == Some(s.tasks[a.t].pc.name))
  }

  lemma WriterStepNames(s: Server, a: Action)
    requires Enabled(s, a) && TouchesWriters(a)
    ensures NamesEffect(s, a)
  {
  }

  lemma GrantNames(s: Server, a: Action)
    requires Enabled(s, a) && a.Grant?
    ensures NamesEffect(s, a)
  {
    hide Plan, GrantTo;
    GrantFacts(s, a.t, a.order);
  }

  lemma OtherStepNames(s: Server, a: Action)
    requires Fresh(s) && Enabled(s, a) && !TouchesWriters(a) && !a.Grant?
    ensures NamesEffect(s, a)
  {
    hide GrantTo;
  }

  lemma InsertNames(s: Server, a: Action)
    requires Fresh(s) && Enabled(s, a)
    ensures NamesEffect(s, a)
  {
    hide Next, Enabled, NamesEffect;
    if a.Grant? {
      GrantNames(s, a);
    } else if TouchesWriters(a) {
      WriterStepNames(s, a);
    } else {
      OtherStepNames(s, a);
    }
  }

  /** One step from a clean registry leaves it clean if and only if it overwrites no entry. */
  lemma StepKeepsBijectiveIff(s: Server, a: Action)
    requires Safe(s) && Bijective(s) && Enabled(s, a)
    ensures Bijective(Next(s, a)) <==> !Overwrites(s, a)
  {
    hide Next, Enabled, Bijective, EntriesEffect, QueueInv, MapLockInv, PlansInv, MutexInv, EntriesInv, TargetsInv;
    OnlyActorMoves(s, a);
    StepEntriesEffect(s, a);
    EffectBijective(s, Next(s, a), Actor(s, a));
    InsertNames(s, a);
  }

  ghost predicate AlwaysBijective(s: Server, acts: seq<Action>)
    requires Runs(s, acts)
    decreases |acts|
  {
    Bijective(s) && (acts == [] || AlwaysBijective(Next(s, acts[0]), acts[1..]))
  }

  ghost predicate NeverOverwrites(s: Server, acts: seq<Action>)
    requires Runs(s, acts)
    decreases |acts|
  {
    acts == [] || (!Overwrites(s, acts[0]) && NeverOverwrites(Next(s, acts[0]), acts[1..]))
  }

  /** Over a whole run the registry is clean in every state if and only if no insertion overwrites an entry. */
  lemma {:induction false} BijectiveRuns(s: Server, acts: seq<Action>)
    requires Safe(s) && Bijective(s) && Runs(s, acts)
    ensures AlwaysBijective(s, acts) <==> NeverOverwrites(s, acts)
    decreases |acts|
  {
    hide Next, Enabled, Bijective, Safe, Overwrites;
    if acts != [] {
      StepKeepsSafe(s, acts[0]);
      StepKeepsBijectiveIff(s, acts[0]);
      if Bijective(Next(s, acts[0])) {
        BijectiveRuns(Next(s, acts[0]), acts[1..]);
      }
    }
  }

  // ---- the window between the check and the insertion ---------------------------------

  function TicketOf(pc: Pc): Ticket {
    match pc
    case Answering(_, ticket) => ticket
    case AnswerLocked(_, ticket) => ticket
    case AnswerSent(_, ticket) => ticket
    case InsertQueued(name, mark) => Admitted(name, mark)
    case Inserting(name, mark) => Admitted(name, mark)
    case _ => Rejected
  }

  /** A name admitted at `mark` is in the map only if it was inserted since then. */
  ghost predicate TicketHolds(s: Server, ticket: Ticket) {
    ticket.Admitted? ==>
      && ticket.mark <= |s.inserts|
      && (ticket.name in s.clients ==> ticket.name in s.inserts[ticket.mark..])
  }

  ghost predicate WindowInv(s: Server) {
    forall t :: TicketHolds(s, TicketOf(PcOf(s, t)))
  }

  /** The map gains a name only by inserting it. */
  ghost predicate HistoryEffect(s: Server, s': Server) {
    || (s'.inserts == s.inserts && forall n | n in s'.clients :: n in s.clients)
    || exists x :: s'.inserts == s.inserts + [x] && forall n | n in s'.clients :: n in s.clients || n == x
  }

  lemma QuietStepHistory(s: Server, a: Action)
    requires Enabled(s, a) && !a.Insert? && !a.Grant? && !a.Remove?
    ensures Next(s, a).inserts == s.inserts && Next(s, a).clients == s.clients
  {
    hide GrantTo;
  }

  lemma MapStepHistory(s: Server, a: Action)
    requires Enabled(s, a) && (a.Insert? || a.Grant? || a.Remove?)
    ensures HistoryEffect(s, Next(s, a))
  {
    hide Plan, GrantTo;
    if a.Grant? {
      GrantFrame(s, a.t, a.order);
    }
    if a.Insert? {
      assert Next(s, a).inserts == s.inserts + [s.tasks[a.t].pc.name];
    }
  }

  lemma StepHistoryEffect(s: Server, a: Action)
    requires Enabled(s, a)
    ensures HistoryEffect(s, Next(s, a))
  {
    hide Next, Enabled;
    if a.Insert? || a.Grant? || a.Remove? {
      MapStepHistory(s, a);
    } else {
      QuietStepHistory(s, a);
    }
  }

  lemma TicketSurvives(s: Server, s': Server, ticket: Ticket)
    requires HistoryEffect(s, s') && TicketHolds(s, ticket)
    ensures TicketHolds(s', ticket)
  {
    if ticket.Admitted? && s'.inserts != s.inserts {
      var x :| s'.inserts == s.inserts + [x] && forall n | n in s'.clients :: n in s.clients || n == x;
      assert s'.inserts[ticket.mark..] == s.inserts[ticket.mark..] + [x];
    }
  }

  lemma GrantTicket(s: Server, a: Action)
    requires a.Grant? && Enabled(s, a)
    ensures TicketOf(PcOf(Next(s, a), a.t)) == TicketOf(PcOf(s, a.t))
  {
    hide Plan;
  }

  /** A task keeps its ticket, drops it, or gets one for a name that is not listed. */
  ghost predicate TicketEffect(s: Server, s': Server, t: nat) {
    var k, k' := TicketOf(PcOf(s, t)), TicketOf(PcOf(s', t));
    k' == k || k'.Rejected? || (k'.name !in s.clients && k'.mark == |s.inserts| && s'.clients == s.clients)
  }

  lemma WriterStepTicket(s: Server, a: Action)
    requires Enabled(s, a) && TouchesWriters(a)
    ensures TicketEffect(s, Next(s, a), a.t)
  {
  }

  lemma OtherStepTicket(s: Server, a: Action)
    requires Fresh(s) && Enabled(s, a) && !TouchesWriters(a) && !a.Grant?
    ensures TicketEffect(s, Next(s, a), Actor(s, a))
  {
    hide GrantTo;
  }

  lemma StepTicket(s: Server, a: Action)
    requires Fresh(s) && Enabled(s, a)
    ensures TicketEffect(s, Next(s, a), Actor(s, a))
  {
    hide Next, Enabled, TicketOf;
    if a.Grant? {
      GrantTicket(s, a);
    } else if TouchesWriters(a) {
      WriterStepTicket(s, a);
    } else {
      OtherStepTicket(s, a);
    }
  }

  lemma StepKeepsWindow(s: Server, a: Action)
    requires Fresh(s) && WindowInv(s) && Enabled(s, a)
    ensures WindowInv(Next(s, a))
  {
    hide Next, Enabled, TicketHolds, TicketOf;
    var s', t := Next(s, a), Actor(s, a);
    OnlyActorMoves(s, a);
    StepHistoryEffect(s, a);
    StepTicket(s, a);
    forall u ensures TicketHolds(s', TicketOf(PcOf(s', u))) {
      assert TicketHolds(s, TicketOf(PcOf(s, u)));
      TicketSurvives(s, s', TicketOf(PcOf(s, u)));
      if u == t {
        FreshTicketHolds(s, s', TicketOf(PcOf(s', t)));
      }
    }
  }

  lemma FreshTicketHolds(s: Server, s': Server, ticket: Ticket)
    requires HistoryEffect(s, s')
    ensures ticket.Admitted? && ticket.name !in s.clients && ticket.mark == |s.inserts| && s'.clients == s.clients
      ==> TicketHolds(s', ticket)
    ensures ticket.Rejected? ==> TicketHolds(s', ticket)
  {
  }

  /** Another insertion of the same name fell between this client's check and its own insertion. */
  ghost predicate Raced(s: Server, a: Action)
    requires Enabled(s, a)
  {
    a.Insert? && var pc := s.tasks[a.t].pc; pc.mark <= |s.inserts| && pc.name in s.inserts[pc.mark..]
  }

  lemma OverwriteIsRace(s: Server, a: Action)
    requires WindowInv(s) && Enabled(s, a) && Overwrites(s, a)
    ensures Raced(s, a)
  {
    hide Next;
    assert TicketHolds(s, TicketOf(PcOf(s, a.t)));
  }

  ghost predicate NeverRaces(s: Server, acts: seq<Action>)
    requires Runs(s, acts)
    decreases |acts|
  {
    acts == [] || (!Raced(s, acts[0]) && NeverRaces(Next(s, acts[0]), acts[1..]))
  }

  lemma {:induction false} UnracedNeverOverwrites(s: Server, acts: seq<Action>)
    requires Safe(s) && WindowInv(s) && Runs(s, acts) && NeverRaces(s, acts)
    ensures NeverOverwrites(s, acts)
    decreases |acts|
  {
    hide Next, Enabled, WindowInv, Overwrites, Raced;
    hide QueueInv, MapLockInv, PlansInv, MutexInv, EntriesInv, TargetsInv;
    if acts != [] {
      StepKeepsSafe(s, acts[0]);
      StepKeepsWindow(s, acts[0]);
      if Overwrites(s, acts[0]) {
        OverwriteIsRace(s, acts[0]);
      }
      UnracedNeverOverwrites(Next(s, acts[0]), acts[1..]);
    }
  }

  lemma InitClean(maxClients: nat)
    ensures WindowInv(Init(maxClients)) && Bijective(Init(maxClients))
  {
  }

  /**
   In a run where no insertion races another insertion of its name, the map is the
   bijection of present names and tasks in every state.
   */
  lemma CleanRuns(maxClients: nat, acts: seq<Action>)
    requires Runs(Init(maxClients), acts) && NeverRaces(Init(maxClients), acts)
    ensures AlwaysBijective(Init(maxClients), acts)
  {
    hide Next, Enabled, Runs, AlwaysBijective, NeverOverwrites, NeverRaces, WindowInv, Bijective, Safe;
    InitSafe(maxClients);
    InitClean(maxClients);
    UnracedNeverOverwrites(Init(maxClients), acts);
    BijectiveRuns(Init(maxClients), acts);
  }
}
