/**
 What reaches the clients: every reaction delivers its plan in order, a broadcast
 reaches every other listed client once, and a client's first message is its own answer.
 */
module ChatDelivery {
  import opened Options
  import opened ChatServer
  import opened ChatSafety
  import opened ChatRegistry

  /** The sends completed by task `t` in its request `r`, in order. */
  function SentBy(log: seq<Delivery>, t: nat, r: nat): seq<Sending> {
    if log == [] then []
    else
      var d := log[|log| - 1];
      SentBy(log[..|log| - 1], t, r) + if d.from == t && d.req == r then [Sending(d.to, d.reply)] else []
  }

  lemma SentByAppend(log: seq<Delivery>, d: Delivery, t: nat, r: nat)
    ensures SentBy(log + [d], t, r)
         == SentBy(log, t, r) + if d.from == t && d.req == r then [Sending(d.to, d.reply)] else []
  {
    assert (log + [d])[..|log|] == log;
  }

  lemma {:induction false} NothingSent(log: seq<Delivery>, t: nat, r: nat)
    requires forall d | d in log :: d.from != t || d.req != r
    ensures SentBy(log, t, r) == []
  {
    if log != [] {
      NothingSent(log[..|log| - 1], t, r);
    }
  }

  // ---- the invariant ------------------------------------------------------------------

  predicate Unanswered(pc: Pc) {
    pc.Awaiting? || pc.CheckQueued? || pc.Checking? || pc.Answering? || pc.AnswerLocked?
  }

  predicate Welcomed(pc: Pc) {
    || (pc.AnswerSent? && pc.ok && pc.ticket.Admitted?) || pc.InsertQueued? || pc.Inserting? || NameOf(pc).Some?
  }

  predicate Reaction(pc: Pc) {
    pc.Reacting? || pc.Locked? || pc.Unlocking?
  }

  /** The part of its plan that a reaction has delivered. */
  function DonePart(pc: Pc): seq<Sending> {
    match pc
    case Reacting(_, plan, k, _, _) => if k <= |plan| then plan[..k] else plan
    case Locked(_, plan, k, _) => if k <= |plan| then plan[..k] else plan
    case Unlocking(_, plan, k, _, ok) =>
      var n := if ok then k + 1 else k;
      if n <= |plan| then plan[..n] else plan
    case _ => []
  }

  /** What the log holds of one task. */
  ghost predicate TaskLog(log: seq<Delivery>, t: nat, pc: Pc, reqs: nat) {
    && (Unanswered(pc) ==> reqs == 0 && SentBy(log, t, 0) == [])
    && (pc.Answering? || pc.AnswerLocked? ==> pc.ticket.Admitted? ==> pc.answer == Welcome)
    && (Welcomed(pc) ==> SentBy(log, t, 0) == [Sending(t, Welcome)])
    && (Reaction(pc) ==> reqs > 0 && SentBy(log, t, reqs) == DonePart(pc))
  }

  ghost predicate LogBounds(s: Server) {
    forall d | d in s.log :: d.from < s.nextId && (d.from in s.tasks ==> d.req <= s.tasks[d.from].reqs)
  }

  /** The log lists the requests of one sender in the order it made them. */
  ghost predicate LogOrdered(log: seq<Delivery>) {
    forall i, j | 0 <= i < j < |log| && log[i].from == log[j].from :: log[i].req <= log[j].req
  }

  /** Request 0 is a task's answer to its own client; anything else comes after the client was welcomed. */
  ghost predicate WelcomeFirst(log: seq<Delivery>) {
    forall j | 0 <= j < |log| ::
      if log[j].req == 0 then log[j].to == log[j].from
      else exists i :: 0 <= i < j && log[i] == Delivery(log[j].to, log[j].to, 0, Welcome)
  }

  ghost predicate TaskLogs(s: Server) {
    forall t | t in s.tasks :: TaskLog(s.log, t, s.tasks[t].pc, s.tasks[t].reqs)
  }

  ghost predicate LogInv(s: Server) {
    LogBounds(s) && TaskLogs(s) && LogOrdered(s.log) && WelcomeFirst(s.log)
  }

  // ---- what a step adds to the log ---------------------------------------------------

  predicate Sends(a: Action) {
    a.SendAnswer? || a.SendNext?
  }

  lemma QuietStepLog(s: Server, a: Action)
    requires Enabled(s, a) && !Sends(a)
    ensures Next(s, a).log == s.log
  {
    hide Plan, GrantTo;
    if a.Grant? {
      GrantFacts(s, a.t, a.order);
    }
  }

  /** The delivery a send step makes. */
  ghost function SendOf(s: Server, a: Action): Delivery
    requires Enabled(s, a) && Sends(a)
  {
    var pc := s.tasks[a.t].pc;
    if a.SendAnswer? then Delivery(a.t, a.t, 0, pc.answer)
    else Delivery(pc.plan[pc.k].to, a.t, s.tasks[a.t].reqs, pc.plan[pc.k].reply)
  }

  ghost predicate LogEffect(s: Server, s': Server, t: nat) {
    s'.log == s.log || (t in s.tasks && exists d :: s'.log == s.log + [d] && d.from == t && d.req == ReqsOf(s, t))
  }

  lemma SendStepLog(s: Server, a: Action)
    requires Enabled(s, a) && Sends(a)
    ensures Next(s, a).log == if a.delivered then s.log + [SendOf(s, a)] else s.log
    ensures SendOf(s, a).from == a.t
  {
  }

  lemma StepLogEffect(s: Server, a: Action)
    requires TaskLogs(s) && Enabled(s, a)
    ensures LogEffect(s, Next(s, a), Actor(s, a))
  {
    hide Plan, Next, Enabled, SentBy;
    if Sends(a) {
      SendStepLog(s, a);
      SendReq(s, a);
    } else {
      QuietStepLog(s, a);
    }
  }

  lemma SendReq(s: Server, a: Action)
    requires TaskLogs(s) && Enabled(s, a) && Sends(a)
    ensures a.t in s.tasks && SendOf(s, a).req == ReqsOf(s, a.t)
  {
    hide SentBy;
    assert TaskLog(s.log, a.t, s.tasks[a.t].pc, s.tasks[a.t].reqs);
  }

  // ---- the tasks' parts of the log ------------------------------------------------------

  lemma OtherTaskLog(s: Server, s': Server, t: nat, u: nat)
    requires TaskLogs(s) && LogEffect(s, s', t) && u != t && u in s.tasks && u in s'.tasks
    requires s'.tasks[u] == s.tasks[u]
    ensures TaskLog(s'.log, u, s'.tasks[u].pc, s'.tasks[u].reqs)
  {
    hide SentBy;
    assert TaskLog(s.log, u, s.tasks[u].pc, s.tasks[u].reqs);
    if s'.log != s.log {
      var d :| s'.log == s.log + [d] && d.from == t && d.req == ReqsOf(s, t);
      SentByAppend(s.log, d, u, 0);
      SentByAppend(s.log, d, u, s.tasks[u].reqs);
    }
  }

  lemma AcceptTaskLog(s: Server, a: Action)
    requires LogBounds(s) && Enabled(s, a) && a.Accept?
    ensures var u := s.nextId; TaskLog(Next(s, a).log, u, Next(s, a).tasks[u].pc, Next(s, a).tasks[u].reqs)
  {
    NothingSent(s.log, s.nextId, 0);
  }

  lemma SendAnswerTaskLog(s: Server, a: Action)
    requires TaskLogs(s) && Enabled(s, a) && a.SendAnswer?
    ensures var s' := Next(s, a); a.t in s'.tasks && TaskLog(s'.log, a.t, s'.tasks[a.t].pc, s'.tasks[a.t].reqs)
  {
    hide SentBy;
    assert TaskLog(s.log, a.t, s.tasks[a.t].pc, s.tasks[a.t].reqs);
    SentByAppend(s.log, SendOf(s, a), a.t, 0);
  }

  lemma PlanPrefix(plan: seq<Sending>, k: nat)
    requires k < |plan|
    ensures plan[..k] + [plan[k]] == plan[..k + 1]
  {
  }

  lemma SendNextTaskLog(s: Server, a: Action)
    requires TaskLogs(s) && Enabled(s, a) && a.SendNext?
    ensures var s' := Next(s, a); a.t in s'.tasks && TaskLog(s'.log, a.t, s'.tasks[a.t].pc, s'.tasks[a.t].reqs)
  {
    hide SentBy;
    var pc := s.tasks[a.t].pc;
    assert TaskLog(s.log, a.t, pc, s.tasks[a.t].reqs);
    PlanPrefix(pc.plan, pc.k);
    SentByAppend(s.log, SendOf(s, a), a.t, 0);
    SentByAppend(s.log, SendOf(s, a), a.t, s.tasks[a.t].reqs);
  }

  lemma GrantTaskLog(s: Server, a: Action)
    requires TaskLogs(s) && LogBounds(s) && Enabled(s, a) && a.Grant?
    ensures var s' := Next(s, a); a.t in s'.tasks && TaskLog(s'.log, a.t, s'.tasks[a.t].pc, s'.tasks[a.t].reqs)
  {
    hide SentBy, Plan;
    assert TaskLog(s.log, a.t, s.tasks[a.t].pc, s.tasks[a.t].reqs);
    NothingSent(s.log, a.t, s.tasks[a.t].reqs + 1);
  }

  /** A move between places about which the log says the same. */
  predicate SameStanding(p: Pc, p': Pc) {
    && (Unanswered(p') ==> Unanswered(p))
    && (p'.Answering? || p'.AnswerLocked? ==> p'.ticket.Admitted? ==>
          p'.answer == Welcome || ((p.Answering? || p.AnswerLocked?) && p.ticket == p'.ticket && p.answer == p'.answer))
    && (Welcomed(p') ==> Welcomed(p))
    && (Reaction(p') ==> Reaction(p) && DonePart(p') == DonePart(p))
  }

  lemma StandingTaskLog(log: seq<Delivery>, t: nat, p: Pc, p': Pc, reqs: nat)
    requires TaskLog(log, t, p, reqs) && SameStanding(p, p')
    ensures TaskLog(log, t, p', reqs)
  {
    hide SentBy, Unanswered, Welcomed, Reaction, DonePart;
  }

  lemma OwnWriterStanding(s: Server, a: Action)
    requires Enabled(s, a) && (a.LockOwn? || a.UnlockOwn?)
    ensures SameStanding(PcOf(s, a.t), PcOf(Next(s, a), a.t)) && ReqsOf(Next(s, a), a.t) == ReqsOf(s, a.t)
  {
  }

  lemma PlanWriterStanding(s: Server, a: Action)
    requires Enabled(s, a) && (a.LockWriter? || a.UnlockWriter?)
    ensures SameStanding(PcOf(s, a.t), PcOf(Next(s, a), a.t)) && ReqsOf(Next(s, a), a.t) == ReqsOf(s, a.t)
  {
  }

  lemma WriterStepStanding(s: Server, a: Action)
    requires Enabled(s, a) && TouchesWriters(a) && !Sends(a)
    ensures SameStanding(PcOf(s, a.t), PcOf(Next(s, a), a.t)) && ReqsOf(Next(s, a), a.t) == ReqsOf(s, a.t)
  {
    hide Next, Enabled, SameStanding;
    if a.LockOwn? || a.UnlockOwn? {
      OwnWriterStanding(s, a);
    } else {
      PlanWriterStanding(s, a);
    }
  }

  lemma QueueingStanding(s: Server, a: Action)
    requires Enabled(s, a) && Enqueues(a)
    ensures SameStanding(PcOf(s, a.t), PcOf(Next(s, a), a.t)) && ReqsOf(Next(s, a), a.t) == ReqsOf(s, a.t)
  {
    hide GrantTo, Plan;
  }

  lemma OtherStanding(s: Server, a: Action)
    requires Enabled(s, a) && !TouchesWriters(a) && !Enqueues(a) && !a.Accept? && !a.Grant? && !a.Reap?
    ensures SameStanding(PcOf(s, a.t), PcOf(Next(s, a), a.t)) && ReqsOf(Next(s, a), a.t) == ReqsOf(s, a.t)
  {
    hide GrantTo, Plan;
  }

  lemma QuietTaskLog(s: Server, a: Action)
    requires Fresh(s) && TaskLogs(s) && Enabled(s, a) && !Sends(a) && !a.Accept? && !a.Grant? && !a.Reap?
    ensures var s' := Next(s, a); a.t in s'.tasks && TaskLog(s'.log, a.t, s'.tasks[a.t].pc, s'.tasks[a.t].reqs)
  {
    hide Next, Enabled, TaskLog, SameStanding;
    StepKeys(s, a);
    ActorIsTask(s, a);
    if TouchesWriters(a) {
      WriterStepStanding(s, a);
    } else if Enqueues(a) {
      QueueingStanding(s, a);
    } else {
      OtherStanding(s, a);
    }
    QuietStepLog(s, a);
    StandingTaskLog(s.log, a.t, PcOf(s, a.t), PcOf(Next(s, a), a.t), ReqsOf(s, a.t));
  }

  lemma ActorIsTask(s: Server, a: Action)
    requires Enabled(s, a) && !a.Accept?
    ensures a.t in s.tasks
  {
  }

  lemma ActorTaskLog(s: Server, a: Action)
    requires Fresh(s) && TaskLogs(s) && LogBounds(s) && Enabled(s, a)
    ensures var s', t := Next(s, a), Actor(s, a); t in s'.tasks ==> TaskLog(s'.log, t, s'.tasks[t].pc, s'.tasks[t].reqs)
  {
    hide Next, Enabled, TaskLog, LogBounds;
    if a.Accept? {
      AcceptTaskLog(s, a);
    } else if a.Grant? {
      GrantTaskLog(s, a);
    } else if a.SendAnswer? {
      SendAnswerTaskLog(s, a);
    } else if a.SendNext? {
      SendNextTaskLog(s, a);
    } else if a.Reap? {
      StepKeys(s, a);
    } else {
      QuietTaskLog(s, a);
    }
  }

  lemma StepKeepsTaskLogs(s: Server, a: Action)
    requires Fresh(s) && TaskLogs(s) && LogBounds(s) && Enabled(s, a)
    ensures TaskLogs(Next(s, a))
  {
    hide Next, Enabled, TaskLog, LogBounds, LogEffect;
    var s', t := Next(s, a), Actor(s, a);
    StepLogEffect(s, a);
    StepKeys(s, a);
    OnlyActorMoves(s, a);
    forall u | u in s'.tasks ensures TaskLog(s'.log, u, s'.tasks[u].pc, s'.tasks[u].reqs) {
      if u == t {
        ActorTaskLog(s, a);
      } else {
        assert PcOf(s', u) == PcOf(s, u) && ReqsOf(s', u) == ReqsOf(s, u);
        OtherTaskLog(s, s', t, u);
      }
    }
  }

  // ---- the log as a whole ---------------------------------------------------------------

  lemma GrantReqsGrow(s: Server, a: Action)
    requires Enabled(s, a) && a.Grant?
    ensures ReqsOf(Next(s, a), a.t) >= ReqsOf(s, a.t)
  {
    hide Plan;
  }

  lemma OtherReqsGrow(s: Server, a: Action)
    requires Fresh(s) && Enabled(s, a) && !a.Grant?
    ensures Actor(s, a) in Next(s, a).tasks ==> ReqsOf(Next(s, a), Actor(s, a)) >= ReqsOf(s, Actor(s, a))
  {
    hide GrantTo;
  }

  lemma StepReqsGrow(s: Server, a: Action)
    requires Fresh(s) && Enabled(s, a)
    ensures Actor(s, a) in Next(s, a).tasks ==> ReqsOf(Next(s, a), Actor(s, a)) >= ReqsOf(s, Actor(s, a))
  {
    hide Next, Enabled;
    if a.Grant? {
      GrantReqsGrow(s, a);
    } else {
      OtherReqsGrow(s, a);
    }
  }

  lemma StepKeepsLogBounds(s: Server, a: Action)
    requires Fresh(s) && TaskLogs(s) && LogBounds(s) && Enabled(s, a)
    ensures LogBounds(Next(s, a))
  {
    hide Next, Enabled, TaskLogs;
    var s', t := Next(s, a), Actor(s, a);
    StepLogEffect(s, a);
    StepKeys(s, a);
    OnlyActorMoves(s, a);
    StepReqsGrow(s, a);
    forall d | d in s'.log ensures d.from < s'.nextId && (d.from in s'.tasks ==> d.req <= s'.tasks[d.from].reqs) {
      assert d in s.log || (d.from == t && t in s.tasks && d.req == ReqsOf(s, t));
      assert ReqsOf(s', d.from) >= ReqsOf(s, d.from) || d.from !in s'.tasks;
    }
  }

  lemma StepKeepsLogOrdered(s: Server, a: Action)
    requires TaskLogs(s) && LogBounds(s) && LogOrdered(s.log) && Enabled(s, a)
    ensures LogOrdered(Next(s, a).log)
  {
    hide Next, Enabled, TaskLogs;
    StepLogEffect(s, a);
    var s' := Next(s, a);
    forall i, j | 0 <= i < j < |s'.log| && s'.log[i].from == s'.log[j].from ensures s'.log[i].req <= s'.log[j].req {
      assert s'.log[i] == s.log[i];
      assert s.log[i] in s.log;
    }
  }

  lemma {:induction false} SentIsLogged(log: seq<Delivery>, t: nat, r: nat, x: Sending)
    requires x in SentBy(log, t, r)
    ensures Delivery(x.to, t, r, x.reply) in log
  {
    if log != [] && x in SentBy(log[..|log| - 1], t, r) {
      SentIsLogged(log[..|log| - 1], t, r, x);
    }
  }

  /** A client in the map has been welcomed. */
  lemma ListedIsWelcomed(s: Server, n: Name)
    requires TaskLogs(s) && EntriesInv(s) && n in s.clients
    ensures Delivery(s.clients[n], s.clients[n], 0, Welcome) in s.log
  {
    hide SentBy;
    var t := s.clients[n];
    assert NameOf(PcOf(s, t)) == Some(n);
    assert TaskLog(s.log, t, s.tasks[t].pc, s.tasks[t].reqs);
    SentIsLogged(s.log, t, 0, Sending(t, Welcome));
  }

  lemma TargetOwner(clients: map<Name, nat>, plan: seq<Sending>, k: nat)
    requires TargetsListed(clients, plan) && k < |plan|
    ensures exists n :: n in clients && clients[n] == plan[k].to
  {
    var x := plan[k];
    assert exists n :: n in clients && clients[n] == x.to;
  }

  lemma SendTarget(s: Server, a: Action)
    requires TaskLogs(s) && EntriesInv(s) && TargetsInv(s) && Enabled(s, a) && a.SendNext?
    ensures SendOf(s, a).req > 0 && Delivery(SendOf(s, a).to, SendOf(s, a).to, 0, Welcome) in s.log
  {
    hide SentBy;
    var pc := s.tasks[a.t].pc;
    assert PcOf(s, a.t) == pc;
    TargetOwner(s.clients, PlanOf(pc), pc.k);
    var n :| n in s.clients && s.clients[n] == pc.plan[pc.k].to;
    ListedIsWelcomed(s, n);
    assert TaskLog(s.log, a.t, pc, s.tasks[a.t].reqs);
  }

  lemma WelcomeFirstAppend(log: seq<Delivery>, d: Delivery)
    requires WelcomeFirst(log)
    requires if d.req == 0 then d.to == d.from else Delivery(d.to, d.to, 0, Welcome) in log
    ensures WelcomeFirst(log + [d])
  {
    var more := log + [d];
    forall j | 0 <= j < |more|
      ensures if more[j].req == 0 then more[j].to == more[j].from
              else exists i :: 0 <= i < j && more[i] == Delivery(more[j].to, more[j].to, 0, Welcome)
    {
      if j < |log| {
        if log[j].req != 0 {
          var i :| 0 <= i < j && log[i] == Delivery(log[j].to, log[j].to, 0, Welcome);
          assert more[i] == log[i];
        }
      } else if d.req != 0 {
        var i :| 0 <= i < |log| && log[i] == Delivery(d.to, d.to, 0, Welcome);
        assert more[i] == log[i];
      }
    }
  }

  lemma StepKeepsWelcomeFirst(s: Server, a: Action)
    requires TaskLogs(s) && EntriesInv(s) && TargetsInv(s) && WelcomeFirst(s.log) && Enabled(s, a)
    ensures WelcomeFirst(Next(s, a).log)
  {
    hide Next, Enabled, TaskLogs, EntriesInv, TargetsInv, WelcomeFirst;
    if Sends(a) {
      SendStepLog(s, a);
      if a.SendNext? {
        SendTarget(s, a);
      }
      WelcomeFirstAppend(s.log, SendOf(s, a));
    } else {
      QuietStepLog(s, a);
    }
  }

  lemma StepKeepsLogInv(s: Server, a: Action)
    requires Safe(s) && LogInv(s) && Enabled(s, a)
    ensures LogInv(Next(s, a))
  {
    hide Next, Enabled, TaskLogs, EntriesInv, TargetsInv, WelcomeFirst, LogBounds, LogOrdered;
    hide QueueInv, MapLockInv, PlansInv, MutexInv;
    StepKeepsLogBounds(s, a);
    StepKeepsTaskLogs(s, a);
    StepKeepsLogOrdered(s, a);
    StepKeepsWelcomeFirst(s, a);
  }

  lemma {:induction false} RunKeepsLogInv(s: Server, acts: seq<Action>)
    requires Safe(s) && LogInv(s) && Runs(s, acts)
    ensures Safe(After(s, acts)) && LogInv(After(s, acts))
    decreases |acts|
  {
    hide Safe, Next, Enabled, LogInv;
    if acts != [] {
      StepKeepsSafe(s, acts[0]);
      StepKeepsLogInv(s, acts[0]);
      RunKeepsLogInv(Next(s, acts[0]), acts[1..]);
    }
  }

  lemma InitLog(maxClients: nat)
    ensures LogInv(Init(maxClients))
  {
  }

  // ---- what clients see ---------------------------------------------------------------------

  /** In every run one sender's deliveries are in request order, and each client is welcomed before anything else. */
  lemma DeliveriesOrdered(maxClients: nat, acts: seq<Action>)
    requires Runs(Init(maxClients), acts)
    ensures var log := After(Init(maxClients), acts).log; LogOrdered(log) && WelcomeFirst(log)
  {
    hide Safe, Next, Enabled, Runs, After, TaskLogs, LogBounds, LogOrdered, WelcomeFirst;
    InitSafe(maxClients);
    InitLog(maxClients);
    RunKeepsLogInv(Init(maxClients), acts);
  }

  /** A reaction ends with its whole plan delivered once and in order, or stopped at the send that failed. */
  lemma ReactionDelivers(s: Server, t: nat)
    requires Safe(s) && LogInv(s) && Enabled(s, Finish(t))
    ensures var pc := s.tasks[t].pc;
      && SentBy(s.log, t, s.tasks[t].reqs) <= pc.plan
      && (SentBy(s.log, t, s.tasks[t].reqs) == pc.plan <==> !pc.failed)
  {
    hide SentBy, QueueInv, MapLockInv, MutexInv, EntriesInv, TargetsInv;
    assert PlanBounds(PcOf(s, t));
    assert TaskLog(s.log, t, s.tasks[t].pc, s.tasks[t].reqs);
  }

  lemma StepFreezesMap(s: Server, a: Action, t: nat)
    requires Fresh(s) && MapLockInv(s) && Enabled(s, a) && Reaction(PcOf(s, t))
    ensures Next(s, a).clients == s.clients
  {
    hide Next, Enabled, Plan;
    MapChangesAlone(s, a);
    assert t in s.readers <==> HoldsShared(PcOf(s, t));
    assert s.writer == Some(Actor(s, a)) <==> HoldsExclusive(PcOf(s, Actor(s, a)));
  }

  /** A reaction that is to end with an error whatever its sends do. */
  predicate Bails(pc: Pc) {
    Reaction(pc) && pc.bail
  }

  lemma ReactionStep(s: Server, a: Action)
    requires Enabled(s, a) && !a.Accept? && Reaction(PcOf(s, a.t)) && !a.Finish?
    ensures var pc, pc' := PcOf(s, a.t), PcOf(Next(s, a), a.t);
      && Reaction(pc') && PlanOf(pc') == PlanOf(pc) && NameOf(pc') == NameOf(pc) && Bails(pc') == Bails(pc)
      && ReqsOf(Next(s, a), a.t) == ReqsOf(s, a.t)
  {
    hide GrantTo;
  }

  /** While a reaction runs its plan, how it is to end, its request and the map stay as they are. */
  lemma {:induction false} ReactionFrozen(s: Server, acts: seq<Action>, t: nat)
    requires Safe(s) && Runs(s, acts) && Reaction(PcOf(s, t)) && Finish(t) !in acts
    ensures var s' := After(s, acts);
      && Reaction(PcOf(s', t)) && PlanOf(PcOf(s', t)) == PlanOf(PcOf(s, t))
      && NameOf(PcOf(s', t)) == NameOf(PcOf(s, t)) && Bails(PcOf(s', t)) == Bails(PcOf(s, t))
      && ReqsOf(s', t) == ReqsOf(s, t) && s'.clients == s.clients
    decreases |acts|
  {
    hide Next, Enabled, QueueInv, MapLockInv, PlansInv, MutexInv, EntriesInv, TargetsInv, Reaction, PlanOf, NameOf, Bails;
    if acts != [] {
      var a, s1 := acts[0], Next(s, acts[0]);
      StepKeepsSafe(s, a);
      StepFreezesMap(s, a, t);
      OnlyActorMoves(s, a);
      NewcomerDoesNotReact(s, t);
      if Actor(s, a) == t {
        ReactionStep(s, a);
      }
      ReactionFrozen(s1, acts[1..], t);
    }
  }

  lemma NewcomerDoesNotReact(s: Server, t: nat)
    requires Fresh(s) && Reaction(PcOf(s, t))
    ensures t != s.nextId
  {
  }

  lemma GrantStartsReaction(s: Server, t: nat, order: seq<Name>)
    requires Enabled(s, Grant(t, order)) && s.tasks[t].pc.ReactQueued?
    ensures var s', pc := Next(s, Grant(t, order)), s.tasks[t].pc;
      && Reaction(PcOf(s', t)) && PlanOf(PcOf(s', t)) == Plan(s.clients, pc.name, pc.msg, order)
      && NameOf(PcOf(s', t)) == Some(pc.name) && (Bails(PcOf(s', t)) <==> pc.msg.JoinAgain? && pc.name in s.clients)
      && s'.clients == s.clients
  {
    hide Plan;
  }

  lemma PlanDistinct(s: Server, plan: seq<Sending>, order: seq<Name>, names: set<Name>)
    requires EntriesInv(s) && Lists(order, names) && names <= s.clients.Keys && |plan| == |order|
    requires forall i | 0 <= i < |order| :: order[i] in s.clients && plan[i].to == s.clients[order[i]]
    ensures forall i, j | 0 <= i < j < |plan| :: plan[i].to != plan[j].to
  {
    hide Lists, EntriesInv;
    ListedOnce(order, names);
    forall i, j | 0 <= i < j < |plan| ensures plan[i].to != plan[j].to {
      if plan[i].to == plan[j].to {
        OwnersDiffer(s, order[i], order[j]);
      }
    }
  }

  lemma PlanExact(clients: map<Name, nat>, plan: seq<Sending>, order: seq<Name>, names: set<Name>, reply: Reply)
    requires names <= clients.Keys && |plan| == |order| && forall n :: n in order <==> n in names
    requires forall i | 0 <= i < |order| :: order[i] in clients && plan[i] == Sending(clients[order[i]], reply)
    ensures forall x :: x in plan <==> exists n :: n in names && x == Sending(clients[n], reply)
  {
    forall x ensures x in plan <==> exists n :: n in names && x == Sending(clients[n], reply) {
      if n :| n in names && x == Sending(clients[n], reply) {
        var i :| 0 <= i < |order| && order[i] == n;
        assert plan[i] == x;
      }
      if x in plan {
        var i :| 0 <= i < |plan| && plan[i] == x;
        assert order[i] in order;
      }
    }
  }

  lemma BroadcastPlan(clients: map<Name, nat>, name: Name, text: string, order: seq<Name>)
    requires Lists(order, clients.Keys - {name})
    ensures var plan := Plan(clients, name, Broadcast(text), order);
      && |plan| == |order|
      && forall i | 0 <= i < |order| ::
           order[i] in clients && plan[i] == Sending(clients[order[i]], Message(name, text))
  {
    ListedAreMembers(order, clients.Keys - {name});
    forall i | 0 <= i < |order| ensures order[i] in clients {
      assert order[i] in order;
    }
  }

  lemma OthersOnce(s: Server, name: Name, text: string, order: seq<Name>)
    requires EntriesInv(s) && Lists(order, s.clients.Keys - {name})
    ensures var plan := Plan(s.clients, name, Broadcast(text), order);
      && (forall i, j | 0 <= i < j < |plan| :: plan[i].to != plan[j].to)
      && (forall x :: x in plan <==>
            exists n :: n in s.clients.Keys - {name} && x == Sending(s.clients[n], Message(name, text)))
  {
    hide Plan, Lists, EntriesInv;
    var plan, names := Plan(s.clients, name, Broadcast(text), order), s.clients.Keys - {name};
    ListedAreMembers(order, names);
    BroadcastPlan(s.clients, name, text, order);
    PlanDistinct(s, plan, order, names);
    PlanExact(s.clients, plan, order, names, Message(name, text));
  }

  lemma {:induction false} ListedOnce(order: seq<Name>, names: set<Name>)
    requires Lists(order, names)
    ensures forall i, j | 0 <= i < j < |order| :: order[i] != order[j]
  {
    forall i, j | 0 <= i < j < |order| ensures order[i] != order[j] {
      assert order == order[..i] + [order[i]] + order[i + 1..j] + [order[j]] + order[j + 1..];
      assert multiset(order)[order[i]] == multiset(names)[order[i]] <= 1;
    }
  }

  /**
   A broadcast that does not fail has reached, when it ends, exactly the clients that the
   map listed when it got the map lock, the sender's own name left out, each once.
   */
  lemma BroadcastReachesOthers(s: Server, t: nat, order: seq<Name>, acts: seq<Action>)
    requires Safe(s) && LogInv(s) && Enabled(s, Grant(t, order))
    requires s.tasks[t].pc.ReactQueued? && s.tasks[t].pc.msg.Broadcast?
    requires Runs(Next(s, Grant(t, order)), acts) && Finish(t) !in acts
    requires var s' := After(Next(s, Grant(t, order)), acts); Enabled(s', Finish(t)) && !s'.tasks[t].pc.failed
    ensures var s' := After(Next(s, Grant(t, order)), acts);
      var name, text := s.tasks[t].pc.name, s.tasks[t].pc.msg.text;
      var sent := SentBy(s'.log, t, s'.tasks[t].reqs);
      && s'.clients == s.clients
      && (forall i, j | 0 <= i < j < |sent| :: sent[i].to != sent[j].to)
      && (forall x :: x in sent <==>
            exists n :: n in s.clients.Keys - {name} && x == Sending(s.clients[n], Message(name, text)))
  {
    hide Next, After, Runs, Plan, LogInv, SentBy, QueueInv, MapLockInv, PlansInv, MutexInv, TargetsInv, Lists;
    var a := Grant(t, order);
    var s1 := Next(s, a);
    StepKeepsSafe(s, a);
    StepKeepsLogInv(s, a);
    RunKeepsLogInv(s1, acts);
    GrantStartsReaction(s, t, order);
    ReactionFrozen(s1, acts, t);
    ReactionDelivers(After(s1, acts), t);
    OthersOnce(s, s.tasks[t].pc.name, s.tasks[t].pc.msg.text, order);
  }

  /** A listed client other than `name`. */
  ghost predicate OtherClient(clients: map<Name, nat>, name: Name, t: nat) {
    exists n :: n in clients && n != name && clients[n] == t
  }

  /**
   Who hears what: chat messages carry the sender's name and go to clients listed under
   other names; every other reply goes to the client itself.
   */
  lemma PlanMeaning(clients: map<Name, nat>, name: Name, msg: ClientMsg, order: seq<Name>)
    requires GoodOrder(clients, name, msg, order)
    ensures forall x | x in Plan(clients, name, msg, order) ::
      if x.reply.Message? then
        && x.reply.from == name && OtherClient(clients, name, x.to)
        && (msg.Broadcast? || msg.SendDM?) && x.reply.text == msg.text
      else name in clients && x.to == clients[name] && !msg.Broadcast?
  {
    if msg.Broadcast? {
      ListedAreMembers(order, clients.Keys - {name});
      BroadcastPlan(clients, name, msg.text, order);
      hide Plan, Lists;
      forall x | x in Plan(clients, name, msg, order)
        ensures x.reply == Message(name, msg.text) && OtherClient(clients, name, x.to)
      {
        var i :| 0 <= i < |order| && Plan(clients, name, msg, order)[i] == x;
        assert order[i] in order;
      }
    } else if msg.SendDM? && msg.to in clients && msg.to != name {
      assert OtherClient(clients, name, clients[msg.to]);
    }
  }

  /** The text of the refusal a direct message gets. */
  function RefusalOf(name: Name, to: Name): string {
    if to == name then "Cannot send a DM to yourself" else "User " + to + " does not exist"
  }

  /**
   A direct message reaches the client listed under the name if there is one and it is not
   the sender's own; otherwise a listed sender is told why not.
   */
  lemma DirectMessage(clients: map<Name, nat>, name: Name, to: Name, text: string)
    ensures var plan := Plan(clients, name, SendDM(to, text), []);
      && |plan| <= 1
      && ((exists x :: x in plan && x.reply.Message?) <==> to in clients && to != name)
      && ((exists x :: x in plan && x.reply.Error?) <==> name in clients && (to == name || to !in clients))
      && (forall x | x in plan && x.reply.Message? :: x.to == clients[to] && x.reply.text == text)
      && (forall x | x in plan && x.reply.Error? :: x.reply.reason == RefusalOf(name, to))
  {
    var plan := Plan(clients, name, SendDM(to, text), []);
    assert plan != [] ==> plan[0] in plan;
  }

  /** A listed client that pings gets one pong, and one that sends `Join` again gets one error; an unlisted one gets nothing. */
  lemma PingAndRejoin(clients: map<Name, nat>, name: Name, other: Name)
    ensures var pings, joins := Plan(clients, name, Ping, []), Plan(clients, name, JoinAgain(other), []);
      && |pings| == |joins| == (if name in clients then 1 else 0)
      && (forall x | x in pings :: x.reply == Pong && x.to == clients[name])
      && (forall x | x in joins :: x.reply == Error("Unexpected message received") && x.to == clients[name])
  {
  }

  /** The user list holds every listed name once. */
  lemma UserListComplete(clients: map<Name, nat>, name: Name, order: seq<Name>)
    requires GoodOrder(clients, name, ListUsers, order) && name in clients
    ensures var plan := Plan(clients, name, ListUsers, order);
      && |plan| == 1 && plan[0].reply.UserList?
      && (forall n :: n in plan[0].reply.users <==> n in clients)
      && |plan[0].reply.users| == |clients|
  {
    ListedAreMembers(order, clients.Keys);
    assert |clients.Keys| == |clients|;
  }

  lemma FinishLeaves(s: Server, t: nat)
    requires Enabled(s, Finish(t))
    ensures var pc := s.tasks[t].pc; var pc' := PcOf(Next(s, Finish(t)), t);
      if pc.failed || Bails(pc) then pc' == RemoveQueued(pc.name) else pc' == Serving(pc.name)
  {
  }

  /**
   After a reaction the client is on its way out if a send failed, or if it sent `Join`
   again while listed; otherwise it is served on.
   */
  lemma ReactionEnds(s: Server, t: nat, order: seq<Name>, acts: seq<Action>)
    requires Safe(s) && Enabled(s, Grant(t, order)) && s.tasks[t].pc.ReactQueued?
    requires Runs(Next(s, Grant(t, order)), acts) && Finish(t) !in acts
    requires Enabled(After(Next(s, Grant(t, order)), acts), Finish(t))
    ensures var s' := After(Next(s, Grant(t, order)), acts); var pc := s.tasks[t].pc;
      PcOf(Next(s', Finish(t)), t) ==
        if s'.tasks[t].pc.failed || (pc.msg.JoinAgain? && pc.name in s.clients) then RemoveQueued(pc.name)
        else Serving(pc.name)
  {
    hide Next, After, Runs, Enabled, Plan, QueueInv, MapLockInv, PlansInv, MutexInv, EntriesInv, TargetsInv, Bails;
    var a := Grant(t, order);
    StepKeepsSafe(s, a);
    GrantStartsReaction(s, t, order);
    ReactionFrozen(Next(s, a), acts, t);
    var s' := After(Next(s, a), acts);
    FinishesReacting(s', t);
    FinishLeaves(s', t);
  }

  lemma FinishesReacting(s: Server, t: nat)
    requires Enabled(s, Finish(t))
    ensures t in s.tasks && s.tasks[t].pc.Reacting? && NameOf(s.tasks[t].pc) == Some(s.tasks[t].pc.name)
  {
  }
}
