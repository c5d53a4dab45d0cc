/**
 What becomes of a client that joins: it is welcomed exactly when its name is not listed
 while it holds the shared lock, it is told so, and it is served from then on until it
 leaves; any other first message, or a listed name, is refused and forgotten.
 */
module ChatJoining {
  import opened Options
  import opened ChatServer
  import opened ChatSafety
  import opened ChatRegistry
  import opened ChatLocks
  import opened ChatDelivery
  import opened ChatQuiescence

  // ---- the answer ------------------------------------------------------------------

  /** The ticket belongs to a client admitted under `name`, or to one refused. */
  predicate TicketFor(ticket: Ticket, name: Name, admitted: bool) {
    if admitted then ticket.Admitted? && ticket.name == name else ticket.Rejected?
  }

  /** The client is to get `answer`, and has got nothing yet. */
  ghost predicate Expects(s: Server, t: nat, name: Name, answer: Reply, admitted: bool) {
    var pc := PcOf(s, t);
    || (pc == Checking(name) && admitted == (name !in s.clients)
        && answer == if admitted then Welcome else Error("Username already taken"))
    || ((pc.Answering? || pc.AnswerLocked?) && pc.answer == answer && TicketFor(pc.ticket, name, admitted))
  }

  lemma SharedFreezesMap(s: Server, a: Action, t: nat)
    requires Fresh(s) && MapLockInv(s) && Enabled(s, a) && HoldsShared(PcOf(s, t))
    ensures Next(s, a).clients == s.clients
  {
    hide Next, Enabled, HoldsShared, HoldsExclusive, PlanOf;
    MapChangesAlone(s, a);
    assert t in s.readers <==> HoldsShared(PcOf(s, t));
    assert s.writer == Some(Actor(s, a)) <==> HoldsExclusive(PcOf(s, Actor(s, a)));
  }

  lemma CheckExpects(s: Server, a: Action, name: Name, answer: Reply, admitted: bool)
    requires Enabled(s, a) && a.Check? && Expects(s, a.t, name, answer, admitted)
    ensures Expects(Next(s, a), a.t, name, answer, admitted)
  {
  }

  lemma LockOwnExpects(s: Server, a: Action, name: Name, answer: Reply, admitted: bool)
    requires Enabled(s, a) && a.LockOwn? && Expects(s, a.t, name, answer, admitted)
    ensures Expects(Next(s, a), a.t, name, answer, admitted)
  {
  }

  /** Nothing else moves a client that waits for its answer. */
  lemma ExpectingMoves(s: Server, a: Action, name: Name, answer: Reply, admitted: bool)
    requires Enabled(s, a) && !a.Accept? && Expects(s, a.t, name, answer, admitted)
    ensures a.Check? || a.LockOwn? || a.SendAnswer?
  {
  }

  lemma ActorExpects(s: Server, a: Action, name: Name, answer: Reply, admitted: bool)
    requires Enabled(s, a) && !a.Accept? && !a.SendAnswer? && Expects(s, a.t, name, answer, admitted)
    ensures Expects(Next(s, a), a.t, name, answer, admitted)
  {
    hide Next, Enabled, Expects;
    ExpectingMoves(s, a, name, answer, admitted);
    if a.Check? {
      CheckExpects(s, a, name, answer, admitted);
    } else {
      LockOwnExpects(s, a, name, answer, admitted);
    }
  }

  /** Until the answer is sent, what it will be does not change. */
  lemma StepKeepsExpects(s: Server, a: Action, t: nat, name: Name, answer: Reply, admitted: bool)
    requires Fresh(s) && MapLockInv(s) && Enabled(s, a) && Expects(s, t, name, answer, admitted)
    requires !(a.SendAnswer? && a.t == t)
    ensures Expects(Next(s, a), t, name, answer, admitted)
  {
    hide Next, Enabled, MapLockInv;
    ExpectingIsTask(s, t, name, answer, admitted);
    if Actor(s, a) == t {
      ActorExpects(s, a, name, answer, admitted);
    } else {
      OnlyActorMoves(s, a);
      if PcOf(s, t).Checking? {
        SharedFreezesMap(s, a, t);
      }
    }
  }

  lemma ExpectingIsTask(s: Server, t: nat, name: Name, answer: Reply, admitted: bool)
    requires Fresh(s) && Expects(s, t, name, answer, admitted)
    ensures t in s.tasks && t < s.nextId && Unanswered(PcOf(s, t))
  {
  }

  lemma SendingAnswers(s: Server, t: nat, d: bool, name: Name, answer: Reply, admitted: bool)
    requires Enabled(s, SendAnswer(t, d)) && Expects(s, t, name, answer, admitted)
    requires SentBy(s.log, t, 0) == []
    ensures var s' := Next(s, SendAnswer(t, d)); var pc := PcOf(s', t);
      && pc.AnswerSent? && pc.ok == d && TicketFor(pc.ticket, name, admitted)
      && SentBy(s'.log, t, 0) == if d then [Sending(t, answer)] else []
  {
    hide SentBy;
    SentByAppend(s.log, Delivery(t, t, 0, answer), t, 0);
  }

  lemma NothingSentYet(s: Server, t: nat)
    requires TaskLogs(s) && t in s.tasks && Unanswered(PcOf(s, t))
    ensures SentBy(s.log, t, 0) == []
  {
    hide SentBy;
    assert TaskLog(s.log, t, s.tasks[t].pc, s.tasks[t].reqs);
  }

  // ---- after the answer ---------------------------------------------------------------

  /** The client has its answer, or will never get one. */
  ghost predicate Answered(s: Server, t: nat) {
    t < s.nextId && !Unanswered(PcOf(s, t))
  }

  lemma ActorStaysAnswered(s: Server, a: Action)
    requires Enabled(s, a) && !a.Accept? && !Unanswered(PcOf(s, a.t))
    ensures !Unanswered(PcOf(Next(s, a), a.t)) && !a.SendAnswer?
  {
    hide Plan;
  }

  lemma StepStaysAnswered(s: Server, a: Action, t: nat)
    requires Safe(s) && TaskLogs(s) && Enabled(s, a) && Answered(s, t)
    ensures Answered(Next(s, a), t) && (forall d :: a != SendAnswer(t, d))
    ensures SentBy(Next(s, a).log, t, 0) == SentBy(s.log, t, 0)
  {
    hide Next, Enabled, Unanswered, SentBy, TaskLogs, QueueInv, MapLockInv, PlansInv, MutexInv, EntriesInv, TargetsInv;
    StepKeys(s, a);
    OnlyActorMoves(s, a);
    if Actor(s, a) == t {
      ActorStaysAnswered(s, a);
    }
    if Sends(a) {
      SendStepLog(s, a);
      if a.t == t {
        LaterRequest(s, a);
      }
      SentByAppend(s.log, SendOf(s, a), t, 0);
    } else {
      QuietStepLog(s, a);
    }
  }

  lemma LaterRequest(s: Server, a: Action)
    requires TaskLogs(s) && Enabled(s, a) && Sends(a) && !a.SendAnswer?
    ensures SendOf(s, a).req > 0
  {
    hide SentBy;
    assert TaskLog(s.log, a.t, s.tasks[a.t].pc, s.tasks[a.t].reqs);
  }

  /** Nothing a task does later changes or repeats its answer. */
  lemma {:induction false} AnsweredOnce(s: Server, acts: seq<Action>, t: nat)
    requires Safe(s) && LogInv(s) && Runs(s, acts) && Answered(s, t)
    ensures Answered(After(s, acts), t) && SentBy(After(s, acts).log, t, 0) == SentBy(s.log, t, 0)
    ensures forall d :: SendAnswer(t, d) !in acts
    decreases |acts|
  {
    hide Next, Enabled, Answered, SentBy, Safe, TaskLogs, LogBounds, LogOrdered, WelcomeFirst;
    if acts != [] {
      StepStaysAnswered(s, acts[0], t);
      StepKeepsSafe(s, acts[0]);
      StepKeepsLogInv(s, acts[0]);
      AnsweredOnce(Next(s, acts[0]), acts[1..], t);
      forall d ensures SendAnswer(t, d) !in acts {
        assert acts == [acts[0]] + acts[1..];
      }
    }
  }

  /** A step that comes before the answer of `t`: no insertion, removal, reaction or departure of its own. */
  predicate BeforeAnswer(a: Action, t: nat) {
    a != Insert(t) && a != Remove(t) && a != Leave(t) && a != Finish(t)
  }

  lemma StepBeforeAnswer(s: Server, a: Action, t: nat, name: Name, answer: Reply, admitted: bool)
    requires Enabled(s, a) && Expects(s, t, name, answer, admitted)
    ensures BeforeAnswer(a, t)
  {
  }

  lemma SafeParts(s: Server)
    requires Safe(s) && LogInv(s)
    ensures Fresh(s) && MapLockInv(s) && TaskLogs(s)
  {
  }

  /** Where a client stands once its answer was sent, or failed to be. */
  ghost predicate JustAnswered(s: Server, t: nat, d: bool, name: Name, answer: Reply, admitted: bool) {
    var pc := PcOf(s, t);
    && t in s.tasks && t < s.nextId && pc.AnswerSent? && pc.ok == d && TicketFor(pc.ticket, name, admitted)
    && SentBy(s.log, t, 0) == if d then [Sending(t, answer)] else []
  }

  lemma AnswerIsSent(s: Server, t: nat, d: bool, name: Name, answer: Reply, admitted: bool)
    requires Safe(s) && LogInv(s) && Enabled(s, SendAnswer(t, d)) && Expects(s, t, name, answer, admitted)
    ensures var s' := Next(s, SendAnswer(t, d));
      Safe(s') && LogInv(s') && JustAnswered(s', t, d, name, answer, admitted) && Answered(s', t)
  {
    hide Next, Enabled, Expects, Safe, LogInv, SentBy, TicketFor;
    var a := SendAnswer(t, d);
    SafeParts(s);
    ExpectingIsTask(s, t, name, answer, admitted);
    NothingSentYet(s, t);
    SendingAnswers(s, t, d, name, answer, admitted);
    StepKeys(s, a);
    StepKeepsSafe(s, a);
    StepKeepsLogInv(s, a);
  }

  lemma FirstInRun(acts: seq<Action>, a: Action)
    requires a in acts && a !in acts[1..]
    ensures acts[0] == a
  {
    assert acts == [acts[0]] + acts[1..];
  }

  lemma LaterInRun(acts: seq<Action>, a: Action)
    requires a in acts && acts[0] != a
    ensures a in acts[1..]
  {
    assert acts == [acts[0]] + acts[1..];
  }

  /** Cuts a run at the answer of `t`: the state just after it, and the rest of the run. */
  lemma {:induction false} CutAtAnswer(s: Server, acts: seq<Action>, t: nat, d: bool, name: Name, answer: Reply, admitted: bool)
    returns (cut: Server, rest: seq<Action>)
    requires Safe(s) && LogInv(s) && Runs(s, acts) && Expects(s, t, name, answer, admitted) && SendAnswer(t, d) in acts
    ensures Safe(cut) && LogInv(cut) && JustAnswered(cut, t, d, name, answer, admitted) && Answered(cut, t)
    ensures Runs(cut, rest) && After(cut, rest) == After(s, acts)
    ensures forall a | a in acts && !BeforeAnswer(a, t) :: a in rest
    ensures forall a | a in rest :: a in acts
    decreases |acts|
  {
    hide Next, Enabled, Expects, Safe, LogInv, BeforeAnswer, JustAnswered, Answered;
    var a := acts[0];
    StepBeforeAnswer(s, a, t, name, answer, admitted);
    if a.SendAnswer? && a.t == t {
      AnswerIsSent(s, t, a.delivered, name, answer, admitted);
      AnsweredOnce(Next(s, a), acts[1..], t);
      FirstInRun(acts, SendAnswer(t, d));
      cut, rest := Next(s, a), acts[1..];
    } else {
      SafeParts(s);
      StepKeepsExpects(s, a, t, name, answer, admitted);
      StepKeepsSafe(s, a);
      StepKeepsLogInv(s, a);
      LaterInRun(acts, SendAnswer(t, d));
      cut, rest := CutAtAnswer(Next(s, a), acts[1..], t, d, name, answer, admitted);
    }
    forall b | b in acts && !BeforeAnswer(b, t) ensures b in rest {
      if b != a {
        LaterInRun(acts, b);
      }
    }
  }

  /** Whoever expects an answer gets it, once, or nothing if the send failed. */
  lemma AnswerArrives(s: Server, acts: seq<Action>, t: nat, d: bool, name: Name, answer: Reply, admitted: bool)
    requires Safe(s) && LogInv(s) && Runs(s, acts) && Expects(s, t, name, answer, admitted) && SendAnswer(t, d) in acts
    ensures SentBy(After(s, acts).log, t, 0) == if d then [Sending(t, answer)] else []
  {
    hide Next, Enabled, Expects, Safe, LogInv, SentBy, Runs, After;
    var cut, rest := CutAtAnswer(s, acts, t, d, name, answer, admitted);
    AnsweredOnce(cut, rest, t);
  }

  // ---- the life of a welcomed client ------------------------------------------------------

  /** Welcomed under `name`, and its name not yet removed. */
  predicate OnTheWay(pc: Pc, name: Name) {
    || (pc.AnswerSent? && pc.ok && TicketFor(pc.ticket, name, true))
    || (pc.InsertQueued? && pc.name == name) || (pc.Inserting? && pc.name == name)
    || NameOf(pc) == Some(name)
  }

  predicate Gone(pc: Pc) {
    pc.Removed? || pc.Done?
  }

  predicate Leaving(pc: Pc) {
    pc.RemoveQueued? || pc.Removing?
  }

  lemma GrantOnTheWay(s: Server, a: Action, name: Name)
    requires Enabled(s, a) && a.Grant? && OnTheWay(PcOf(s, a.t), name)
    ensures OnTheWay(PcOf(Next(s, a), a.t), name)
    ensures Leaving(PcOf(Next(s, a), a.t)) <==> Leaving(PcOf(s, a.t))
  {
    hide Plan;
  }

  lemma WriterStepOnTheWay(s: Server, a: Action, name: Name)
    requires Enabled(s, a) && TouchesWriters(a) && OnTheWay(PcOf(s, a.t), name)
    ensures OnTheWay(PcOf(Next(s, a), a.t), name) && !Leaving(PcOf(Next(s, a), a.t))
  {
  }

  lemma OtherStepOnTheWay(s: Server, a: Action, name: Name)
    requires Enabled(s, a) && !TouchesWriters(a) && !a.Grant? && !a.Accept? && OnTheWay(PcOf(s, a.t), name)
    ensures if a.Remove? then Gone(PcOf(Next(s, a), a.t)) else OnTheWay(PcOf(Next(s, a), a.t), name)
    ensures Leaving(PcOf(Next(s, a), a.t)) ==> a.Leave? || a.Finish?
    ensures a.Remove? ==> Leaving(PcOf(s, a.t))
  {
    hide GrantTo;
  }

  lemma StepOnTheWay(s: Server, a: Action, t: nat, name: Name)
    requires Fresh(s) && Enabled(s, a) && t < s.nextId && OnTheWay(PcOf(s, t), name)
    ensures if a == Remove(t) then Gone(PcOf(Next(s, a), t)) else OnTheWay(PcOf(Next(s, a), t), name)
    ensures a == Remove(t) ==> Leaving(PcOf(s, t))
    ensures Leaving(PcOf(Next(s, a), t)) ==> Leaving(PcOf(s, t)) || a == Leave(t) || a == Finish(t)
    ensures t < Next(s, a).nextId
  {
    hide Next, Enabled, OnTheWay, Leaving, Gone;
    StepKeys(s, a);
    OnlyActorMoves(s, a);
    if Actor(s, a) == t {
      if a.Grant? {
        GrantOnTheWay(s, a, name);
      } else if TouchesWriters(a) {
        WriterStepOnTheWay(s, a, name);
      } else {
        OtherStepOnTheWay(s, a, name);
      }
    }
  }

  lemma ActorStaysGone(s: Server, a: Action)
    requires Enabled(s, a) && !a.Accept? && Gone(PcOf(s, a.t))
    ensures Gone(PcOf(Next(s, a), a.t)) && !a.Insert? && !a.Remove?
  {
    hide GrantTo;
  }

  lemma {:induction false} GoneForGood(s: Server, acts: seq<Action>, t: nat)
    requires Safe(s) && Runs(s, acts) && t < s.nextId && Gone(PcOf(s, t))
    ensures Gone(PcOf(After(s, acts), t)) && Insert(t) !in acts
    decreases |acts|
  {
    hide Next, Enabled, Gone, QueueInv, MapLockInv, PlansInv, MutexInv, EntriesInv, TargetsInv;
    if acts != [] {
      var a := acts[0];
      StepKeys(s, a);
      OnlyActorMoves(s, a);
      if Actor(s, a) == t {
        ActorStaysGone(s, a);
      }
      StepKeepsSafe(s, a);
      GoneForGood(Next(s, a), acts[1..], t);
      assert acts == [a] + acts[1..];
    }
  }

  /** A welcomed client keeps its place until it removes its name, and is gone from then on. */
  lemma {:induction false} KeepsPlace(s: Server, acts: seq<Action>, t: nat, name: Name)
    requires Safe(s) && Runs(s, acts) && t < s.nextId && OnTheWay(PcOf(s, t), name)
    ensures if Remove(t) in acts then Gone(PcOf(After(s, acts), t)) else OnTheWay(PcOf(After(s, acts), t), name)
    decreases |acts|
  {
    hide Next, Enabled, Gone, OnTheWay, Leaving, QueueInv, MapLockInv, PlansInv, MutexInv, EntriesInv, TargetsInv;
    if acts != [] {
      var a := acts[0];
      StepOnTheWay(s, a, t, name);
      StepKeepsSafe(s, a);
      assert acts == [a] + acts[1..];
      if a == Remove(t) {
        GoneForGood(Next(s, a), acts[1..], t);
      } else {
        KeepsPlace(Next(s, a), acts[1..], t, name);
      }
    }
  }

  /** It removes its name only after its client left, or a reaction of its own sent it away. */
  lemma {:induction false} RemovesAfterLeaving(s: Server, acts: seq<Action>, t: nat, name: Name)
    requires Safe(s) && Runs(s, acts) && t < s.nextId && OnTheWay(PcOf(s, t), name) && !Leaving(PcOf(s, t))
    ensures Remove(t) in acts ==> Leave(t) in acts || Finish(t) in acts
    decreases |acts|
  {
    hide Next, Enabled, Gone, OnTheWay, Leaving, QueueInv, MapLockInv, PlansInv, MutexInv, EntriesInv, TargetsInv;
    if acts != [] {
      var a := acts[0];
      StepOnTheWay(s, a, t, name);
      StepKeepsSafe(s, a);
      assert acts == [a] + acts[1..];
      if a != Leave(t) && a != Finish(t) {
        RemovesAfterLeaving(Next(s, a), acts[1..], t, name);
      }
    }
  }

  /** Refused, or unreachable for its answer. */
  predicate TurnedAway(pc: Pc) {
    (pc.AnswerSent? && (!pc.ok || pc.ticket.Rejected?)) || pc.Done?
  }

  lemma ActorStaysTurnedAway(s: Server, a: Action)
    requires Enabled(s, a) && !a.Accept? && TurnedAway(PcOf(s, a.t))
    ensures TurnedAway(PcOf(Next(s, a), a.t)) && !a.Insert?
  {
    hide GrantTo;
  }

  lemma {:induction false} TurnedAwayForGood(s: Server, acts: seq<Action>, t: nat)
    requires Safe(s) && Runs(s, acts) && t < s.nextId && TurnedAway(PcOf(s, t))
    ensures TurnedAway(PcOf(After(s, acts), t)) && Insert(t) !in acts
    decreases |acts|
  {
    hide Next, Enabled, TurnedAway, QueueInv, MapLockInv, PlansInv, MutexInv, EntriesInv, TargetsInv;
    if acts != [] {
      var a := acts[0];
      StepKeys(s, a);
      OnlyActorMoves(s, a);
      if Actor(s, a) == t {
        ActorStaysTurnedAway(s, a);
      }
      StepKeepsSafe(s, a);
      TurnedAwayForGood(Next(s, a), acts[1..], t);
      assert acts == [a] + acts[1..];
    }
  }

  // ---- joining ---------------------------------------------------------------------------

  /** The server can do nothing on its own. */
  ghost predicate Quiet(s: Server) {
    forall a :: Internal(a) ==> !Enabled(s, a)
  }

  lemma CheckingExpects(s: Server, t: nat, name: Name)
    requires PcOf(s, t) == Checking(name)
    ensures name !in s.clients ==> Expects(s, t, name, Welcome, true)
    ensures name in s.clients ==> Expects(s, t, name, Error("Username already taken"), false)
  {
  }

  /**
   A client whose answer arrives is told `Welcome` if and only if its name was not listed
   while it held the shared lock; otherwise that the name is taken.
   */
  lemma JoinAnswered(s: Server, acts: seq<Action>, t: nat, name: Name)
    requires Safe(s) && LogInv(s) && PcOf(s, t) == Checking(name)
    requires Runs(s, acts) && SendAnswer(t, true) in acts
    ensures SentBy(After(s, acts).log, t, 0) == [Sending(t, Welcome)] <==> name !in s.clients
    ensures name in s.clients ==> SentBy(After(s, acts).log, t, 0) == [Sending(t, Error("Username already taken"))]
  {
    hide Runs, After, Safe, LogInv, SentBy, Expects;
    CheckingExpects(s, t, name);
    if name in s.clients {
      AnswerArrives(s, acts, t, true, name, Error("Username already taken"), false);
    } else {
      AnswerArrives(s, acts, t, true, name, Welcome, true);
    }
  }

  lemma JustWelcomed(s: Server, t: nat, name: Name)
    requires JustAnswered(s, t, true, name, Welcome, true)
    ensures t < s.nextId && OnTheWay(PcOf(s, t), name) && !Leaving(PcOf(s, t))
  {
  }

  lemma AtRestPlaces(pc: Pc, name: Name)
    requires AtRest(pc)
    ensures OnTheWay(pc, name) ==> pc == Serving(name)
    ensures Gone(pc) || TurnedAway(pc) ==> pc == Done
  {
  }

  /**
   A client welcomed under its name is served under it once the server is at rest, unless
   it removed its name; and it does that only after it left or a reaction sent it away.
   */
  lemma WelcomedIsServed(s: Server, acts: seq<Action>, t: nat, name: Name)
    requires Safe(s) && LogInv(s) && PcOf(s, t) == Checking(name) && name !in s.clients
    requires Runs(s, acts) && SendAnswer(t, true) in acts && Quiet(After(s, acts))
    ensures PcOf(After(s, acts), t) == if Remove(t) in acts then Done else Serving(name)
    ensures Remove(t) in acts ==> Leave(t) in acts || Finish(t) in acts
  {
    hide Runs, After, Safe, LogInv, SentBy, Expects, JustAnswered, OnTheWay, Leaving, Gone, AtRest, Answered;
    CheckingExpects(s, t, name);
    var cut, rest := CutAtAnswer(s, acts, t, true, name, Welcome, true);
    JustWelcomed(cut, t, name);
    KeepsPlace(cut, rest, t, name);
    RemovesAfterLeaving(cut, rest, t, name);
    RunKeepsSafe(s, acts);
    RestMeansIdle(After(s, acts));
    AtRestPlaces(PcOf(After(s, acts), t), name);
    assert !BeforeAnswer(Remove(t), t);
  }

  lemma JustTurnedAway(s: Server, t: nat, d: bool, name: Name, answer: Reply, admitted: bool)
    requires JustAnswered(s, t, d, name, answer, admitted) && (!d || !admitted)
    ensures t < s.nextId && TurnedAway(PcOf(s, t))
  {
  }

  /** A client that is refused, or does not get its answer, is forgotten without ever being listed. */
  lemma RefusedIsForgotten(s: Server, acts: seq<Action>, t: nat, d: bool, name: Name, answer: Reply, admitted: bool)
    requires Safe(s) && LogInv(s) && Expects(s, t, name, answer, admitted) && (!d || !admitted)
    requires Runs(s, acts) && SendAnswer(t, d) in acts && Quiet(After(s, acts))
    ensures PcOf(After(s, acts), t) == Done && Insert(t) !in acts
  {
    hide Runs, After, Safe, LogInv, SentBy, Expects, JustAnswered, TurnedAway, AtRest, Answered;
    var cut, rest := CutAtAnswer(s, acts, t, d, name, answer, admitted);
    JustTurnedAway(cut, t, d, name, answer, admitted);
    TurnedAwayForGood(cut, rest, t);
    RunKeepsSafe(s, acts);
    RestMeansIdle(After(s, acts));
    AtRestPlaces(PcOf(After(s, acts), t), name);
    assert !BeforeAnswer(Insert(t), t);
  }

  lemma TakenNameRefused(s: Server, acts: seq<Action>, t: nat, d: bool, name: Name)
    requires Safe(s) && LogInv(s) && PcOf(s, t) == Checking(name) && name in s.clients
    requires Runs(s, acts) && SendAnswer(t, d) in acts && Quiet(After(s, acts))
    ensures PcOf(After(s, acts), t) == Done && Insert(t) !in acts
  {
    hide Runs, After, Safe, LogInv, Expects;
    CheckingExpects(s, t, name);
    RefusedIsForgotten(s, acts, t, d, name, Error("Username already taken"), false);
  }

  // ---- the first message ---------------------------------------------------------------------

  lemma WrongExpects(s: Server, t: nat, cause: Cause)
    requires Enabled(s, FirstWrong(t, cause))
    ensures Expects(Next(s, FirstWrong(t, cause)), t, "", Error(ReasonOf(cause)), false)
  {
  }

  /** A first message other than `Join` is answered with its error, and the client is forgotten. */
  lemma WrongFirstMessage(s: Server, acts: seq<Action>, t: nat, cause: Cause, d: bool)
    requires Safe(s) && LogInv(s) && Enabled(s, FirstWrong(t, cause))
    requires Runs(Next(s, FirstWrong(t, cause)), acts) && SendAnswer(t, d) in acts
    ensures var s' := After(Next(s, FirstWrong(t, cause)), acts);
      && SentBy(s'.log, t, 0) == (if d then [Sending(t, Error(ReasonOf(cause)))] else [])
      && (Quiet(s') ==> PcOf(s', t) == Done && Insert(t) !in acts)
  {
    hide Next, Enabled, Runs, After, Safe, LogInv, Expects, SentBy, Quiet;
    var a := FirstWrong(t, cause);
    WrongExpects(s, t, cause);
    StepKeepsSafe(s, a);
    StepKeepsLogInv(s, a);
    AnswerArrives(Next(s, a), acts, t, d, "", Error(ReasonOf(cause)), false);
    if Quiet(After(Next(s, a), acts)) {
      RefusedIsForgotten(Next(s, a), acts, t, d, "", Error(ReasonOf(cause)), false);
    }
  }

  lemma ErrorGoes(s: Server, t: nat)
    requires Enabled(s, FirstError(t))
    ensures PcOf(Next(s, FirstError(t)), t) == Done && Next(s, FirstError(t)).log == s.log
    ensures t in s.tasks && Unanswered(PcOf(s, t)) && Next(s, FirstError(t)).nextId == s.nextId
  {
  }

  /** A client whose first message cannot be received is told nothing and is forgotten at once. */
  lemma ErrorFirstMessage(s: Server, acts: seq<Action>, t: nat)
    requires Safe(s) && LogInv(s) && Enabled(s, FirstError(t)) && Runs(Next(s, FirstError(t)), acts)
    ensures var s' := After(Next(s, FirstError(t)), acts);
      PcOf(s', t) == Done && Insert(t) !in acts && SentBy(s'.log, t, 0) == []
  {
    hide Next, Enabled, Runs, After, LogInv, SentBy, QueueInv, MapLockInv, PlansInv, MutexInv, EntriesInv, TargetsInv;
    var a := FirstError(t);
    ErrorGoes(s, t);
    SafeParts(s);
    NothingSentYet(s, t);
    StepKeepsSafe(s, a);
    StepKeepsLogInv(s, a);
    AnsweredOnce(Next(s, a), acts, t);
    DoneForGood(Next(s, a), acts, t);
  }

  lemma ActorStaysDone(s: Server, a: Action)
    requires Enabled(s, a) && !a.Accept? && PcOf(s, a.t).Done?
    ensures PcOf(Next(s, a), a.t).Done? && !a.Insert?
  {
    hide GrantTo;
  }

  lemma {:induction false} DoneForGood(s: Server, acts: seq<Action>, t: nat)
    requires Safe(s) && Runs(s, acts) && t < s.nextId && PcOf(s, t).Done?
    ensures PcOf(After(s, acts), t).Done? && Insert(t) !in acts
    decreases |acts|
  {
    hide Next, Enabled, QueueInv, MapLockInv, PlansInv, MutexInv, EntriesInv, TargetsInv;
    if acts != [] {
      var a := acts[0];
      StepKeys(s, a);
      OnlyActorMoves(s, a);
      if Actor(s, a) == t {
        ActorStaysDone(s, a);
      }
      StepKeepsSafe(s, a);
      DoneForGood(Next(s, a), acts[1..], t);
      assert acts == [a] + acts[1..];
    }
  }

  /** A `Join` is checked under the name it carried. */
  lemma {:induction false} JoinIsChecked(s: Server, acts: seq<Action>, t: nat, name: Name)
    requires Safe(s) && Runs(s, acts) && PcOf(s, t) == CheckQueued(name)
    requires forall a | a in acts :: !(a.Grant? && a.t == t)
    ensures PcOf(After(s, acts), t) == CheckQueued(name)
    ensures forall order | Enabled(After(s, acts), Grant(t, order)) ::
      PcOf(Next(After(s, acts), Grant(t, order)), t) == Checking(name)
    decreases |acts|
  {
    if acts == [] {
      hide Plan;
    } else {
      hide Next, Enabled, QueueInv, MapLockInv, PlansInv, MutexInv, EntriesInv, TargetsInv;
      var a := acts[0];
      OnlyActorMoves(s, a);
      NewcomerIsNew(s, t);
      if Actor(s, a) == t {
        QueuedWaitsForGrant(s, a);
      }
      StepKeepsSafe(s, a);
      JoinIsChecked(Next(s, a), acts[1..], t, name);
    }
  }

  lemma NewcomerIsNew(s: Server, t: nat)
    requires Fresh(s) && Queued(PcOf(s, t))
    ensures t != s.nextId
  {
  }

  /** A task in the queue is moved by nothing but its grant. */
  lemma QueuedWaitsForGrant(s: Server, a: Action)
    requires Enabled(s, a) && !a.Accept? && Queued(PcOf(s, a.t))
    ensures a.Grant?
  {
  }

  lemma JoinQueues(s: Server, t: nat, name: Name)
    requires Enabled(s, FirstJoin(t, name))
    ensures PcOf(Next(s, FirstJoin(t, name)), t) == CheckQueued(name)
  {
  }
}
