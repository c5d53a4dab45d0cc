/**
 The race the two critical sections allow: two clients with one name both pass the
 check, both are welcomed and both insert; when the first leaves, the second serves on
 without being listed.
 */
module ChatRace {
  import opened Options
  import opened ChatServer
  import opened ChatSafety
  import opened ChatRegistry


  lemma {:induction false} RunAppend(s: Server, acts: seq<Action>, more: seq<Action>)
    requires Runs(s, acts) && Runs(After(s, acts), more)
    ensures Runs(s, acts + more) && After(s, acts + more) == After(After(s, acts), more)
    decreases |acts|
  {
    hide Next, Enabled;
    if acts == [] {
      assert acts + more == more;
    } else {
      RunAppend(Next(s, acts[0]), acts[1..], more);
      assert (acts + more)[1..] == acts[1..] + more;
    }
  }

  lemma OneMore(s: Server, acts: seq<Action>, a: Action)
    requires Runs(s, acts) && Enabled(After(s, acts), a)
    ensures Runs(s, acts + [a]) && After(s, acts + [a]) == Next(After(s, acts), a)
  {
    hide Next, Enabled;
    var s' := After(s, acts);
    assert [a][1..] == [];
    assert Runs(s', [a]) && After(s', [a]) == Next(s', a);
    RunAppend(s, acts, [a]);
  }

  /** Two tasks, numbered 0 and 1, at the given places with nothing queued and no writer locked. */
  ghost function Pair(p: Pc, q: Pc, clients: map<Name, nat>, inserts: seq<Name>, log: seq<Delivery>): Server {
    Server(2, map[0 := Task(p, 0), 1 := Task(q, 0)], 2, clients, [], {}, None, map[], inserts, log)
  }

  const ANN: Name := "ann"
  const W0: Delivery := Delivery(0, 0, 0, Welcome)
  const W1: Delivery := Delivery(1, 1, 0, Welcome)

  /** From `s` some run leads to `s'`. */
  ghost predicate Reaches(s: Server, s': Server) {
    exists acts :: Runs(s, acts) && After(s, acts) == s'
  }

  lemma ReachesSelf(s: Server)
    ensures Reaches(s, s)
  {
    assert Runs(s, []) && After(s, []) == s;
  }

  lemma ReachesStep(s: Server, s': Server, a: Action)
    requires Reaches(s, s') && Enabled(s', a)
    ensures Reaches(s, Next(s', a))
  {
    hide Next, Enabled;
    var acts :| Runs(s, acts) && After(s, acts) == s';
    OneMore(s, acts, a);
    assert Runs(s, acts + [a]);
  }

  lemma BothArrive(s: Server)
    requires Reaches(s, Init(2))
    ensures Reaches(s, Pair(Awaiting, Awaiting, map[], [], []))
  {
    hide Reaches, GrantTo, Plan;
    ReachesStep(s, Init(2), Accept);
    var s1 := Next(Init(2), Accept);
    ReachesStep(s, s1, Accept);
    assert Next(s1, Accept) == Pair(Awaiting, Awaiting, map[], [], []);
  }

  /** The first client asks for the shared lock, and checks its name against an empty map. */
  lemma FirstAsks(s: Server)
    requires Reaches(s, Pair(Awaiting, Awaiting, map[], [], []))
    ensures Reaches(s, Pair(CheckQueued(ANN), Awaiting, map[], [], []).(queue := [0]))
  {
    hide Reaches, Plan, GrantTo;
    var s0 := Pair(Awaiting, Awaiting, map[], [], []);
    ReachesStep(s, s0, FirstJoin(0, ANN));
    assert Next(s0, FirstJoin(0, ANN)) ==
      Pair(CheckQueued(ANN), Awaiting, map[], [], []).(queue := [0]);
  }

  lemma FirstChecks(s: Server)
    requires Reaches(s, Pair(CheckQueued(ANN), Awaiting, map[], [], []).(queue := [0]))
    ensures Reaches(s, Pair(Answering(Welcome, Admitted(ANN, 0)), Awaiting, map[], [], []))
  {
    hide Reaches, Plan;
    var s0 := Pair(CheckQueued(ANN), Awaiting, map[], [], []).(queue := [0]);
    ReachesStep(s, s0, Grant(0, []));
    var s1 := Next(s0, Grant(0, []));
    ReachesStep(s, s1, Check(0));
    assert Next(s1, Check(0)) ==
      Pair(Answering(Welcome, Admitted(ANN, 0)), Awaiting, map[], [], []);
  }

  /** So does the second, before the first has inserted. */
  lemma SecondAsks(s: Server, p: Pc)
    requires Reaches(s, Pair(p, Awaiting, map[], [], []))
    ensures Reaches(s, Pair(p, CheckQueued(ANN), map[], [], []).(queue := [1]))
  {
    hide Reaches, Plan, GrantTo;
    var s0 := Pair(p, Awaiting, map[], [], []);
    ReachesStep(s, s0, FirstJoin(1, ANN));
    assert Next(s0, FirstJoin(1, ANN)) ==
      Pair(p, CheckQueued(ANN), map[], [], []).(queue := [1]);
  }

  lemma SecondChecks(s: Server, p: Pc)
    requires Reaches(s, Pair(p, CheckQueued(ANN), map[], [], []).(queue := [1]))
    ensures Reaches(s, Pair(p, Answering(Welcome, Admitted(ANN, 0)), map[], [], []))
  {
    hide Reaches, Plan;
    var s0 := Pair(p, CheckQueued(ANN), map[], [], []).(queue := [1]);
    ReachesStep(s, s0, Grant(1, []));
    var s1 := Next(s0, Grant(1, []));
    ReachesStep(s, s1, Check(1));
    assert Next(s1, Check(1)) ==
      Pair(p, Answering(Welcome, Admitted(ANN, 0)), map[], [], []);
  }

  lemma FirstWelcomed(s: Server, q: Pc)
    requires Reaches(s, Pair(Answering(Welcome, Admitted(ANN, 0)), q, map[], [], []))
    ensures Reaches(s, Pair(AnswerSent(true, Admitted(ANN, 0)), q, map[], [], [W0]).(mutexes := map[0 := 0]))
  {
    hide Reaches, Plan, GrantTo;
    var s0 := Pair(Answering(Welcome, Admitted(ANN, 0)), q, map[], [], []);
    ReachesStep(s, s0, LockOwn(0));
    var s1 := Next(s0, LockOwn(0));
    ReachesStep(s, s1, SendAnswer(0, true));
    assert Next(s1, SendAnswer(0, true)) ==
      Pair(AnswerSent(true, Admitted(ANN, 0)), q, map[], [], [W0]).(mutexes := map[0 := 0]);
  }

  lemma FirstGoesOn(s: Server, q: Pc)
    requires Reaches(s, Pair(AnswerSent(true, Admitted(ANN, 0)), q, map[], [], [W0]).(mutexes := map[0 := 0]))
    ensures Reaches(s, Pair(InsertQueued(ANN, 0), q, map[], [], [W0]).(queue := [0]))
  {
    hide Reaches, Plan, GrantTo;
    var s0 := Pair(AnswerSent(true, Admitted(ANN, 0)), q, map[], [], [W0]).(mutexes := map[0 := 0]);
    ReachesStep(s, s0, UnlockOwn(0));
    assert Next(s0, UnlockOwn(0)) ==
      Pair(InsertQueued(ANN, 0), q, map[], [], [W0]).(queue := [0]);
  }

  lemma FirstGetsLock(s: Server, q: Pc)
    requires Reaches(s, Pair(InsertQueued(ANN, 0), q, map[], [], [W0]).(queue := [0]))
    ensures Reaches(s, Pair(Inserting(ANN, 0), q, map[], [], [W0]).(writer := Some(0)))
  {
    hide Reaches, Plan;
    var s0 := Pair(InsertQueued(ANN, 0), q, map[], [], [W0]).(queue := [0]);
    ReachesStep(s, s0, Grant(0, []));
    assert Next(s0, Grant(0, [])) ==
      Pair(Inserting(ANN, 0), q, map[], [], [W0]).(writer := Some(0));
  }

  lemma FirstInserts(s: Server, q: Pc)
    requires Reaches(s, Pair(Inserting(ANN, 0), q, map[], [], [W0]).(writer := Some(0)))
    ensures Reaches(s, Pair(Serving(ANN), q, map[ANN := 0], [ANN], [W0]))
  {
    hide Reaches, Plan, GrantTo;
    var s0 := Pair(Inserting(ANN, 0), q, map[], [], [W0]).(writer := Some(0));
    ReachesStep(s, s0, Insert(0));
    var s1 := Next(s0, Insert(0));
    ReachesStep(s, s1, InsertUnlock(0));
    assert Next(s1, InsertUnlock(0)) ==
      Pair(Serving(ANN), q, map[ANN := 0], [ANN], [W0]);
  }

  lemma SecondWelcomed(s: Server)
    requires Reaches(s, Pair(Serving(ANN), Answering(Welcome, Admitted(ANN, 0)), map[ANN := 0], [ANN], [W0]))
    ensures Reaches(s, Pair(Serving(ANN), AnswerSent(true, Admitted(ANN, 0)), map[ANN := 0], [ANN], [W0, W1]).(mutexes := map[1 := 1]))
  {
    hide Reaches, Plan, GrantTo;
    var s0 := Pair(Serving(ANN), Answering(Welcome, Admitted(ANN, 0)), map[ANN := 0], [ANN], [W0]);
    ReachesStep(s, s0, LockOwn(1));
    var s1 := Next(s0, LockOwn(1));
    ReachesStep(s, s1, SendAnswer(1, true));
    assert Next(s1, SendAnswer(1, true)) ==
      Pair(Serving(ANN), AnswerSent(true, Admitted(ANN, 0)), map[ANN := 0], [ANN], [W0, W1]).(mutexes := map[1 := 1]);
  }

  lemma SecondGoesOn(s: Server)
    requires Reaches(s, Pair(Serving(ANN), AnswerSent(true, Admitted(ANN, 0)), map[ANN := 0], [ANN], [W0, W1]).(mutexes := map[1 := 1]))
    ensures Reaches(s, Pair(Serving(ANN), InsertQueued(ANN, 0), map[ANN := 0], [ANN], [W0, W1]).(queue := [1]))
  {
    hide Reaches, Plan, GrantTo;
    var s0 := Pair(Serving(ANN), AnswerSent(true, Admitted(ANN, 0)), map[ANN := 0], [ANN], [W0, W1]).(mutexes := map[1 := 1]);
    ReachesStep(s, s0, UnlockOwn(1));
    assert Next(s0, UnlockOwn(1)) ==
      Pair(Serving(ANN), InsertQueued(ANN, 0), map[ANN := 0], [ANN], [W0, W1]).(queue := [1]);
  }

  lemma SecondGetsLock(s: Server)
    requires Reaches(s, Pair(Serving(ANN), InsertQueued(ANN, 0), map[ANN := 0], [ANN], [W0, W1]).(queue := [1]))
    ensures Reaches(s, Pair(Serving(ANN), Inserting(ANN, 0), map[ANN := 0], [ANN], [W0, W1]).(writer := Some(1)))
  {
    hide Reaches, Plan;
    var s0 := Pair(Serving(ANN), InsertQueued(ANN, 0), map[ANN := 0], [ANN], [W0, W1]).(queue := [1]);
    ReachesStep(s, s0, Grant(1, []));
    assert Next(s0, Grant(1, [])) ==
      Pair(Serving(ANN), Inserting(ANN, 0), map[ANN := 0], [ANN], [W0, W1]).(writer := Some(1));
  }

  lemma SecondInserts(s: Server)
    requires Reaches(s, Pair(Serving(ANN), Inserting(ANN, 0), map[ANN := 0], [ANN], [W0, W1]).(writer := Some(1)))
    ensures Reaches(s, Pair(Serving(ANN), Serving(ANN), map[ANN := 1], [ANN, ANN], [W0, W1]))
  {
    hide Reaches, Plan, GrantTo;
    var s0 := Pair(Serving(ANN), Inserting(ANN, 0), map[ANN := 0], [ANN], [W0, W1]).(writer := Some(1));
    ReachesStep(s, s0, Insert(1));
    var s1 := Next(s0, Insert(1));
    ReachesStep(s, s1, InsertUnlock(1));
    assert Next(s1, InsertUnlock(1)) ==
      Pair(Serving(ANN), Serving(ANN), map[ANN := 1], [ANN, ANN], [W0, W1]);
  }

  lemma FirstLeaves(s: Server)
    requires Reaches(s, Pair(Serving(ANN), Serving(ANN), map[ANN := 1], [ANN, ANN], [W0, W1]))
    ensures Reaches(s, Pair(Removing(ANN), Serving(ANN), map[ANN := 1], [ANN, ANN], [W0, W1]).(writer := Some(0)))
  {
    hide Reaches, Plan;
    var s0 := Pair(Serving(ANN), Serving(ANN), map[ANN := 1], [ANN, ANN], [W0, W1]);
    ReachesStep(s, s0, Leave(0));
    var s1 := Next(s0, Leave(0));
    ReachesStep(s, s1, Grant(0, []));
    assert Next(s1, Grant(0, [])) ==
      Pair(Removing(ANN), Serving(ANN), map[ANN := 1], [ANN, ANN], [W0, W1]).(writer := Some(0));
  }

  lemma FirstRemoves(s: Server)
    requires Reaches(s, Pair(Removing(ANN), Serving(ANN), map[ANN := 1], [ANN, ANN], [W0, W1]).(writer := Some(0)))
    ensures Reaches(s, Pair(Done, Serving(ANN), map[], [ANN, ANN], [W0, W1]))
  {
    hide Reaches, Plan, GrantTo;
    var s0 := Pair(Removing(ANN), Serving(ANN), map[ANN := 1], [ANN, ANN], [W0, W1]).(writer := Some(0));
    ReachesStep(s, s0, Remove(0));
    var s1 := Next(s0, Remove(0));
    ReachesStep(s, s1, RemoveUnlock(0));
    assert Next(s1, RemoveUnlock(0)) ==
      Pair(Done, Serving(ANN), map[], [ANN, ANN], [W0, W1]);
  }

  /** Some run ends with a welcomed client that is being served and is not in the map. */
  lemma ServedButUnlisted()
    ensures exists acts :: Runs(Init(2), acts) && var s := After(Init(2), acts);
      PcOf(s, 1) == Serving(ANN) && W1 in s.log && ANN !in s.clients && !Bijective(s)
  {
    hide Reaches, Next, Enabled, Runs, After;
    var s := Init(2);
    ReachesSelf(s);
    var waiting := Answering(Welcome, Admitted(ANN, 0));
    BothArrive(s);
    FirstAsks(s);
    FirstChecks(s);
    SecondAsks(s, waiting);
    SecondChecks(s, waiting);
    FirstWelcomed(s, waiting);
    FirstGoesOn(s, waiting);
    FirstGetsLock(s, waiting);
    FirstInserts(s, waiting);
    SecondWelcomed(s);
    SecondGoesOn(s);
    SecondGetsLock(s);
    SecondInserts(s);
    FirstLeaves(s);
    FirstRemoves(s);
    EndOfRace(s);
  }

  lemma EndOfRace(s: Server)
    requires Reaches(s, Pair(Done, Serving(ANN), map[], [ANN, ANN], [W0, W1]))
    ensures exists acts :: Runs(s, acts) && var e := After(s, acts);
      PcOf(e, 1) == Serving(ANN) && W1 in e.log && ANN !in e.clients && !Bijective(e)
  {
    hide Next, Enabled, Runs, After;
    var e := Pair(Done, Serving(ANN), map[], [ANN, ANN], [W0, W1]);
    assert W1 == e.log[1];
    assert NameOf(PcOf(e, 1)) == Some(ANN);
    var acts :| Runs(s, acts) && After(s, acts) == e;
  }
}
