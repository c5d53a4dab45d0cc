/**
 The chat server: client tasks sharing one map from names to writers.

 Every acquisition and release of a lock is a step of its own.  The map sits behind a
 fair read-write lock, so a request joins a queue and only its head can be granted;
 every writer sits behind its own mutex.  A task's writer is named by the task.
 */
module ChatServer {
  import opened Options

  type Name = string

  datatype ClientMsg =
    | JoinAgain(name: Name)
    | Ping
    | ListUsers
    | SendDM(to: Name, text: string)
    | Broadcast(text: string)

  datatype Reply =
    | Welcome
    | Pong
    | UserList(users: seq<Name>)
    | Message(from: Name, text: string)
    | Error(reason: string)

  /** One send a reaction has to make: to the writer of task `to`. */
  datatype Sending = Sending(to: nat, reply: Reply)

  /** What a joining task does after its first answer: insert its name, or return. */
  datatype Ticket = Rejected | Admitted(name: Name, mark: nat)

  /** Where a client task is.  The comments say which locks it holds there. */
  datatype Pc =
    | Awaiting                                                            // none
    | CheckQueued(name: Name)                                             // none, in the queue
    | Checking(name: Name)                                                // map, shared
    | Answering(answer: Reply, ticket: Ticket)                            // none
    | AnswerLocked(answer: Reply, ticket: Ticket)                         // own writer
    | AnswerSent(ok: bool, ticket: Ticket)                                // own writer
    | InsertQueued(name: Name, mark: nat)                                 // none, in the queue
    | Inserting(name: Name, mark: nat)                                    // map, exclusive
    | Inserted(name: Name)                                                // map, exclusive
    | Serving(name: Name)                                                 // none
    | ReactQueued(name: Name, msg: ClientMsg)                             // none, in the queue
    | Reacting(name: Name, plan: seq<Sending>, k: nat, bail: bool, failed: bool)  // map, shared
    | Locked(name: Name, plan: seq<Sending>, k: nat, bail: bool)          // map, shared; one writer
    | Unlocking(name: Name, plan: seq<Sending>, k: nat, bail: bool, ok: bool)     // map, shared; one writer
    | RemoveQueued(name: Name)                                            // none, in the queue
    | Removing(name: Name)                                                // map, exclusive
    | Removed                                                             // map, exclusive
    | Done                                                                // none

  /** `reqs` counts the requests the task has started to react to. */
  datatype Task = Task(pc: Pc, reqs: nat)

  /** A send that completed; request 0 is the answer to the first message. */
  datatype Delivery = Delivery(to: nat, from: nat, req: nat, reply: Reply)

  /**
   `tasks` is the JoinSet.  `inserts` and `log` are histories: the names inserted and
   the sends completed so far.
   */
  datatype Server = Server(
    maxClients: nat,
    tasks: map<nat, Task>,
    nextId: nat,
    clients: map<Name, nat>,
    queue: seq<nat>,
    readers: set<nat>,
    writer: Option<nat>,
    mutexes: map<nat, nat>,
    inserts: seq<Name>,
    log: seq<Delivery>)

  /** Why a first message is refused. */
  datatype Cause = OtherMessage | StreamEnded | TimedOut

  function ReasonOf(cause: Cause): string {
    match cause
    case OtherMessage => "Unexpected message received"
    case StreamEnded => "Connection closed"
    case TimedOut => "Timed out waiting for Join"
  }

  datatype Action =
    | Accept                                      // a connection while there is room
    | Reap(t: nat)                                // join_next on a finished task
    | FirstJoin(t: nat, name: Name)               // the first message is Join
    | FirstWrong(t: nat, cause: Cause)            // no Join comes first
    | FirstError(t: nat)                          // the first receive fails
    | Grant(t: nat, order: seq<Name>)             // the head of the queue gets the map lock
    | Check(t: nat)
    | LockOwn(t: nat)
    | SendAnswer(t: nat, delivered: bool)
    | UnlockOwn(t: nat)
    | Insert(t: nat)
    | InsertUnlock(t: nat)
    | Request(t: nat, msg: ClientMsg)
    | Leave(t: nat)                               // end of stream or a receive error
    | LockWriter(t: nat)
    | SendNext(t: nat, delivered: bool)
    | UnlockWriter(t: nat)
    | Finish(t: nat)                              // the reaction returns
    | Remove(t: nat)
    | RemoveUnlock(t: nat)

  // ---- locks a task holds or waits for ------------------------------------------

  predicate Queued(pc: Pc) {
    pc.CheckQueued? || pc.InsertQueued? || pc.ReactQueued? || pc.RemoveQueued?
  }

  predicate HoldsShared(pc: Pc) {
    pc.Checking? || pc.Reacting? || pc.Locked? || pc.Unlocking?
  }

  predicate HoldsExclusive(pc: Pc) {
    pc.Inserting? || pc.Inserted? || pc.Removing? || pc.Removed?
  }

  /** The writer whose mutex task `t` holds. */
  function HeldWriter(t: nat, pc: Pc): Option<nat> {
    match pc
    case AnswerLocked(_, _) => Some(t)
    case AnswerSent(_, _) => Some(t)
    case Locked(_, plan, k, _) => if k < |plan| then Some(plan[k].to) else None
    case Unlocking(_, plan, k, _, _) => if k < |plan| then Some(plan[k].to) else None
    case _ => None
  }

  /** Inserted, and its name not yet removed. */
  predicate Present(pc: Pc) {
    || pc.Inserted? || pc.Serving? || pc.ReactQueued? || pc.Reacting? || pc.Locked? || pc.Unlocking?
    || pc.RemoveQueued? || pc.Removing?
  }

  // ---- reactions ------------------------------------------------------------------

  /** `order` lists a set without repetition; a hash map may be walked in any such order. */
  ghost predicate Lists(order: seq<Name>, names: set<Name>) {
    multiset(order) == multiset(names)
  }

  /** The names a reaction walks, if it walks the map. */
  ghost predicate GoodOrder(clients: map<Name, nat>, name: Name, msg: ClientMsg, order: seq<Name>) {
    match msg
    case ListUsers => Lists(order, clients.Keys)
    case Broadcast(_) => Lists(order, clients.Keys - {name})
    case _ => true
  }

  ghost function ToAll(clients: map<Name, nat>, order: seq<Name>, reply: Reply): (plan: seq<Sending>)
    requires forall n | n in order :: n in clients
    ensures |plan| == |order|
    ensures forall i | 0 <= i < |order| :: plan[i] == Sending(clients[order[i]], reply)
  {
    seq(|order|, i requires 0 <= i < |order| => Sending(clients[order[i]], reply))
  }

  /** The sends `react_client_msg` makes for a task called `name`, in order. */
  ghost function Plan(clients: map<Name, nat>, name: Name, msg: ClientMsg, order: seq<Name>): seq<Sending>
    requires GoodOrder(clients, name, msg, order)
  {
    match msg
    case Ping => if name in clients then [Sending(clients[name], Pong)] else []
    case ListUsers => if name in clients then [Sending(clients[name], UserList(order))] else []
    case Broadcast(text) =>
      ListedAreMembers(order, clients.Keys - {name});
      ToAll(clients, order, Message(name, text))
    case SendDM(to, text) =>
      if name in clients && to == name then [Sending(clients[name], Error("Cannot send a DM to yourself"))]
      else if name in clients && to !in clients then [Sending(clients[name], Error("User " + to + " does not exist"))]
      else if to in clients then [Sending(clients[to], Message(name, text))]
      else []
    case JoinAgain(_) => if name in clients then [Sending(clients[name], Error("Unexpected message received"))] else []
  }

  lemma ListedAreMembers(order: seq<Name>, names: set<Name>)
    requires Lists(order, names)
    ensures forall n :: n in order <==> n in names
    ensures |order| == |names|
  {
    forall n ensures n in order <==> n in names {
      assert n in multiset(order) <==> n in multiset(names);
    }
    assert |multiset(order)| == |multiset(names)|;
  }

  // ---- steps ------------------------------------------------------------------------

  /** The head of the queue can have the map lock: shared with readers only, exclusive alone. */
  ghost predicate Grantable(s: Server, t: nat)
    requires t in s.tasks
  {
    && s.queue != [] && s.queue[0] == t && s.writer.None?
    && (s.tasks[t].pc.InsertQueued? || s.tasks[t].pc.RemoveQueued? ==> s.readers == {})
  }

  ghost predicate Enabled(s: Server, a: Action) {
    match a
    case Accept => |s.tasks| < s.maxClients
    case Reap(t) => t in s.tasks && s.tasks[t].pc.Done?
    case FirstJoin(t, _) => t in s.tasks && s.tasks[t].pc.Awaiting?
    case FirstWrong(t, _) => t in s.tasks && s.tasks[t].pc.Awaiting?
    case FirstError(t) => t in s.tasks && s.tasks[t].pc.Awaiting?
    case Grant(t, order) =>
      && t in s.tasks && Queued(s.tasks[t].pc) && Grantable(s, t)
      && (s.tasks[t].pc.ReactQueued? ==> GoodOrder(s.clients, s.tasks[t].pc.name, s.tasks[t].pc.msg, order))
    case Check(t) => t in s.tasks && s.tasks[t].pc.Checking?
    case LockOwn(t) => t in s.tasks && s.tasks[t].pc.Answering? && t !in s.mutexes
    case SendAnswer(t, _) => t in s.tasks && s.tasks[t].pc.AnswerLocked?
    case UnlockOwn(t) => t in s.tasks && s.tasks[t].pc.AnswerSent?
    case Insert(t) => t in s.tasks && s.tasks[t].pc.Inserting?
    case InsertUnlock(t) => t in s.tasks && s.tasks[t].pc.Inserted?
    case Request(t, _) => t in s.tasks && s.tasks[t].pc.Serving?
    case Leave(t) => t in s.tasks && s.tasks[t].pc.Serving?
    case LockWriter(t) =>
      t in s.tasks && s.tasks[t].pc.Reacting? && !s.tasks[t].pc.failed &&
      var pc := s.tasks[t].pc;
      pc.k < |pc.plan| && pc.plan[pc.k].to !in s.mutexes
    case SendNext(t, _) => t in s.tasks && s.tasks[t].pc.Locked? && s.tasks[t].pc.k < |s.tasks[t].pc.plan|
    case UnlockWriter(t) => t in s.tasks && s.tasks[t].pc.Unlocking? && s.tasks[t].pc.k < |s.tasks[t].pc.plan|
    case Finish(t) =>
      t in s.tasks && s.tasks[t].pc.Reacting? && (s.tasks[t].pc.failed || s.tasks[t].pc.k >= |s.tasks[t].pc.plan|)
    case Remove(t) => t in s.tasks && s.tasks[t].pc.Removing?
    case RemoveUnlock(t) => t in s.tasks && s.tasks[t].pc.Removed?
  }

  ghost function Go(s: Server, t: nat, pc: Pc): Server
    requires t in s.tasks
  {
    s.(tasks := s.tasks[t := s.tasks[t].(pc := pc)])
  }

  /** Request the map lock: move to a waiting place and join the queue. */
  ghost function Enqueue(s: Server, t: nat, pc: Pc): Server
    requires t in s.tasks
  {
    Go(s, t, pc).(queue := s.queue + [t])
  }

  ghost function GrantTo(s: Server, t: nat, order: seq<Name>): Server
    requires Enabled(s, Grant(t, order))
  {
    var rest := s.(queue := s.queue[1..]);
    match s.tasks[t].pc
    case CheckQueued(name) => Go(rest, t, Checking(name)).(readers := s.readers + {t})
    case InsertQueued(name, mark) => Go(rest, t, Inserting(name, mark)).(writer := Some(t))
    case RemoveQueued(name) => Go(rest, t, Removing(name)).(writer := Some(t))
    case ReactQueued(name, msg) =>
      var plan := Plan(s.clients, name, msg, order);
      var pc := Reacting(name, plan, 0, msg.JoinAgain? && name in s.clients, false);
      rest.(tasks := s.tasks[t := Task(pc, s.tasks[t].reqs + 1)], readers := s.readers + {t})
  }

  ghost function Next(s: Server, a: Action): Server
    requires Enabled(s, a)
  {
    match a
    case Accept => s.(tasks := s.tasks[s.nextId := Task(Awaiting, 0)], nextId := s.nextId + 1)
    case Reap(t) => s.(tasks := s.tasks - {t})
    case FirstJoin(t, name) => Enqueue(s, t, CheckQueued(name))
    case FirstWrong(t, cause) => Go(s, t, Answering(Error(ReasonOf(cause)), Rejected))
    case FirstError(t) => Go(s, t, Done)
    case Grant(t, order) => GrantTo(s, t, order)
    case Check(t) =>
      var name := s.tasks[t].pc.name;
      var pc :=
        if name in s.clients then Answering(Error("Username already taken"), Rejected)
        else Answering(Welcome, Admitted(name, |s.inserts|));
      Go(s, t, pc).(readers := s.readers - {t})
    case LockOwn(t) =>
      Go(s, t, AnswerLocked(s.tasks[t].pc.answer, s.tasks[t].pc.ticket)).(mutexes := s.mutexes[t := t])
    case SendAnswer(t, delivered) =>
      var pc := s.tasks[t].pc;
      Go(s, t, AnswerSent(delivered, pc.ticket))
        .(log := if delivered then s.log + [Delivery(t, t, 0, pc.answer)] else s.log)
    case UnlockOwn(t) =>
      var pc, free := s.tasks[t].pc, s.(mutexes := s.mutexes - {t});
      if pc.ok && pc.ticket.Admitted? then Enqueue(free, t, InsertQueued(pc.ticket.name, pc.ticket.mark))
      else Go(free, t, Done)
    case Insert(t) =>
      var name := s.tasks[t].pc.name;
      Go(s, t, Inserted(name)).(clients := s.clients[name := t], inserts := s.inserts + [name])
    case InsertUnlock(t) => Go(s, t, Serving(s.tasks[t].pc.name)).(writer := None)
    case Request(t, msg) => Enqueue(s, t, ReactQueued(s.tasks[t].pc.name, msg))
    case Leave(t) => Enqueue(s, t, RemoveQueued(s.tasks[t].pc.name))
    case LockWriter(t) =>
      var pc := s.tasks[t].pc;
      Go(s, t, Locked(pc.name, pc.plan, pc.k, pc.bail)).(mutexes := s.mutexes[pc.plan[pc.k].to := t])
    case SendNext(t, delivered) =>
      var pc := s.tasks[t].pc;
      var sent := Delivery(pc.plan[pc.k].to, t, s.tasks[t].reqs, pc.plan[pc.k].reply);
      Go(s, t, Unlocking(pc.name, pc.plan, pc.k, pc.bail, delivered))
        .(log := if delivered then s.log + [sent] else s.log)
    case UnlockWriter(t) =>
      var pc := s.tasks[t].pc;
      Go(s, t, Reacting(pc.name, pc.plan, if pc.ok then pc.k + 1 else pc.k, pc.bail, !pc.ok))
        .(mutexes := s.mutexes - {pc.plan[pc.k].to})
    case Finish(t) =>
      var pc, free := s.tasks[t].pc, s.(readers := s.readers - {t});
      if pc.failed || pc.bail then Enqueue(free, t, RemoveQueued(pc.name)) else Go(free, t, Serving(pc.name))
    case Remove(t) => Go(s, t, Removed).(clients := s.clients - {s.tasks[t].pc.name})
    case RemoveUnlock(t) => Go(s, t, Done).(writer := None)
  }

  ghost function Init(maxClients: nat): Server {
    Server(maxClients, map[], 0, map[], [], {}, None, map[], [], [])
  }

  ghost predicate Runs(s: Server, acts: seq<Action>)
    decreases |acts|
  {
    acts == [] || (Enabled(s, acts[0]) && Runs(Next(s, acts[0]), acts[1..]))
  }

  ghost function After(s: Server, acts: seq<Action>): Server
    requires Runs(s, acts)
    decreases |acts|
  {
    if acts == [] then s else After(Next(s, acts[0]), acts[1..])
  }
}
