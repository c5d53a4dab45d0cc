/**
 The assembly interpreter: the machine, straight-line programs (stage 3) and programs
 with labels and jumps (stage 4).  Values are `u8`; an addition or subtraction that
 leaves `u8` panics, which the fault `Overflow` stands for.
 */
module Machine {
  import opened Options

  type Value = x: int | 0 <= x < 256
  type Address = x: int | 0 <= x < 0x1_0000_0000

  datatype Cell = Undefined | Defined(value: Value)

  datatype Place = Register(index: Value) | Memory(address: Address)

  datatype Operand = At(place: Place) | Constant(value: Value)

  datatype Fault =
    | ReadUndefined(place: Place)
    | ReadOutOfBounds(place: Place)
    | WriteOutOfBounds(place: Place)
    | InvalidLabel(name: string)
    | Overflow

  datatype Result<+T> = Ok(value: T) | Err(fault: Fault)

  /** What a program can see and change, but for the instruction pointer. */
  datatype Store = Store(registers: seq<Cell>, memory: seq<Cell>, printed: seq<Value>)

  /** The cell of a place, if there is one. */
  function CellAt(s: Store, p: Place): Option<Cell> {
    match p
    case Register(i) => if i < |s.registers| then Some(s.registers[i]) else None
    case Memory(a) => if a < |s.memory| then Some(s.memory[a]) else None
  }

  function Fetch(s: Store, o: Operand): Result<Value> {
    match o
    case Constant(v) => Ok(v)
    case At(p) =>
      match CellAt(s, p)
      case None => Err(ReadOutOfBounds(p))
      case Some(Undefined) => Err(ReadUndefined(p))
      case Some(Defined(v)) => Ok(v)
  }

  function Put(s: Store, p: Place, v: Value): Result<Store> {
    match p
    case Register(i) =>
      if i < |s.registers| then Ok(s.(registers := s.registers[i := Defined(v)])) else Err(WriteOutOfBounds(p))
    case Memory(a) =>
      if a < |s.memory| then Ok(s.(memory := s.memory[a := Defined(v)])) else Err(WriteOutOfBounds(p))
  }

  /** Writing gives the place its value and leaves every other place alone. */
  lemma PutFetch(s: Store, p: Place, v: Value, q: Place)
    requires Put(s, p, v).Ok?
    ensures var s' := Put(s, p, v).value;
      CellAt(s', q) == (if q == p then Some(Defined(v)) else CellAt(s, q)) && s'.printed == s.printed
  {
  }

  function Narrow(v: int): Result<Value> {
    if 0 <= v < 256 then Ok(v) else Err(Overflow)
  }

  // ---- stage 3: straight lines ----------------------------------------------------------

  datatype Simple =
    | Set(dest: Place, src: Operand)
    | Add(dest: Place, src: Operand)
    | Sub(dest: Place, src: Operand)
    | Print(src: Operand)

  /** The source operand is read before the destination, and nothing changes on a fault. */
  function Apply(s: Store, i: Simple): Result<Store> {
    match Fetch(s, i.src)
    case Err(f) => Err(f)
    case Ok(v) =>
      match i
      case Print(_) => Ok(s.(printed := s.printed + [v]))
      case Set(d, _) => Put(s, d, v)
      case _ =>
        match Fetch(s, At(i.dest))
        case Err(f) => Err(f)
        case Ok(w) =>
          match Narrow(if i.Add? then v + w else w - v)
          case Err(f) => Err(f)
          case Ok(r) => Put(s, i.dest, r)
  }

  /** `Sub` undoes `Add` if and only if the destination is not its own source, or held 0. */
  lemma SubUndoesAdd(s: Store, dest: Place, src: Operand)
    requires Apply(s, Add(dest, src)).Ok?
    ensures Apply(Apply(s, Add(dest, src)).value, Sub(dest, src)) == Ok(s)
      <==> (src != At(dest) || CellAt(s, dest) == Some(Defined(0)))
  {
    var v, w := Fetch(s, src).value, Fetch(s, At(dest)).value;
    PutFetch(s, dest, v + w, dest);
    if src != At(dest) {
      if src.At? {
        PutFetch(s, dest, v + w, src.place);
      }
      PutBack(s, dest, v + w, w);
    } else {
      PutFetch(Apply(s, Add(dest, src)).value, dest, 0, dest);
      if w == 0 {
        PutBack(s, dest, 0, 0);
      }
    }
  }

  lemma PutBack(s: Store, p: Place, v: Value, w: Value)
    requires CellAt(s, p) == Some(Defined(w)) && Put(s, p, v).Ok?
    ensures Put(Put(s, p, v).value, p, w) == Ok(s)
  {
    match p
    case Register(i) => assert s.registers[i := Defined(v)][i := Defined(w)] == s.registers;
    case Memory(a) => assert s.memory[a := Defined(v)][a := Defined(w)] == s.memory;
  }

  /** How an execution ends: where the store got to, and the fault if there was one. */
  datatype End = End(store: Store, fault: Option<Fault>)

  function Straight(s: Store, code: seq<Simple>): End
    decreases |code|
  {
    if code == [] then End(s, None)
    else match Apply(s, code[0])
      case Err(f) => End(s, Some(f))
      case Ok(s') => Straight(s', code[1..])
  }

  // ---- stage 4: labels and jumps ----------------------------------------------------------

  datatype Instruction = Do(op: Simple) | JumpIfNotZero(src: Operand, target: string)

  datatype Program = Program(instructions: seq<Instruction>, labels: map<string, nat>)

  datatype State = State(store: Store, ip: nat)

  function Step(p: Program, s: State, i: Instruction): Result<State> {
    match i
    case Do(op) =>
      (match Apply(s.store, op)
       case Err(f) => Err(f)
       case Ok(store) => Ok(State(store, s.ip + 1)))
    case JumpIfNotZero(src, target) =>
      match Fetch(s.store, src)
      case Err(f) => Err(f)
      case Ok(v) =>
        if v == 0 then Ok(s.(ip := s.ip + 1))
        else if target in p.labels then Ok(s.(ip := p.labels[target]))
        else Err(InvalidLabel(target))
  }

  datatype Outcome = Halted | Faulted(fault: Fault) | OutOfFuel

  /** At most `fuel` instructions of a run. */
  function Run(p: Program, s: State, fuel: nat): (State, Outcome)
    decreases fuel
  {
    if s.ip >= |p.instructions| then (s, Halted)
    else if fuel == 0 then (s, OutOfFuel)
    else match Step(p, s, p.instructions[s.ip])
      case Err(f) => (s, Faulted(f))
      case Ok(s') => Run(p, s', fuel - 1)
  }

  /** More fuel changes nothing once a run has ended. */
  lemma {:induction false} RunEnds(p: Program, s: State, fuel: nat, more: nat)
    requires Run(p, s, fuel).1 != OutOfFuel && fuel <= more
    ensures Run(p, s, more) == Run(p, s, fuel)
    decreases fuel
  {
    if s.ip < |p.instructions| && fuel > 0 {
      match Step(p, s, p.instructions[s.ip])
      case Err(_) =>
      case Ok(s') => RunEnds(p, s', fuel - 1, more - 1);
    }
  }

  // ---- stage 4 refines stage 3 --------------------------------------------------------------

  predicate JumpFree(p: Program) {
    forall k | 0 <= k < |p.instructions| :: p.instructions[k].Do?
  }

  /** The straight line from `ip` on. */
  function Line(p: Program, ip: nat): seq<Simple>
    requires JumpFree(p)
    decreases |p.instructions| - ip
  {
    if ip >= |p.instructions| then [] else [p.instructions[ip].op] + Line(p, ip + 1)
  }

  function OutcomeOf(e: End): Outcome {
    match e.fault
    case None => Halted
    case Some(f) => Faulted(f)
  }

  /** Without jumps stage 4 leaves the store, the printed values and the result that stage 3 does. */
  lemma {:induction false} RefinesStraight(p: Program, s: State, fuel: nat)
    requires JumpFree(p) && fuel >= |p.instructions| - s.ip
    ensures var (s', o) := Run(p, s, fuel); var e := Straight(s.store, Line(p, s.ip));
      s'.store == e.store && o == OutcomeOf(e)
    decreases fuel
  {
    if s.ip < |p.instructions| {
      var op := p.instructions[s.ip].op;
      assert Line(p, s.ip)[1..] == Line(p, s.ip + 1);
      match Apply(s.store, op)
      case Err(_) =>
      case Ok(store) => RefinesStraight(p, State(store, s.ip + 1), fuel - 1);
    }
  }

  /** A straight program as stage 4 instructions. */
  function Lift(code: seq<Simple>): seq<Instruction> {
    seq(|code|, k requires 0 <= k < |code| => Do(code[k]))
  }

  lemma {:induction false} LineOfLift(code: seq<Simple>, labels: map<string, nat>, ip: nat)
    requires ip <= |code|
    ensures JumpFree(Program(Lift(code), labels)) && Line(Program(Lift(code), labels), ip) == code[ip..]
    decreases |code| - ip
  {
    if ip < |code| {
      LineOfLift(code, labels, ip + 1);
      assert code[ip..] == [code[ip]] + code[ip + 1..];
    }
  }

  /** The same statement for whole programs started at 0, whatever labels they carry. */
  lemma Refinement(code: seq<Simple>, labels: map<string, nat>, store: Store, fuel: nat)
    requires fuel >= |code|
    ensures var (s', o) := Run(Program(Lift(code), labels), State(store, 0), fuel); var e := Straight(store, code);
      s'.store == e.store && o == OutcomeOf(e)
  {
    LineOfLift(code, labels, 0);
    assert code[0..] == code;
    RefinesStraight(Program(Lift(code), labels), State(store, 0), fuel);
  }

  // ---- control ----------------------------------------------------------------------------------

  /** Every label names an instruction or the end. */
  predicate LabelsInside(p: Program) {
    forall l | l in p.labels :: p.labels[l] <= |p.instructions|
  }

  lemma StepStaysInside(p: Program, s: State)
    requires LabelsInside(p) && s.ip < |p.instructions|
    ensures var r := Step(p, s, p.instructions[s.ip]); r.Ok? ==> r.value.ip <= |p.instructions|
  {
  }

  /** A run never leaves the program, and halts exactly at its end. */
  lemma {:induction false} RunStaysInside(p: Program, s: State, fuel: nat)
    requires LabelsInside(p) && s.ip <= |p.instructions|
    ensures var (s', o) := Run(p, s, fuel);
      s'.ip <= |p.instructions| && (o.Halted? <==> s'.ip == |p.instructions|)
    decreases fuel
  {
    if s.ip < |p.instructions| && fuel > 0 {
      StepStaysInside(p, s);
      match Step(p, s, p.instructions[s.ip])
      case Err(_) =>
      case Ok(s') => RunStaysInside(p, s', fuel - 1);
    }
  }

  /** Every jump with a known label goes forward. */
  predicate Forward(p: Program) {
    forall k | 0 <= k < |p.instructions| && p.instructions[k].JumpIfNotZero? ::
      p.instructions[k].target in p.labels ==> k < p.labels[p.instructions[k].target]
  }

  /** Without backward jumps a run ends within as many steps as there are instructions left. */
  lemma {:induction false} ForwardHalts(p: Program, s: State, fuel: nat)
    requires Forward(p) && fuel >= |p.instructions| - s.ip
    ensures Run(p, s, fuel).1 != OutOfFuel
    decreases fuel
  {
    if s.ip < |p.instructions| {
      match Step(p, s, p.instructions[s.ip])
      case Err(_) =>
      case Ok(s') => ForwardHalts(p, s', fuel - 1);
    }
  }

  /** A jump to itself on a constant that is not zero never ends. */
  lemma {:induction false} BackwardLoops(v: Value, name: string, store: Store, fuel: nat)
    requires v != 0
    ensures Run(Program([JumpIfNotZero(Constant(v), name)], map[name := 0]), State(store, 0), fuel).1 == OutOfFuel
    decreases fuel
  {
    var p := Program([JumpIfNotZero(Constant(v), name)], map[name := 0]);
    if fuel > 0 {
      assert Step(p, State(store, 0), p.instructions[0]) == Ok(State(store, 0));
      BackwardLoops(v, name, store, fuel - 1);
    }
  }
}
