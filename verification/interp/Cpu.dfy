/** The CPU as an object, and the two interpreters that drive it. */
module Interpreter {
  import opened Options
  import opened Machine

  /** The store after an operation that changes nothing when it faults. */
  function Settled(s: Store, r: Result<Store>): End {
    match r
    case Ok(s') => End(s', None)
    case Err(f) => End(s, Some(f))
  }

  function SettledState(s: State, r: Result<State>): (State, Option<Fault>) {
    match r
    case Ok(s') => (s', None)
    case Err(f) => (s, Some(f))
  }

  class Cpu {
    const registers: array<Cell>
    const memory: array<Cell>
    var ip: nat
    var printed: seq<Value>    // everything `println!` was given

    ghost predicate Valid()
      reads this
    {
      registers != memory
    }

    ghost function Contents(): Store
      reads this, registers, memory
    {
      Store(registers[..], memory[..], printed)
    }

    ghost function Now(): State
      reads this, registers, memory
    {
      State(Contents(), ip)
    }

    /** Every cell starts as `cell`: 0 for the builder's `default`, `Undefined` for its `undefined`. */
    constructor (registerCount: nat, memorySize: nat, cell: Cell)
      ensures Valid() && fresh(registers) && fresh(memory)
      ensures |Contents().registers| == registerCount && |Contents().memory| == memorySize
      ensures forall p :: CellAt(Contents(), p).Some? ==> CellAt(Contents(), p).value == cell
      ensures ip == 0 && printed == []
    {
      registers := new Cell[registerCount](_ => cell);
      memory := new Cell[memorySize](_ => cell);
      ip := 0;
      printed := [];
    }

    method Read(expr: Operand) returns (r: Result<Value>)
      ensures r == Fetch(Contents(), expr)
    {
      match expr
      case Constant(value) => return Ok(value);
      case At(place) =>
        var cells, index := registers, 0;
        match place {
          case Register(i) => cells, index := registers, i;
          case Memory(a) => cells, index := memory, a;
        }
        if index >= cells.Length {
          return Err(ReadOutOfBounds(place));
        }
        match cells[index]
        case Defined(value) => return Ok(value);
        case Undefined => return Err(ReadUndefined(place));
    }

    method Write(place: Place, value: Value) returns (fault: Option<Fault>)
      requires Valid()
      modifies registers, memory
      ensures End(Contents(), fault) == old(Settled(Contents(), Put(Contents(), place, value)))
    {
      var cells, index := registers, 0;
      match place {
        case Register(i) => cells, index := registers, i;
        case Memory(a) => cells, index := memory, a;
      }
      if index >= cells.Length {
        return Some(WriteOutOfBounds(place));
      }
      cells[index] := Defined(value);
      return None;
    }
  }

  /** Stage 3's `execute_instruction`. */
  method ExecuteSimple(cpu: Cpu, instruction: Simple) returns (fault: Option<Fault>)
    requires cpu.Valid()
    modifies cpu`printed, cpu.registers, cpu.memory
    ensures End(cpu.Contents(), fault) == old(Settled(cpu.Contents(), Apply(cpu.Contents(), instruction)))
  {
    match instruction
    case Set(dest, src) =>
      var v := cpu.Read(src);
      if v.Err? {
        return Some(v.fault);
      }
      fault := cpu.Write(dest, v.value);
    case Add(dest, src) =>
      var v := cpu.Read(src);
      if v.Err? {
        return Some(v.fault);
      }
      var w := cpu.Read(At(dest));
      if w.Err? {
        return Some(w.fault);
      }
      var sum: int := v.value;
      sum := sum + w.value;
      if sum >= 256 {
        return Some(Overflow);
      }
      fault := cpu.Write(dest, sum);
    case Sub(dest, src) =>
      var v := cpu.Read(src);
      if v.Err? {
        return Some(v.fault);
      }
      var w := cpu.Read(At(dest));
      if w.Err? {
        return Some(w.fault);
      }
      if w.value < v.value {
        return Some(Overflow);
      }
      fault := cpu.Write(dest, w.value - v.value);
    case Print(src) =>
      var v := cpu.Read(src);
      if v.Err? {
        return Some(v.fault);
      }
      cpu.printed := cpu.printed + [v.value];
      fault := None;
  }

  /** Stage 3's `execute_program`. */
  method ExecuteStraight(cpu: Cpu, code: seq<Simple>) returns (fault: Option<Fault>)
    requires cpu.Valid()
    modifies cpu`printed, cpu.registers, cpu.memory
    ensures End(cpu.Contents(), fault) == old(Straight(cpu.Contents(), code))
  {
    ghost var start := cpu.Contents();
    for k := 0 to |code|
      invariant Straight(start, code) == Straight(cpu.Contents(), code[k..])
    {
      StraightStep(cpu.Contents(), code[k..]);
      assert code[k..][1..] == code[k + 1..];
      fault := ExecuteSimple(cpu, code[k]);
      if fault.Some? {
        return;
      }
    }
    fault := None;
  }

  lemma StraightStep(s: Store, code: seq<Simple>)
    requires code != []
    ensures var e := Settled(s, Apply(s, code[0]));
      Straight(s, code) == if e.fault.Some? then e else Straight(e.store, code[1..])
  {
  }

  /** Stage 4's `execute_instruction`. */
  method ExecuteInstruction(cpu: Cpu, program: Program, instruction: Instruction) returns (fault: Option<Fault>)
    requires cpu.Valid()
    modifies cpu, cpu.registers, cpu.memory
    ensures (cpu.Now(), fault) == old(SettledState(cpu.Now(), Step(program, cpu.Now(), instruction)))
  {
    var target := None;
    match instruction {
      case Do(op) =>
        fault := ExecuteSimple(cpu, op);
        if fault.Some? {
          return;
        }
      case JumpIfNotZero(src, name) =>
        var v := cpu.Read(src);
        if v.Err? {
          return Some(v.fault);
        }
        if v.value != 0 {
          if name !in program.labels {
            return Some(InvalidLabel(name));
          }
          target := Some(program.labels[name]);
        }
    }
    match target {
      case Some(index) => cpu.ip := index;
      case None => cpu.ip := cpu.ip + 1;
    }
    fault := None;
  }

  /** Stage 4's `execute_program`, cut off after `fuel` instructions. */
  method ExecuteProgram(cpu: Cpu, program: Program, fuel: nat) returns (outcome: Outcome)
    requires cpu.Valid()
    modifies cpu, cpu.registers, cpu.memory
    ensures (cpu.Now(), outcome) == old(Run(program, cpu.Now(), fuel))
  {
    ghost var start := cpu.Now();
    var left := fuel;
    while cpu.ip < |program.instructions|
      invariant Run(program, start, fuel) == Run(program, cpu.Now(), left)
      decreases left
    {
      if left == 0 {
        return OutOfFuel;
      }
      var fault := ExecuteInstruction(cpu, program, program.instructions[cpu.ip]);
      if fault.Some? {
        return Faulted(fault.value);
      }
      left := left - 1;
    }
    return Halted;
  }
}
