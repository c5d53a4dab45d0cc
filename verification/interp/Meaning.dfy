/** What each instruction does, told by the cells it leaves, and a loop that counts down. */
module Meaning {
  import opened Options
  import opened Machine

  /** The number an operand stands for, if it has one. */
  function NumberAt(s: Store, o: Operand): Option<int> {
    if o.Constant? then Some(o.value)
    else if CellAt(s, o.place).Some? && CellAt(s, o.place).value.Defined? then Some(CellAt(s, o.place).value.value)
    else None
  }

  /** Place `d` holds `v`; every other place and the output are as before. */
  ghost predicate OnlyWrites(s: Store, s': Store, d: Place, v: int) {
    && 0 <= v < 256 && s'.printed == s.printed
    && forall q :: CellAt(s', q) == if q == d then Some(Defined(v)) else CellAt(s, q)
  }

  lemma PutWrites(s: Store, d: Place, v: Value)
    ensures Put(s, d, v).Ok? <==> CellAt(s, d).Some?
    ensures Put(s, d, v).Ok? ==> OnlyWrites(s, Put(s, d, v).value, d, v)
    ensures Put(s, d, v).Err? ==> Put(s, d, v).fault == WriteOutOfBounds(d)
  {
    if Put(s, d, v).Ok? {
      forall q ensures CellAt(Put(s, d, v).value, q) == if q == d then Some(Defined(v)) else CellAt(s, q) {
        PutFetch(s, d, v, q);
      }
    }
  }

  /** `MOV` succeeds exactly when its source has a value and its destination exists. */
  lemma MoveMeaning(s: Store, d: Place, src: Operand)
    ensures Apply(s, Set(d, src)).Ok? <==> NumberAt(s, src).Some? && CellAt(s, d).Some?
    ensures Apply(s, Set(d, src)).Ok? ==> OnlyWrites(s, Apply(s, Set(d, src)).value, d, NumberAt(s, src).value)
  {
    hide Put;
    if NumberAt(s, src).Some? {
      PutWrites(s, d, NumberAt(s, src).value);
    }
  }

  /** `ADD` succeeds exactly when both operands have values and their sum fits; the destination gets the sum. */
  lemma AddMeaning(s: Store, d: Place, src: Operand)
    ensures var v, w := NumberAt(s, src), NumberAt(s, At(d));
      && (Apply(s, Add(d, src)).Ok? <==> v.Some? && w.Some? && w.value + v.value <= 255)
      && (Apply(s, Add(d, src)).Ok? ==> OnlyWrites(s, Apply(s, Add(d, src)).value, d, w.value + v.value))
  {
    hide Put;
    var v, w := NumberAt(s, src), NumberAt(s, At(d));
    if v.Some? && w.Some? && w.value + v.value <= 255 {
      PutWrites(s, d, w.value + v.value);
    }
  }

  /** `SUB` succeeds exactly when both operands have values and the difference is not negative. */
  lemma SubMeaning(s: Store, d: Place, src: Operand)
    ensures var v, w := NumberAt(s, src), NumberAt(s, At(d));
      && (Apply(s, Sub(d, src)).Ok? <==> v.Some? && w.Some? && w.value - v.value >= 0)
      && (Apply(s, Sub(d, src)).Ok? ==> OnlyWrites(s, Apply(s, Sub(d, src)).value, d, w.value - v.value))
  {
    hide Put;
    var v, w := NumberAt(s, src), NumberAt(s, At(d));
    if v.Some? && w.Some? && w.value - v.value >= 0 {
      PutWrites(s, d, w.value - v.value);
    }
  }

  /** `PRINT` appends its number to the output and touches no cell. */
  lemma PrintMeaning(s: Store, src: Operand)
    ensures Apply(s, Print(src)).Ok? <==> NumberAt(s, src).Some?
    ensures Apply(s, Print(src)).Ok? ==> var s' := Apply(s, Print(src)).value;
      && |s'.printed| == |s.printed| + 1 && s.printed <= s'.printed
      && s'.printed[|s.printed|] == NumberAt(s, src).value
      && forall q :: CellAt(s', q) == CellAt(s, q)
  {
  }

  function Unreadable(s: Store, p: Place): Fault {
    if CellAt(s, p).None? then ReadOutOfBounds(p) else ReadUndefined(p)
  }

  /** Which fault is reported: the source's, then the destination's, then an overflow. */
  lemma FaultMeaning(s: Store, i: Simple)
    requires Apply(s, i).Err?
    ensures Apply(s, i).fault ==
      if NumberAt(s, i.src).None? then (if i.src.At? then Unreadable(s, i.src.place) else Overflow)
      else if i.Set? then WriteOutOfBounds(i.dest)
      else if i.Add? || i.Sub? then (if NumberAt(s, At(i.dest)).None? then Unreadable(s, i.dest) else Overflow)
      else Overflow
    ensures i.Print? || NumberAt(s, i.src).None? ==> i.src.At?
  {
  }

  /** Two programs run one after the other are one program. */
  lemma {:induction false} StraightAppend(s: Store, first: seq<Simple>, second: seq<Simple>)
    ensures var e := Straight(s, first);
      Straight(s, first + second) == if e.fault.Some? then e else Straight(e.store, second)
    decreases |first|
  {
    hide Apply;
    if first == [] {
      assert first + second == second;
    } else {
      assert (first + second)[1..] == first[1..] + second;
      if Apply(s, first[0]).Ok? {
        StraightAppend(Apply(s, first[0]).value, first[1..], second);
      }
    }
  }

  // ---- jumps ---------------------------------------------------------------------------

  /** `JNZ` goes on to the next instruction on 0, whatever its label; else to its label, if there is one. */
  lemma JumpMeaning(p: Program, s: State, src: Operand, target: string)
    ensures var r, v := Step(p, s, JumpIfNotZero(src, target)), NumberAt(s.store, src);
      && (v == Some(0) ==> r == Ok(State(s.store, s.ip + 1)))
      && (v.Some? && v.value != 0 && target in p.labels ==> r == Ok(State(s.store, p.labels[target])))
      && (v.Some? && v.value != 0 && target !in p.labels ==> r == Err(InvalidLabel(target)))
      && (v.None? ==> src.At? && r == Err(Unreadable(s.store, src.place)))
  {
  }

  /** Any other instruction goes on to the next one, or faults. */
  lemma StepGoesOn(p: Program, s: State, op: Simple)
    ensures var r := Step(p, s, Do(op));
      if Apply(s.store, op).Ok? then r == Ok(State(Apply(s.store, op).value, s.ip + 1)) else r.Err?
  {
  }

  function Countdown(r: Value, name: string, labels: map<string, nat>): Program {
    Program([Do(Sub(Register(r), Constant(1))), JumpIfNotZero(At(Register(r)), name)], labels)
  }

  lemma CountOne(p: Program, s: Store, r: Value, name: string, v: Value)
    requires p == Countdown(r, name, p.labels) && name in p.labels && p.labels[name] == 0
    requires CellAt(s, Register(r)) == Some(Defined(v)) && v > 0
    ensures var one := Apply(s, Sub(Register(r), Constant(1)));
      && one.Ok? && OnlyWrites(s, one.value, Register(r), v - 1)
      && Step(p, State(s, 0), p.instructions[0]) == Ok(State(one.value, 1))
      && Step(p, State(one.value, 1), p.instructions[1]) == Ok(State(one.value, if v == 1 then 2 else 0))
  {
    SubMeaning(s, Register(r), Constant(1));
    var one := Apply(s, Sub(Register(r), Constant(1))).value;
    StepGoesOn(p, State(s, 0), Sub(Register(r), Constant(1)));
    JumpMeaning(p, State(one, 1), At(Register(r)), name);
  }

  lemma TwoSteps(p: Program, s: State, t: State, u: State, fuel: nat)
    requires s.ip < |p.instructions| && t.ip < |p.instructions| && fuel >= 2
    requires Step(p, s, p.instructions[s.ip]) == Ok(t) && Step(p, t, p.instructions[t.ip]) == Ok(u)
    ensures Run(p, s, fuel) == Run(p, u, fuel - 2)
  {
    hide Step;
  }

  /** Counting a register down from `v` ends after `2 * v` steps with 0 in it and nothing else changed. */
  lemma {:induction false} CountdownEnds(s: Store, r: Value, name: string, labels: map<string, nat>, v: Value, fuel: nat)
    requires name in labels && labels[name] == 0
    requires CellAt(s, Register(r)) == Some(Defined(v)) && v > 0 && fuel >= 2 * v
    ensures var (s', o) := Run(Countdown(r, name, labels), State(s, 0), fuel);
      o == Halted && s'.ip == 2 && OnlyWrites(s, s'.store, Register(r), 0)
    decreases v
  {
    hide Apply, Step, CellAt;
    var p := Countdown(r, name, labels);
    CountOne(p, s, r, name, v);
    var one := Apply(s, Sub(Register(r), Constant(1))).value;
    TwoSteps(p, State(s, 0), State(one, 1), State(one, if v == 1 then 2 else 0), fuel);
    assert CellAt(one, Register(r)) == Some(Defined(v - 1));
    if v > 1 {
      CountdownEnds(one, r, name, labels, v - 1, fuel - 2);
    }
  }
}
