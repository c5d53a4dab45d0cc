/**
 The computer that runs, sleeps and turns itself off, implemented once as an enum and
 once as a struct of flags.  Times are `u32`; an addition that overflows panics, which
 the result `None` stands for.
 */
module Computer {
  import opened Options

  const U32: nat := 0x1_0000_0000

  type Time = x: int | 0 <= x < U32

  datatype Event = TurnOn | TurnOff | PassTime(time: Time) | MoveMouse

  datatype State =
    | Off
    | Running(uptime: Time, idleTime: Time)
    | Sleeping(uptime: Time, sleepTime: Time)

  /** Checked `u32` addition. */
  function Add(a: Time, b: Time): Option<Time> {
    if a + b < U32 then Some(a + b) else None
  }

  // ---- the enum ------------------------------------------------------------------------

  function Transition(c: State, e: Event): Option<State>
    decreases if c.Running? then 1 else 0
  {
    match (c, e)
    case (Off, TurnOn) => Some(Running(0, 0))
    case (Off, _) => Some(Off)
    case (_, TurnOn) => Some(c)
    case (_, TurnOff) => Some(Off)
    case (Running(uptime, _), MoveMouse) => Some(Running(uptime, 0))
    case (Sleeping(uptime, _), MoveMouse) => Some(Running(uptime, 0))
    case (Sleeping(uptime, sleepTime), PassTime(t)) =>
      (match Add(sleepTime, t)
       case None => None
       case Some(slept) =>
         if slept > 500 then Some(Off)
         else match Add(uptime, t)
           case None => None
           case Some(up) => Some(Sleeping(up, slept)))
    case (Running(uptime, idleTime), PassTime(t)) =>
      match Add(idleTime, t)
      case None => None
      case Some(idle) =>
        if idle > 1000 then
          // `1000 - idle_time` underflows, and so panics, when more than 1000 is already idle
          if idleTime > 1000 then None
          else match Add(uptime, 1000 - idleTime)
            case None => None
            case Some(up) => Transition(Sleeping(up, 0), PassTime(idle - 1000))
        else match Add(uptime, t)
          case None => None
          case Some(up) => Some(Running(up, idle))
  }

  /** What every reachable state satisfies. */
  predicate Good(c: State) {
    match c
    case Off => true
    case Running(uptime, idleTime) => idleTime <= 1000 && idleTime <= uptime
    case Sleeping(uptime, sleepTime) => sleepTime <= 500 && 1000 + sleepTime <= uptime
  }

  lemma TransitionKeepsGood(c: State, e: Event)
    requires Good(c) && Transition(c, e).Some?
    ensures Good(Transition(c, e).value)
  {
    if c.Running? && e.PassTime? && c.idleTime + e.time > 1000 {
      var up := c.uptime + (1000 - c.idleTime);
      assert Transition(c, e) == Transition(Sleeping(up, 0), PassTime(c.idleTime + e.time - 1000));
    }
  }

  /** A run of the enum from `c`; `None` once an addition overflows. */
  function Trace(c: State, events: seq<Event>): Option<State>
    decreases |events|
  {
    if events == [] then Some(c)
    else match Transition(c, events[0])
      case None => None
      case Some(next) => Trace(next, events[1..])
  }

  lemma {:induction false} ReachableIsGood(c: State, events: seq<Event>)
    requires Good(c) && Trace(c, events).Some?
    ensures Good(Trace(c, events).value)
    decreases |events|
  {
    if events != [] {
      TransitionKeepsGood(c, events[0]);
      ReachableIsGood(Transition(c, events[0]).value, events[1..]);
    }
  }

  // ---- passing time ----------------------------------------------------------------------

  /** The state after `t` more time, without a machine's limits. */
  datatype Clock = ClockOff | ClockRunning(uptime: nat, idle: nat) | ClockSleeping(uptime: nat, slept: nat)

  function Reading(c: State): Clock {
    match c
    case Off => ClockOff
    case Running(uptime, idleTime) => ClockRunning(uptime, idleTime)
    case Sleeping(uptime, sleepTime) => ClockSleeping(uptime, sleepTime)
  }

  /** 1000 idle, then 500 asleep, then off. */
  function Elapse(c: Clock, t: nat): Clock {
    match c
    case ClockOff => ClockOff
    case ClockRunning(uptime, idle) =>
      if idle + t <= 1000 then ClockRunning(uptime + t, idle + t)
      else if idle + t <= 1500 then ClockSleeping(uptime + t, idle + t - 1000)
      else ClockOff
    case ClockSleeping(uptime, slept) =>
      if slept + t <= 500 then ClockSleeping(uptime + t, slept + t) else ClockOff
  }

  /** When the enum's passing of time overflows. */
  predicate Overflows(c: State, t: Time) {
    match c
    case Off => false
    case Running(uptime, idleTime) =>
      || idleTime + t >= U32
      || (idleTime + t <= 1500 && uptime + t >= U32)
      || (idleTime + t > 1500 && uptime + (1000 - idleTime) >= U32)
    case Sleeping(uptime, sleepTime) =>
      sleepTime + t >= U32 || (sleepTime + t <= 500 && uptime + t >= U32)
  }

  /** Passing time in the enum is the plain clock, unless an addition overflows; and exactly when one does. */
  lemma PassTimeMeaning(c: State, t: Time)
    requires Good(c)
    ensures Transition(c, PassTime(t)).None? <==> Overflows(c, t)
    ensures !Overflows(c, t) ==> Reading(Transition(c, PassTime(t)).value) == Elapse(Reading(c), t)
  {
    if c.Running? && c.idleTime + t > 1000 && c.idleTime + t < U32 && c.uptime + (1000 - c.idleTime) < U32 {
      var up := c.uptime + (1000 - c.idleTime);
      assert Transition(c, PassTime(t)) == Transition(Sleeping(up, 0), PassTime(c.idleTime + t - 1000));
    }
  }

  lemma ReadingInjective(c: State, d: State)
    requires Reading(c) == Reading(d)
    ensures c == d
  {
  }

  lemma ElapseAdds(c: Clock, a: nat, b: nat)
    requires c.ClockSleeping? ==> c.slept <= 500
    ensures Elapse(Elapse(c, a), b) == Elapse(c, a + b)
  {
  }

  /** When passing `a` and then `b` overflows: on the first step, or on the second from where the first ends. */
  predicate SplitOverflows(c: State, a: Time, b: Time) {
    Overflows(c, a) ||
    match c
    case Off => false
    case Running(uptime, idleTime) =>
      if idleTime + a <= 1000 then Overflows(Running(uptime + a, idleTime + a), b)
      else idleTime + a <= 1500 && Overflows(Sleeping(uptime + a, idleTime + a - 1000), b)
    case Sleeping(uptime, sleepTime) =>
      sleepTime + a <= 500 && Overflows(Sleeping(uptime + a, sleepTime + a), b)
  }

  lemma SplitMeaning(c: State, a: Time, b: Time)
    requires Good(c)
    ensures Trace(c, [PassTime(a), PassTime(b)]).None? <==> SplitOverflows(c, a, b)
    ensures !SplitOverflows(c, a, b) ==>
      Reading(Trace(c, [PassTime(a), PassTime(b)]).value) == Elapse(Reading(c), a + b)
  {
    hide Transition, Trace;
    PairTrace(c, PassTime(a), PassTime(b));
    PassTimeMeaning(c, a);
    if !Overflows(c, a) {
      var mid := Transition(c, PassTime(a)).value;
      TransitionKeepsGood(c, PassTime(a));
      PassTimeMeaning(mid, b);
      ElapseAdds(Reading(c), a, b);
    }
  }

  /**
   Passing `a` and then `b` is passing `a + b`, across the running, sleeping and off
   boundaries, if and only if both ways overflow or neither does.
   */
  lemma PassTimeAdds(c: State, a: Time, b: Time)
    requires Good(c) && a + b < U32
    ensures Trace(c, [PassTime(a), PassTime(b)]) == Trace(c, [PassTime(a + b)])
      <==> (SplitOverflows(c, a, b) <==> Overflows(c, a + b))
  {
    hide Transition, Trace, Elapse, Overflows, SplitOverflows, Reading;
    OneTrace(c, PassTime(a + b));
    SplitMeaning(c, a, b);
    PassTimeMeaning(c, a + b);
    if !SplitOverflows(c, a, b) && !Overflows(c, a + b) {
      ReadingInjective(Trace(c, [PassTime(a), PassTime(b)]).value, Transition(c, PassTime(a + b)).value);
    }
  }

  /** Where only one of the two ways overflows, the other turns the computer off. */
  lemma DisagreementIsOff(c: State, a: Time, b: Time)
    requires Good(c) && a + b < U32
    ensures SplitOverflows(c, a, b) && !Overflows(c, a + b) ==> Trace(c, [PassTime(a + b)]) == Some(Off)
    ensures Overflows(c, a + b) && !SplitOverflows(c, a, b) ==> Trace(c, [PassTime(a), PassTime(b)]) == Some(Off)
  {
    hide Transition, Trace;
    OneTrace(c, PassTime(a + b));
    SplitMeaning(c, a, b);
    PassTimeMeaning(c, a + b);
  }

  lemma OneTrace(c: State, e: Event)
    ensures Trace(c, [e]) == Transition(c, e)
  {
    hide Transition;
    assert [e][1..] == [];
  }

  lemma PairTrace(c: State, e: Event, f: Event)
    ensures Trace(c, [e, f]) ==
      match Transition(c, e) case None => None case Some(mid) => Transition(mid, f)
  {
    hide Transition;
    assert [e, f][1..] == [f];
    match Transition(c, e)
    case None =>
    case Some(mid) => OneTrace(mid, f);
  }

  lemma {:induction false} TraceAppend(c: State, first: seq<Event>, second: seq<Event>)
    ensures Trace(c, first + second) ==
      match Trace(c, first) case None => None case Some(mid) => Trace(mid, second)
    decreases |first|
  {
    hide Transition;
    if first == [] {
      assert first + second == second;
    } else {
      assert (first + second)[1..] == first[1..] + second;
      match Transition(c, first[0])
      case None =>
      case Some(next) => TraceAppend(next, first[1..], second);
    }
  }

  /** After `before`, passing `a` and then `b` overflows exactly when passing `a + b` does. */
  predicate Mergeable(before: seq<Event>, a: Time, b: Time)
    requires a + b < U32
  {
    match Trace(Off, before)
    case None => true
    case Some(c) => SplitOverflows(c, a, b) == Overflows(c, a + b)
  }

  /**
   Splitting or merging adjacent passings of time at a point of a run changes where no
   continuation ends, if and only if both ways overflow there or neither does.
   */
  lemma MergeAnywhere(before: seq<Event>, a: Time, b: Time)
    requires a + b < U32
    ensures (forall rest ::
              Trace(Off, before + [PassTime(a), PassTime(b)] + rest) == Trace(Off, before + [PassTime(a + b)] + rest))
      <==> Mergeable(before, a, b)
  {
    hide Transition, Trace, Overflows, SplitOverflows;
    var split, merged := before + [PassTime(a), PassTime(b)], before + [PassTime(a + b)];
    SplitAgreesIff(before, a, b);
    assert split + [] == split && merged + [] == merged;
    if Trace(Off, split) == Trace(Off, merged) {
      forall rest ensures Trace(Off, split + rest) == Trace(Off, merged + rest) {
        TraceAppend(Off, split, rest);
        TraceAppend(Off, merged, rest);
      }
    }
  }

  lemma SplitAgreesIff(before: seq<Event>, a: Time, b: Time)
    requires a + b < U32
    ensures Trace(Off, before + [PassTime(a), PassTime(b)]) == Trace(Off, before + [PassTime(a + b)])
      <==> Mergeable(before, a, b)
  {
    hide Transition, Trace, Overflows, SplitOverflows;
    TraceAppend(Off, before, [PassTime(a), PassTime(b)]);
    TraceAppend(Off, before, [PassTime(a + b)]);
    if Trace(Off, before).Some? {
      ReachableIsGood(Off, before);
      PassTimeAdds(Trace(Off, before).value, a, b);
    }
  }

  // ---- the other events ------------------------------------------------------------------

  /** How long the computer has been on, if it is. */
  function OnFor(c: Clock): Option<nat> {
    match c
    case ClockOff => None
    case ClockRunning(uptime, _) => Some(uptime)
    case ClockSleeping(uptime, _) => Some(uptime)
  }

  /** How long the computer has been running without a mouse move, if it runs. */
  function IdleFor(c: Clock): Option<nat> {
    if c.ClockRunning? then Some(c.idle) else None
  }

  /** What every event but passing time makes of the clock; none of them can overflow. */
  lemma EventMeaning(c: State, e: Event)
    requires !e.PassTime?
    ensures Transition(c, e).Some?
    ensures var was, now := Reading(c), Reading(Transition(c, e).value);
      && (e.TurnOff? ==> OnFor(now) == None)
      && (e.TurnOn? && OnFor(was).None? ==> OnFor(now) == Some(0) && IdleFor(now) == Some(0))
      && (e.TurnOn? && OnFor(was).Some? ==> now == was)
      && (e.MoveMouse? ==> OnFor(now) == OnFor(was))
      && (e.MoveMouse? && OnFor(was).Some? ==> IdleFor(now) == Some(0))
  {
  }

  /** A computer that is moved at least every 1000 stays on, and is then idle for the last stretch alone. */
  lemma MovesKeepItOn(c: State, t: Time)
    requires Good(c) && !c.Off? && t <= 1000 && c.uptime + t < U32
    ensures var r := Trace(c, [MoveMouse, PassTime(t)]);
      r.Some? && OnFor(Reading(r.value)) == Some(c.uptime + t) && IdleFor(Reading(r.value)) == Some(t)
  {
    hide Transition, Trace;
    EventMeaning(c, MoveMouse);
    PairTrace(c, MoveMouse, PassTime(t));
    var mid := Transition(c, MoveMouse).value;
    TransitionKeepsGood(c, MoveMouse);
    PassTimeMeaning(mid, t);
  }

  // ---- runs that tell splitting from merging ---------------------------------------------

  /** Waking the computer every 1000 keeps it running for as long as the uptime fits. */
  lemma {:induction false} KeptAwake(k: nat) returns (events: seq<Event>)
    requires 1000 * k < U32
    ensures Trace(Off, events) == Some(Running(1000 * k, 0))
    decreases k
  {
    if k == 0 {
      events := [TurnOn];
      OneTrace(Off, TurnOn);
    } else {
      var before := KeptAwake(k - 1);
      events := before + [PassTime(1000), MoveMouse];
      TraceAppend(Off, before, [PassTime(1000), MoveMouse]);
      PairTrace(Running(1000 * (k - 1), 0), PassTime(1000), MoveMouse);
    }
  }

  /** A reachable state from which 1501 at once turns the computer off, and 1400 then 101 overflows. */
  lemma MergedSurvives()
    ensures exists before ::
      && Trace(Off, before + [PassTime(1501)]) == Some(Off)
      && Trace(Off, before + [PassTime(1400), PassTime(101)]) == None
  {
    hide Trace;
    var awake := KeptAwake(4294966);
    var before := awake + [PassTime(295), MoveMouse];
    var c := Running(4294966295, 0);
    TraceAppend(Off, awake, [PassTime(295), MoveMouse]);
    PairTrace(Running(4294966000, 0), PassTime(295), MoveMouse);
    TraceAppend(Off, before, [PassTime(1501)]);
    TraceAppend(Off, before, [PassTime(1400), PassTime(101)]);
    OneTrace(c, PassTime(1501));
    PairTrace(c, PassTime(1400), PassTime(101));
    PassTimeMeaning(c, 1501);
    PassTimeMeaning(c, 1400);
    assert Trace(Off, before + [PassTime(1501)]) == Some(Off);
  }

  /** The other way round: 600 and then a very long time turns the computer off, and their sum at once overflows. */
  lemma SplitSurvives()
    ensures var before := [TurnOn, PassTime(500)];
      && Trace(Off, before + [PassTime(600), PassTime(4294966500)]) == Some(Off)
      && Trace(Off, before + [PassTime(4294967100)]) == None
  {
    hide Trace;
    var before := [TurnOn, PassTime(500)];
    var c := Running(500, 500);
    PairTrace(Off, TurnOn, PassTime(500));
    TraceAppend(Off, before, [PassTime(600), PassTime(4294966500)]);
    TraceAppend(Off, before, [PassTime(4294967100)]);
    PairTrace(c, PassTime(600), PassTime(4294966500));
    OneTrace(c, PassTime(4294967100));
    PassTimeMeaning(c, 600);
    PassTimeMeaning(Sleeping(1100, 100), 4294966500);
    PassTimeMeaning(c, 4294967100);
  }
}
