/** The struct of flags, and why it behaves as the enum does. */
module ComputerFlags {
  import opened Options
  import opened Computer

  datatype Flags = Flags(running: bool, sleeping: bool, idleTime: Time, sleepTime: Time, upTime: Time)

  const OFF := Flags(false, false, 0, 0, 0)
  const ON := Flags(true, false, 0, 0, 0)

  function ToSleep(f: Flags): Flags {
    f.(running := false, sleeping := true, idleTime := 0)
  }

  /** Time added to the field that counts it, with sleep begun after 1000 idle; `left` is the time spent asleep. */
  function Idled(f: Flags, t: Time): Option<(Flags, Time)> {
    match Add(f.idleTime, if f.running then t else 0)
    case None => None
    case Some(idle) => Some(if idle > 1000 then (ToSleep(f), idle - 1000) else (f.(idleTime := idle), t))
  }

  function Slept(f: Flags, t: Time): Option<Flags> {
    match Add(f.sleepTime, if f.sleeping then t else 0)
    case None => None
    case Some(slept) => Some(if slept > 500 then OFF else f.(sleepTime := slept))
  }

  function Elapsed(f: Flags, t: Time): Option<Flags> {
    match Add(f.upTime, t)
    case None => None
    case Some(up) =>
      match Idled(f.(upTime := up), t)
      case None => None
      case Some((g, left)) => Slept(g, left)
  }

  /** One event; `None` where an addition overflows. */
  function Step(f: Flags, e: Event): Option<Flags> {
    var on := f.running || f.sleeping;
    match e
    case TurnOn => Some(if on then f else ON)
    case TurnOff => Some(OFF)
    case MoveMouse =>
      Some(if f.running then f.(idleTime := 0)
           else if f.sleeping then f.(running := true, sleeping := false, sleepTime := 0)
           else f)
    case PassTime(t) => if on then Elapsed(f, t) else Some(f)
  }

  function Run(f: Flags, events: seq<Event>): Option<Flags>
    decreases |events|
  {
    if events == [] then Some(f)
    else match Step(f, events[0])
      case None => None
      case Some(next) => Run(next, events[1..])
  }

  // ---- the struct as an object ---------------------------------------------------------

  class ComputerState {
    var running: bool
    var sleeping: bool
    var idleTime: Time
    var sleepTime: Time
    var upTime: Time

    ghost function Value(): Flags
      reads this
    {
      Flags(running, sleeping, idleTime, sleepTime, upTime)
    }

    constructor NewOff()
      ensures Value() == Encode(Off)
    {
      running, sleeping := false, false;
      idleTime, sleepTime, upTime := 0, 0, 0;
    }

    method Reset(on: bool)
      modifies this
      ensures Value() == if on then ON else OFF
    {
      running, sleeping := on, false;
      idleTime, sleepTime, upTime := 0, 0, 0;
    }

    method RunningToSleep()
      modifies this
      ensures Value() == ToSleep(old(Value()))
    {
      running := false;
      sleeping := true;
      idleTime := 0;
    }

    method SleepToRunning()
      modifies this
      ensures Value() == old(Value()).(running := true, sleeping := false, sleepTime := 0)
    {
      running := true;
      sleeping := false;
      sleepTime := 0;
    }

    /** One event; `ok` is false where an addition panics. */
    method PcTransition(event: Event) returns (ok: bool)
      modifies this
      ensures ok <==> old(Step(Value(), event)).Some?
      ensures ok ==> Value() == old(Step(Value(), event)).value
    {
      match event
      case TurnOn =>
        if !(running || sleeping) {
          Reset(true);
        }
        return true;
      case TurnOff =>
        Reset(false);
        return true;
      case MoveMouse =>
        if running {
          idleTime := 0;
        } else if sleeping {
          SleepToRunning();
        }
        return true;
      case PassTime(t) =>
        if !(running || sleeping) {
          return true;
        }
        var time: Time := t;
        if upTime + time >= U32 {
          return false;
        }
        upTime := upTime + time;
        if running {
          if idleTime + time >= U32 {
            return false;
          }
          idleTime := idleTime + time;
        }
        if idleTime > 1000 {
          time := idleTime - 1000;
          RunningToSleep();
        }
        if sleeping {
          if sleepTime + time >= U32 {
            return false;
          }
          sleepTime := sleepTime + time;
        }
        if sleepTime > 500 {
          Reset(false);
        }
        return true;
    }
  }

  // ---- the two implementations agree -----------------------------------------------------

  /** The flags that stand for a state of the enum. */
  function Encode(c: State): Flags {
    match c
    case Off => OFF
    case Running(uptime, idleTime) => Flags(true, false, idleTime, 0, uptime)
    case Sleeping(uptime, sleepTime) => Flags(false, true, 0, sleepTime, uptime)
  }

  /** The struct adds to `up_time` before anything else: that sum does not fit. */
  predicate TooLong(c: State, e: Event) {
    e.PassTime? && !c.Off? && c.uptime + e.time >= U32
  }

  /** From the flags of a good state the struct moves as the enum does, unless the uptime overflows. */
  lemma StepAgrees(c: State, e: Event)
    requires Good(c)
    ensures Step(Encode(c), e).None? <==> TooLong(c, e)
    ensures !TooLong(c, e) ==>
      Transition(c, e).Some? && Step(Encode(c), e) == Some(Encode(Transition(c, e).value))
  {
    if e.PassTime? {
      PassTimeMeaning(c, e.time);
    }
  }

  /** Where the struct overflows, the enum overflows as well or has just turned off. */
  lemma OverflowGap(c: State, e: Event)
    requires Good(c) && TooLong(c, e)
    ensures Transition(c, e) == None || Transition(c, e) == Some(Off)
  {
    PassTimeMeaning(c, e.time);
  }

  /** Some event of the enum's run is too long for the struct. */
  predicate SomeTooLong(c: State, events: seq<Event>)
    decreases |events|
  {
    events != [] && (TooLong(c, events[0])
      || (Transition(c, events[0]).Some? && SomeTooLong(Transition(c, events[0]).value, events[1..])))
  }

  /**
   On every event sequence from `Off` the struct goes where the enum goes, and it panics if
   and only if some event takes the uptime past `u32`; so whenever the struct does not
   overflow, neither does the enum.
   */
  lemma {:induction false} RunsAgree(c: State, events: seq<Event>)
    requires Good(c)
    ensures Run(Encode(c), events).None? <==> SomeTooLong(c, events)
    ensures Run(Encode(c), events).Some? ==>
      Trace(c, events).Some? && Run(Encode(c), events) == Some(Encode(Trace(c, events).value))
    decreases |events|
  {
    hide Transition, Step, TooLong, Encode;
    if events != [] {
      StepAgrees(c, events[0]);
      if !TooLong(c, events[0]) {
        TransitionKeepsGood(c, events[0]);
        RunsAgree(Transition(c, events[0]).value, events[1..]);
      }
    }
  }

  lemma {:induction false} TooLongLater(c: State, before: seq<Event>, e: Event)
    requires Trace(c, before).Some? && TooLong(Trace(c, before).value, e)
    ensures SomeTooLong(c, before + [e])
    decreases |before|
  {
    hide Transition, TooLong;
    if before == [] {
      assert [] + [e] == [e];
    } else {
      assert (before + [e])[1..] == before[1..] + [e];
      TooLongLater(Transition(c, before[0]).value, before[1..], e);
    }
  }

  /** The converse fails: a run ends in `Off` as an enum and in a panic as a struct. */
  lemma EnumSurvives()
    ensures exists events :: Trace(Off, events) == Some(Off) && Run(OFF, events) == None
  {
    hide Trace, Run, SomeTooLong;
    var before := KeptAwake(4294966);
    var c, e := Running(4294966000, 0), PassTime(1501);
    PassTimeMeaning(c, 1501);
    TraceAppend(Off, before, [e]);
    OneTrace(c, e);
    TooLongLater(Off, before, e);
    RunsAgree(Off, before + [e]);
    assert Trace(Off, before + [e]) == Some(Off) && Run(OFF, before + [e]) == None;
  }
}
