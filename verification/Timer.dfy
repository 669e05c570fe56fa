/** The nested timer: only the task on top of the stack is charged.  Over any run, nothing is lost
    and nothing is counted twice. */
module Timer {
  datatype Time = Time(user: int, sys: int, wall: int)

  const ZERO := Time(0, 0, 0)

  function Plus(a: Time, b: Time): Time { Time(a.user + b.user, a.sys + b.sys, a.wall + b.wall) }
  function Minus(a: Time, b: Time): Time { Time(a.user - b.user, a.sys - b.sys, a.wall - b.wall) }

  /** What is known of one task.  A task on the stack several times has one record. */
  datatype Var = Var(begin: Time, elapsed: Time, first: Time, last: Time, initial: bool)

  const FRESH := Var(ZERO, ZERO, ZERO, ZERO, true)

  function Start(v: Var, t: Time): Var { v.(begin := t, first := if v.initial then t else v.first, initial := false) }
  function Stop(v: Var, t: Time): Var { v.(last := t, elapsed := Plus(v.elapsed, Minus(t, v.begin))) }

  /** The records by name, and the names on the stack, the top last. */
  datatype State = State(vars: map<string, Var>, stack: seq<string>)

  /** The clock is read once to stop the task that was on top and once to start the one that is. */
  datatype Op = Push(name: string, stopAt: Time, startAt: Time) | Pop(stopAt: Time, startAt: Time)

  predicate Valid(s: State) { forall i | 0 <= i < |s.stack| :: s.stack[i] in s.vars }

  function Top(s: State): string
    requires s.stack != []
  {
    s.stack[|s.stack| - 1]
  }

  function StopTop(s: State, t: Time): State
    requires Valid(s)
  {
    if s.stack == [] then s else s.(vars := s.vars[Top(s) := Stop(s.vars[Top(s)], t)])
  }

  function StartTop(s: State, t: Time): State
    requires Valid(s)
  {
    if s.stack == [] then s else s.(vars := s.vars[Top(s) := Start(s.vars[Top(s)], t)])
  }

  predicate Legal(s: State, op: Op) { op.Pop? ==> s.stack != [] }

  function Step(s: State, op: Op): (r: State)
    requires Valid(s) && Legal(s, op)
    ensures Valid(r)
  {
    var s1 := StopTop(s, op.stopAt);
    match op
    case Push(name, _, t) =>
      var v := if name in s1.vars then s1.vars else s1.vars[name := FRESH];
      StartTop(State(v, s1.stack + [name]), t)
    case Pop(_, t) => StartTop(s1.(stack := s1.stack[..|s1.stack| - 1]), t)
  }

  // ----- runs -----

  /** The operations so far, the last one outermost. */
  datatype History = Nothing | Then(before: History, op: Op)

  function Depth(h: History): int {
    if h.Nothing? then 0 else Depth(h.before) + if h.op.Push? then 1 else -1
  }

  /** Never a pop of an empty stack. */
  predicate Balanced(h: History) {
    h.Then? ==> Balanced(h.before) && (h.op.Pop? ==> Depth(h.before) > 0)
  }

  /** When the clock was last read for a start. */
  function LastStart(h: History): Time { if h.Nothing? then ZERO else h.op.startAt }

  /** The time between the two readings of the last operation, if a task was stopped and one started. */
  function Gap(h: History): Time {
    if h.Then? && Depth(h.before) > 0 && Depth(h) > 0 then Minus(h.op.startAt, h.op.stopAt) else ZERO
  }

  /** The time between the two readings of all operations. */
  function Gaps(h: History): Time { if h.Nothing? then ZERO else Plus(Gaps(h.before), Gap(h)) }

  /** The time during which some task was on the stack, up to the last operation. */
  function Busy(h: History): Time {
    if h.Nothing? then ZERO
    else if Depth(h.before) <= 0 then Busy(h.before)
    else Plus(Plus(Busy(h.before), Minus(h.op.stopAt, LastStart(h.before))), Gap(h))
  }

  ghost function Run(h: History): (s: State)
    requires Balanced(h)
    ensures Valid(s) && |s.stack| == Depth(h)
  {
    if h.Nothing? then State(map[], []) else Step(Run(h.before), h.op)
  }

  /** What all tasks were charged. */
  ghost function Total(vars: map<string, Var>): Time
    decreases |vars|
  {
    if vars == map[] then ZERO else var n := Pick(vars); Plus(vars[n].elapsed, Total(vars - {n}))
  }

  ghost function Pick(vars: map<string, Var>): (n: string)
    requires vars != map[]
    ensures n in vars
  {
    assert vars.Keys != {};
    var n :| n in vars.Keys;
    n
  }

  /** Any task may be counted first. */
  lemma {:induction false} TotalOne(vars: map<string, Var>, n: string)
    requires n in vars
    ensures Total(vars) == Plus(vars[n].elapsed, Total(vars - {n}))
    decreases |vars|
  {
    var m := Pick(vars);
    assert Total(vars) == Plus(vars[m].elapsed, Total(vars - {m}));
    if m != n {
      TotalOne(vars - {m}, n);
      TotalOne(vars - {n}, m);
      assert (vars - {m}) - {n} == (vars - {n}) - {m};
    }
  }

  lemma TotalSet(vars: map<string, Var>, n: string, v: Var)
    ensures Total(vars[n := v]) == Plus(Minus(Total(vars), if n in vars then vars[n].elapsed else ZERO), v.elapsed)
  {
    TotalOne(vars[n := v], n);
    assert vars[n := v] - {n} == vars - {n};
    if n in vars { TotalOne(vars, n); } else { assert vars - {n} == vars; }
  }

  lemma StopTotal(s: State, t: Time)
    requires Valid(s)
    ensures Total(StopTop(s, t).vars) == if s.stack == [] then Total(s.vars) else Plus(Total(s.vars), Minus(t, s.vars[Top(s)].begin))
  {
    if s.stack != [] { TotalSet(s.vars, Top(s), Stop(s.vars[Top(s)], t)); }
  }

  lemma StartTotal(s: State, t: Time)
    requires Valid(s)
    ensures Total(StartTop(s, t).vars) == Total(s.vars)
    ensures s.stack != [] ==> StartTop(s, t).vars[Top(s)].begin == t
  {
    if s.stack != [] { TotalSet(s.vars, Top(s), Start(s.vars[Top(s)], t)); }
  }

  /** One operation charges the task that was on top, and no other. */
  lemma StepTotal(s: State, op: Op)
    requires Valid(s) && Legal(s, op)
    ensures Total(Step(s, op).vars) == Total(StopTop(s, op.stopAt).vars)
    ensures var r := Step(s, op); r.stack != [] ==> r.vars[Top(r)].begin == op.startAt
  {
    hide Total;
    var s1 := StopTop(s, op.stopAt);
    match op
    case Push(name, _, t) =>
      var v := if name in s1.vars then s1.vars else s1.vars[name := FRESH];
      TotalSet(s1.vars, name, FRESH);
      StartTotal(State(v, s1.stack + [name]), t);
    case Pop(_, t) => StartTotal(s1.(stack := s1.stack[..|s1.stack| - 1]), t);
  }

  /** What the tasks were charged, plus the current interval of the top, plus the gaps between
      readings, is the time during which the stack was not empty. */
  ghost predicate Conserved(s: State, gaps: Time, busy: Time, last: Time, now: Time) {
    var charged := Plus(Total(s.vars), gaps);
    if s.stack == [] then charged == busy
    else
      && Valid(s) && s.vars[Top(s)].begin == last
      && Plus(charged, Minus(now, s.vars[Top(s)].begin)) == Plus(busy, Minus(now, last))
  }

  lemma StepConserves(s: State, op: Op, gaps: Time, busy: Time, last: Time, now: Time)
    requires Valid(s) && Legal(s, op) && Conserved(s, gaps, busy, last, op.stopAt)
    ensures var r := Step(s, op);
      var gap := if s.stack != [] && r.stack != [] then Minus(op.startAt, op.stopAt) else ZERO;
      Conserved(r, Plus(gaps, gap), if s.stack == [] then busy else Plus(Plus(busy, Minus(op.stopAt, last)), gap), op.startAt, now)
  {
    hide Total, Step, StopTop, Valid;
    StopTotal(s, op.stopAt);
    StepTotal(s, op);
  }

  lemma RunStep(h: History)
    requires Balanced(h) && h.Then?
    ensures Legal(Run(h.before), h.op) && Run(h) == Step(Run(h.before), h.op)
    ensures Run(h.before).stack == [] <==> Depth(h.before) <= 0
    ensures Run(h).stack == [] <==> Depth(h) <= 0
  {
    hide Step, Valid;
  }

  /** Time is conserved over every run. */
  lemma {:induction false} Conservation(h: History, now: Time)
    requires Balanced(h)
    ensures Conserved(Run(h), Gaps(h), Busy(h), LastStart(h), now)
    decreases h
  {
    if h.Then? {
      hide Conserved, Step, Valid, Total, Legal;
      RunStep(h);
      Conservation(h.before, h.op.stopAt);
      var s, r := Run(h.before), Run(h);
      StepConserves(s, h.op, Gaps(h.before), Busy(h.before), LastStart(h.before), now);
      assert Gap(h) == if s.stack != [] && r.stack != [] then Minus(h.op.startAt, h.op.stopAt) else ZERO;
      assert Busy(h) == if s.stack == [] then Busy(h.before) else Plus(Plus(Busy(h.before), Minus(h.op.stopAt, LastStart(h.before))), Gap(h));
    } else {
      NothingCharged(now);
    }
  }

  lemma NothingCharged(now: Time)
    ensures Conserved(State(map[], []), ZERO, ZERO, ZERO, now)
  {
    hide Total;
    NoTasks();
  }

  lemma NoTasks()
    ensures Total(map[]) == ZERO
  {}

  predicate SameReadings(h: History) { h.Then? ==> h.op.startAt == h.op.stopAt && SameReadings(h.before) }

  /** With one reading for each operation there are no gaps. */
  lemma {:induction false} OneReading(h: History)
    requires SameReadings(h)
    ensures Gaps(h) == ZERO
  {
    if h.Then? { OneReading(h.before); }
  }

  // ----- each task -----

  /** The names on the stack after a run. */
  function StackOf(h: History): seq<string> {
    match h
    case Nothing => []
    case Then(b, Push(name, _, _)) => StackOf(b) + [name]
    case Then(b, Pop(_, _)) => if StackOf(b) == [] then [] else StackOf(b)[..|StackOf(b)| - 1]
  }

  /** The task on top just before the operation op of a run. */
  predicate OnTop(b: History, n: string) { StackOf(b) != [] && StackOf(b)[|StackOf(b)| - 1] == n }

  predicate Pushed(h: History, n: string) { h.Then? && ((h.op.Push? && h.op.name == n) || Pushed(h.before, n)) }

  /** The time during which n was on top, up to the last operation. */
  function Charged(h: History, n: string): Time {
    if h.Nothing? then ZERO
    else if OnTop(h.before, n) then Plus(Charged(h.before, n), Minus(h.op.stopAt, LastStart(h.before)))
    else Charged(h.before, n)
  }

  /** When n was pushed first. */
  function FirstStart(h: History, n: string): Time {
    if h.Nothing? then ZERO
    else if Pushed(h.before, n) || !h.op.Push? || h.op.name != n then FirstStart(h.before, n)
    else h.op.startAt
  }

  /** When n was on top last and another operation came. */
  function LastStop(h: History, n: string): Time {
    if h.Nothing? then ZERO else if OnTop(h.before, n) then h.op.stopAt else LastStop(h.before, n)
  }

  /** What the timer knows of n after the run h. */
  ghost predicate Knows(s: State, h: History, n: string) {
    && (n in s.vars <==> Pushed(h, n))
    && (n in s.vars ==>
          && s.vars[n].elapsed == Charged(h, n) && s.vars[n].first == FirstStart(h, n) && s.vars[n].last == LastStop(h, n)
          && !s.vars[n].initial)
    && (OnTop(h, n) ==> n in s.vars && s.vars[n].begin == LastStart(h))
  }

  lemma {:induction false} NeverPushed(h: History, n: string)
    requires !Pushed(h, n)
    ensures n !in StackOf(h) && Charged(h, n) == ZERO && FirstStart(h, n) == ZERO && LastStop(h, n) == ZERO
    decreases h
  {
    if h.Then? {
      NeverPushed(h.before, n);
      assert forall x | x in StackOf(h) :: x in StackOf(h.before) || (h.op.Push? && x == h.op.name);
    }
  }

  /** Over any run each task is charged for exactly the time during which it was on top, and its first
      start and last stop are kept. */
  lemma {:induction false} EachTask(h: History, n: string)
    requires Balanced(h)
    ensures Run(h).stack == StackOf(h) && Knows(Run(h), h, n)
    decreases h
  {
    if h.Then? {
      hide Step, Valid;
      RunStep(h);
      EachTask(h.before, n);
      if !Pushed(h.before, n) { NeverPushed(h.before, n); }
      hide StackOf, Knows;
      TaskStep(Run(h.before), h, n);
    }
  }

  lemma TaskStep(s: State, h: History, n: string)
    requires h.Then? && Valid(s) && Legal(s, h.op) && s.stack == StackOf(h.before) && Knows(s, h.before, n)
    requires !Pushed(h.before, n) ==> n !in s.stack && Charged(h.before, n) == FirstStart(h.before, n) == LastStop(h.before, n) == ZERO
    ensures Step(s, h.op).stack == StackOf(h) && Knows(Step(s, h.op), h, n)
  {
    var s1 := StopTop(s, h.op.stopAt);
    Stopped(s, h, n);
    hide StopTop, Charged, LastStop;
    match h.op
    case Push(name, _, t) =>
      var v := if name in s1.vars then s1.vars else s1.vars[name := FRESH];
      Started(State(v, s1.stack + [name]), t, n);
    case Pop(_, t) => Started(s1.(stack := s1.stack[..|s1.stack| - 1]), t, n);
  }

  /** What stopping the top does to n. */
  lemma Stopped(s: State, h: History, n: string)
    requires h.Then? && Valid(s) && s.stack == StackOf(h.before) && Knows(s, h.before, n)
    ensures var r := StopTop(s, h.op.stopAt);
      && r.stack == s.stack && Valid(r) && r.vars.Keys == s.vars.Keys
      && (n in s.vars ==>
            && r.vars[n].elapsed == Charged(h, n) && r.vars[n].last == LastStop(h, n)
            && r.vars[n].first == s.vars[n].first && r.vars[n].initial == s.vars[n].initial)
  {}

  /** What starting the top does to n. */
  lemma Started(s: State, t: Time, n: string)
    requires Valid(s)
    ensures var r := StartTop(s, t);
      && r.stack == s.stack && r.vars.Keys == s.vars.Keys
      && (n in s.vars ==>
            r.vars[n] == if s.stack != [] && s.stack[|s.stack| - 1] == n then Start(s.vars[n], t) else s.vars[n])
  {}

  // ----- the timer -----

  class Timer {
    var tasksmap: map<string, Var>
    var tasks: seq<string>

    constructor ()
      ensures Now() == Run(Nothing)
    {
      tasksmap, tasks := map[], [];
    }

    ghost function Now(): State
      reads this
    {
      State(tasksmap, tasks)
    }

    method StopVar(name: string, t: Time)
      requires name in tasksmap
      modifies this`tasksmap
      ensures tasksmap == old(tasksmap)[name := Stop(old(tasksmap)[name], t)]
    {
      var v := tasksmap[name];
      v := v.(last := t);
      v := v.(elapsed := Plus(v.elapsed, Minus(v.last, v.begin)));
      tasksmap := tasksmap[name := v];
    }

    method StartVar(name: string, t: Time)
      requires name in tasksmap
      modifies this`tasksmap
      ensures tasksmap == old(tasksmap)[name := Start(old(tasksmap)[name], t)]
    {
      var v := tasksmap[name];
      v := v.(begin := t);
      if v.initial { v := v.(initial := false, first := v.begin); }
      tasksmap := tasksmap[name := v];
    }

    method PushTask(name: string, stopAt: Time, startAt: Time)
      requires Valid(Now())
      modifies this
      ensures Now() == Step(old(Now()), Push(name, stopAt, startAt))
    {
      if tasks != [] { StopVar(tasks[|tasks| - 1], stopAt); }
      if name !in tasksmap { tasksmap := tasksmap[name := FRESH]; }
      tasks := tasks + [name];
      StartVar(name, startAt);
    }

    method PopTask(stopAt: Time, startAt: Time)
      requires Valid(Now()) && tasks != []
      modifies this
      ensures Now() == Step(old(Now()), Pop(stopAt, startAt))
    {
      StopVar(tasks[|tasks| - 1], stopAt);
      tasks := tasks[..|tasks| - 1];
      if tasks != [] { StartVar(tasks[|tasks| - 1], startAt); }
    }
  }
}
