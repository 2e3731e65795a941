/** Pending tasks over whole runs: every timer turn is paid for by a move. */
module WagoControllerTasks {
  import opened Basics
  import opened Modbus
  import opened WagoController
  import opened WagoControllerSafety
  import IoValues

  predicate Retains(s: State)
  {
    s.todo != [] && s.todo[|s.todo| - 1].RetainTasks?
  }

  /** The tasks that the turn in progress will leave, besides those it has still to start. */
  function Survivors(s: State): map<Id, Task>
  {
    if Retains(s) then Later(s.tasks, s.todo[|s.todo| - 1].now) else s.tasks
  }

  lemma LaterAfterInsert(tasks: map<Id, Task>, id: Id, task: Task, now: Instant)
    ensures |Later(tasks[id := task], now)| <= |Later(tasks, now)| + 1
    ensures |tasks[id := task]| <= |tasks| + 1
  {
    SubsetSize(Later(tasks[id := task], now).Keys, Later(tasks, now).Keys + {id});
    SubsetSize(tasks[id := task].Keys, tasks.Keys + {id});
  }

  lemma LaterIsMonotone(small: map<Id, Task>, big: map<Id, Task>, now: Instant)
    requires forall id :: id in small ==> id in big && small[id] == big[id]
    ensures |Later(small, now)| <= |Later(big, now)| && |small| <= |big|
  {
    SubsetSize(Later(small, now).Keys, Later(big, now).Keys);
    SubsetSize(small.Keys, big.Keys);
  }

  /** What one operation does to the rest of the turn, to the tasks and to the counters. */
  lemma StepTasks(s: State, e: Env)
    requires s.todo != []
    ensures var op, s' := s.todo[0], Step(s, e);
            && s'.fires == s.fires
            && s'.starts == s.starts + (if op.StartTask? then 1 else 0)
            && (!s'.client.failed ==>
                && s'.todo == s.todo[1..]
                && match op
                   case StartTask(id, _, _) => id in s'.tasks && s'.tasks == s.tasks[id := s'.tasks[id]]
                   case RetainTasks(now) => s'.tasks == Later(s.tasks, now)
                   case _ => forall id :: id in s'.tasks ==> id in s.tasks && s'.tasks[id] == s.tasks[id])
  {
    hide WriteSingleCoil;
  }

  /** The tasks that will survive the turn grow by at most the one that an operation starts. */
  lemma SurvivorsShrink(s: State, e: Env)
    requires s.todo != [] && !Step(s, e).client.failed
    ensures |Survivors(Step(s, e))| <= |Survivors(s)| + (if s.todo[0].StartTask? then 1 else 0)
  {
    hide Step;
    var op, s' := s.todo[0], Step(s, e);
    StepTasks(s, e);
    var now := if Retains(s) then s.todo[|s.todo| - 1].now else 0;
    match op {
      case StartTask(id, _, _) =>
        LaterAfterInsert(s.tasks, id, s'.tasks[id], now);
      case _ =>
        LaterIsMonotone(s'.tasks, s.tasks, now);
    }
  }

  lemma {:induction false} TimerPlanEnds(outputs: Outputs, tasks: map<Id, Task>, order: seq<Id>, now: Instant)
    ensures var plan := TimerPlan(outputs, tasks, order, now); plan != [] && plan[|plan| - 1] == RetainTasks(now)
  {
    hide ExpirePlan;
    if order != [] {
      TimerPlanEnds(outputs, tasks, order[1..], now);
    }
  }

  lemma CommandRetainsNothing(outputs: Outputs, s: State, cmd: IoValues.IODataAction)
    ensures !Retains(Receive(outputs, s, cmd))
  {
  }

  /** Timer turns, and the tasks that will still be there for more, are covered by the moves started. */
  ghost predicate Paid(s: State)
  {
    s.fires <= s.starts && (!s.client.failed ==> s.fires + |Survivors(s)| <= s.starts)
  }

  lemma EventKeepsPaid(outputs: Outputs, s: State, ev: Event)
    requires Paid(s) && Enabled(s, ev)
    ensures Paid(Apply(outputs, s, ev))
  {
    hide Step, TimerPlan, CommandPlan, Later, ReadInputs;
    match ev
    case Operate(e) =>
      StepTasks(s, e);
      if !Step(s, e).client.failed {
        SurvivorsShrink(s, e);
      }
    case Command(cmd) =>
      CommandRetainsNothing(outputs, s, cmd);
    case Timer(order, now) =>
      TimerPlanEnds(outputs, s.tasks, order, now);
      var id :| id in s.tasks && s.tasks[id].deadline <= now;
      assert Due(s.tasks, id, now);
      LaterIsSmaller(s.tasks, now);
    case KeepAlive(_) =>
  }

  lemma {:induction false} RunKeepsPaid(outputs: Outputs, s0: State, events: seq<Event>, s: State)
    requires Paid(s0) && Runs(outputs, s0, events, s)
    ensures Paid(s)
    decreases |events|
  {
    hide Paid, Apply;
    if events != [] {
      EventKeepsPaid(outputs, s0, events[0]);
      RunKeepsPaid(outputs, Apply(outputs, s0, events[0]), events[1..], s);
    }
  }

  lemma {:induction false} BootRetainsNothing(outputs: Outputs, order: seq<Id>)
    ensures forall op :: op in BootPlan(outputs, order) ==> !op.RetainTasks?
  {
    if order != [] {
      BootRetainsNothing(outputs, order[1..]);
    }
  }

  /** In every state of every run - whatever the wiring, in the middle of a turn, after a failure too - the timer has taken no more
      turns than moves were started. */
  lemma TimerTurnsArePaid(outputs: Outputs, order: seq<Id>, now: Instant, events: seq<Event>, s: State)
    requires Runs(outputs, Initial(outputs, order, now), events, s)
    ensures s.fires <= s.starts
  {
    hide Runs;
    var s0 := Initial(outputs, order, now);
    BootRetainsNothing(outputs, order);
    assert !Retains(s0) && Survivors(s0) == map[];
    RunKeepsPaid(outputs, s0, events, s);
  }
}
