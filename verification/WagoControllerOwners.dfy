/** No motor is left running: whatever the wiring, a coil that is on at a loop head belongs to a digital output, or to a shutter
    that has a deadline pending for it. */
module WagoControllerOwners {
  import opened Basics
  import opened Coils
  import opened IoValues
  import opened Modbus
  import opened WagoController
  import Interlock = WagoInterlock
  import Safety = WagoControllerSafety
  import Journeys = WagoControllerJourneys

  /** Output `id` answers for coil `a`: a digital output for its own, a shutter for the one towards its pending target. */
  predicate Owns(kind: OutputKind, id: Id, tasks: map<Id, Task>, a: Address)
  {
    match kind
    case WODigital(pin) => a == Coil(pin)
    case WOShutter(io) =>
      id in tasks && ((tasks[id].target == Shutter(Up) && a == Coil(io.varUp))
                      || (tasks[id].target == Shutter(Down) && a == Coil(io.varDown)))
    case OtherKind => false
  }

  ghost predicate HasOwner(outputs: Outputs, tasks: map<Id, Task>, a: Address)
  {
    exists id :: id in outputs && Owns(outputs[id], id, tasks, a)
  }

  /** Every coil that is on has an owner. */
  ghost predicate Owned(outputs: Outputs, s: State)
  {
    forall a :: On(s.client.log, a) ==> HasOwner(outputs, s.tasks, a)
  }

  /** Whatever the surroundings do, it will be so at the end of the turn in progress, unless that fails. */
  ghost predicate OwnedAtEnd(outputs: Outputs, s: State)
  {
    forall envs: seq<Env> :: |envs| >= |s.todo| && !Drain(s, envs).client.failed ==> Owned(outputs, Drain(s, envs))
  }

  // ----- what a turn comes to -----

  /** The state in which the operations leave a coil, or None when they do not concern it. */
  function FinalCoil(ops: seq<Op>, a: Address): Option<bool>
  {
    if ops == [] then None
    else if FinalCoil(ops[1..], a).Some? then FinalCoil(ops[1..], a)
    else if ops[0].SetVar? && Coil(ops[0].pin) == a then Some(ops[0].value)
    else None
  }

  lemma StepCoil(s: State, e: Env, a: Address)
    requires s.todo != [] && !Step(s, e).client.failed
    ensures Step(s, e).todo == s.todo[1..]
    ensures On(Step(s, e).client.log, a)
            <==> if s.todo[0].SetVar? && Coil(s.todo[0].pin) == a then s.todo[0].value else On(s.client.log, a)
  {
    hide Coil, Pause, LastWrite;
    var log, log' := s.client.log, Step(s, e).client.log;
    if s.todo[0].SetVar? {
      LastWriteAppend(log, log'[|log|]);
      assert log' == log + [log'[|log|]];
    }
  }

  lemma {:induction false} DrainCoil(s: State, envs: seq<Env>, a: Address)
    requires |envs| >= |s.todo| && !Drain(s, envs).client.failed
    ensures On(Drain(s, envs).client.log, a)
            <==> if FinalCoil(s.todo, a).Some? then FinalCoil(s.todo, a).value else On(s.client.log, a)
    decreases |s.todo|
  {
    hide Coil, Step, On;
    if s.todo != [] {
      Safety.DrainStep(s, envs);
      StepCoil(s, envs[0], a);
      DrainCoil(Step(s, envs[0]), envs[1..], a);
    }
  }

  /** The operation leaves the task of `j` alone. */
  predicate Spares(op: Op, j: Id, task: Task)
  {
    match op
    case StartTask(id, _, _) => id != j
    case RemoveTask(id) => id != j
    case RetainTasks(now) => task.deadline > now
    case _ => true
  }

  lemma StepSpares(s: State, e: Env, j: Id)
    requires s.todo != [] && j in s.tasks && Spares(s.todo[0], j, s.tasks[j])
    ensures j in Step(s, e).tasks && Step(s, e).tasks[j] == s.tasks[j]
  {
    hide WriteSingleCoil;
  }

  lemma {:induction false} DrainSpares(s: State, envs: seq<Env>, j: Id)
    requires |envs| >= |s.todo| && j in s.tasks && forall op :: op in s.todo ==> Spares(op, j, s.tasks[j])
    ensures j in Drain(s, envs).tasks && Drain(s, envs).tasks[j] == s.tasks[j]
    decreases |s.todo|
  {
    hide Step, Spares;
    if s.todo != [] {
      StepSpares(s, envs[0], j);
      Journeys.StepShrinks(s, envs[0]);
      DrainSpares(Step(s, envs[0]), envs[1..], j);
    }
  }

  /** The operation is not about tasks, or starts one for `id` with the target. */
  predicate OnlyStarts(op: Op, id: Id, target: IOValue)
  {
    match op
    case StartTask(j, _, t) => j == id && t == target
    case RemoveTask(_) => false
    case RetainTasks(_) => false
    case _ => true
  }

  predicate Pending(tasks: map<Id, Task>, id: Id, target: IOValue)
  {
    id in tasks && tasks[id].target == target
  }

  lemma StepStarts(s: State, e: Env, id: Id, target: IOValue)
    requires s.todo != [] && !Step(s, e).client.failed && OnlyStarts(s.todo[0], id, target)
    ensures s.todo[0].StartTask? || Pending(s.tasks, id, target) ==> Pending(Step(s, e).tasks, id, target)
  {
    hide WriteSingleCoil;
  }

  lemma {:induction false} DrainStarts(s: State, envs: seq<Env>, id: Id, target: IOValue)
    requires |envs| >= |s.todo| && !Drain(s, envs).client.failed
    requires forall op :: op in s.todo ==> OnlyStarts(op, id, target)
    requires Pending(s.tasks, id, target) || exists op :: op in s.todo && op.StartTask?
    ensures Pending(Drain(s, envs).tasks, id, target)
    decreases |s.todo|
  {
    hide Step, OnlyStarts, Pending;
    if s.todo != [] {
      Safety.DrainStep(s, envs);
      var s' := Step(s, envs[0]);
      StepStarts(s, envs[0], id, target);
      assert s'.todo == s.todo[1..] by { StepCoil(s, envs[0], Address(0)); }
      assert s.todo == [s.todo[0]] + s'.todo;
      DrainStarts(s', envs[1..], id, target);
    }
  }

  // ----- turns -----

  /** The owner of a coil that the turn leaves on as it was still owns it. */
  lemma OwnerStays(outputs: Outputs, s: State, envs: seq<Env>, a: Address, id: Id)
    requires |envs| >= |s.todo| && id in outputs && Owns(outputs[id], id, s.tasks, a)
    requires outputs[id].WOShutter? ==> forall op :: op in s.todo ==> Spares(op, id, s.tasks[id])
    ensures HasOwner(outputs, Drain(s, envs).tasks, a)
  {
    hide Coil, Drain;
    if outputs[id].WOShutter? {
      DrainSpares(s, envs, id);
    }
    assert Owns(outputs[id], id, Drain(s, envs).tasks, a);
  }

  /** What the plan for a shutter does to a coil. */
  lemma ShutterFinal(id: Id, io: UpDown, command: ShutterState, a: Address)
    ensures FinalCoil(MovePlan(id, io, command), a)
            == if a == Coil(Safety.Motor(io, command in {Up, MovingUp})) then Some(true)
               else if a in {Coil(io.varUp), Coil(io.varDown)} then Some(false) else None
    ensures FinalCoil(StopPlan(id, io), a) == if a in {Coil(io.varUp), Coil(io.varDown)} then Some(false) else None
  {
    hide Coil;
    var move, stop := MovePlan(id, io, command), StopPlan(id, io);
    FinalOf5(move, a);
    FinalOf4(stop, a);
  }

  lemma {:induction false} NoFinal(ops: seq<Op>, a: Address)
    requires forall op :: op in ops ==> !op.SetVar?
    ensures FinalCoil(ops, a) == None
  {
    if ops != [] {
      assert ops[0] in ops;
      NoFinal(ops[1..], a);
    }
  }

  lemma FinalOf4(ops: seq<Op>, a: Address)
    requires |ops| == 4 && !ops[2].SetVar? && !ops[3].SetVar? && ops[0].SetVar? && ops[1].SetVar?
    ensures FinalCoil(ops, a)
            == if a == Coil(ops[1].pin) then Some(ops[1].value) else if a == Coil(ops[0].pin) then Some(ops[0].value) else None
  {
    hide Coil;
    var rest := ops[1..][1..];
    assert rest == [ops[2], ops[3]];
    NoFinal(rest, a);
  }

  lemma FinalOf5(ops: seq<Op>, a: Address)
    requires |ops| == 5 && !ops[3].SetVar? && !ops[4].SetVar? && ops[0].SetVar? && ops[1].SetVar? && ops[2].SetVar?
    ensures FinalCoil(ops, a)
            == if a == Coil(ops[2].pin) then Some(ops[2].value)
               else if a == Coil(ops[1].pin) then Some(ops[1].value)
               else if a == Coil(ops[0].pin) then Some(ops[0].value) else None
  {
    hide Coil;
    FinalOf4(ops[1..], a);
  }

  lemma MoveOwns(outputs: Outputs, s: State, id: Id, command: ShutterState, envs: seq<Env>)
    requires Owned(outputs, s) && id in outputs && outputs[id].WOShutter? && |envs| >= 5
    requires var s0 := s.(todo := MovePlan(id, outputs[id].io, command)); |s0.todo| == 5 && !Drain(s0, envs).client.failed
    ensures Owned(outputs, Drain(s.(todo := MovePlan(id, outputs[id].io, command)), envs))
  {
    hide Coil, Drain, On, FinalCoil;
    var io := outputs[id].io;
    var s0 := s.(todo := MovePlan(id, io, command));
    var end := Drain(s0, envs);
    var up := command in {Up, MovingUp};
    assert s0.todo[3].StartTask? && s0.todo[3] in s0.todo;
    DrainStarts(s0, envs, id, Shutter(if up then Up else Down));
    forall a | On(end.client.log, a)
      ensures HasOwner(outputs, end.tasks, a)
    {
      DrainCoil(s0, envs, a);
      ShutterFinal(id, io, command, a);
      if a == Coil(Safety.Motor(io, up)) {
        assert Owns(outputs[id], id, end.tasks, a);
      } else {
        var j :| j in outputs && Owns(outputs[j], j, s.tasks, a);
        OwnerStays(outputs, s0, envs, a, j);
      }
    }
  }

  lemma StopOwns(outputs: Outputs, s: State, id: Id, envs: seq<Env>)
    requires Owned(outputs, s) && id in outputs && outputs[id].WOShutter? && |envs| >= 4
    requires var s0 := s.(todo := StopPlan(id, outputs[id].io)); |s0.todo| == 4 && !Drain(s0, envs).client.failed
    ensures Owned(outputs, Drain(s.(todo := StopPlan(id, outputs[id].io)), envs))
  {
    hide Coil, Drain, On, FinalCoil;
    var s0 := s.(todo := StopPlan(id, outputs[id].io));
    var end := Drain(s0, envs);
    forall a | On(end.client.log, a)
      ensures HasOwner(outputs, end.tasks, a)
    {
      DrainCoil(s0, envs, a);
      ShutterFinal(id, outputs[id].io, Up, a);
      var j :| j in outputs && Owns(outputs[j], j, s.tasks, a);
      OwnerStays(outputs, s0, envs, a, j);
    }
  }

  lemma DigitalOwns(outputs: Outputs, s: State, id: Id, b: bool, envs: seq<Env>)
    requires Owned(outputs, s) && id in outputs && outputs[id].WODigital? && |envs| >= 2
    requires !Drain(s.(todo := [SetVar(outputs[id].pin, b, Commanded), UpdateState(id, Bool(b))]), envs).client.failed
    ensures Owned(outputs, Drain(s.(todo := [SetVar(outputs[id].pin, b, Commanded), UpdateState(id, Bool(b))]), envs))
  {
    hide Coil, Drain, On;
    var s0 := s.(todo := [SetVar(outputs[id].pin, b, Commanded), UpdateState(id, Bool(b))]);
    var end := Drain(s0, envs);
    forall a | On(end.client.log, a)
      ensures HasOwner(outputs, end.tasks, a)
    {
      DrainCoil(s0, envs, a);
      if a == Coil(outputs[id].pin) {
        assert Owns(outputs[id], id, end.tasks, a);
      } else {
        NoFinal(s0.todo[1..], a);
        var j :| j in outputs && Owns(outputs[j], j, s.tasks, a);
        OwnerStays(outputs, s0, envs, a, j);
      }
    }
  }

  lemma CommandOwns(outputs: Outputs, s: State, cmd: IODataAction)
    requires Owned(outputs, s) && s.todo == [] && !s.client.failed
    ensures OwnedAtEnd(outputs, Receive(outputs, s, cmd))
  {
    hide Coil, Drain, On, Owned, MovePlan, StopPlan;
    var s0 := Receive(outputs, s, cmd);
    forall envs: seq<Env> | |envs| >= |s0.todo| && !Drain(s0, envs).client.failed
      ensures Owned(outputs, Drain(s0, envs))
    {
      if s0.todo == [] {
        Safety.DrainIdle(s0, envs);
        assert s0 == s;
      } else {
        var newValue := NewValue(s.values[cmd.id], cmd.action).value;
        match outputs[cmd.id] {
          case WODigital(_) =>
            DigitalOwns(outputs, s, cmd.id, newValue.value.b, envs);
          case WOShutter(io) =>
            PlanSizes(cmd.id, io);
            match ShutterCommand(s.values[cmd.id], newValue) {
              case Some(command) => MoveOwns(outputs, s, cmd.id, command, envs);
              case None => StopOwns(outputs, s, cmd.id, envs);
            }
        }
      }
    }
  }

  lemma PlanSizes(id: Id, io: UpDown)
    ensures |StopPlan(id, io)| == 4 && forall command :: |MovePlan(id, io, command)| == 5
  {
  }

  /** Operations that switch nothing on leave no coil on, and those they concern off. */
  lemma {:induction false} OffFinal(ops: seq<Op>, a: Address)
    requires forall op :: op in ops && op.SetVar? ==> !op.value
    ensures FinalCoil(ops, a).Some? ==> !FinalCoil(ops, a).value
  {
    hide Coil;
    if ops != [] {
      assert ops[0] in ops;
      OffFinal(ops[1..], a);
    }
  }

  lemma {:induction false} OffFinalAt(ops: seq<Op>, op: Op)
    requires op in ops && op.SetVar? && forall o :: o in ops && o.SetVar? ==> !o.value
    ensures FinalCoil(ops, Coil(op.pin)).Some? && !FinalCoil(ops, Coil(op.pin)).value
  {
    hide Coil;
    OffFinal(ops[1..], Coil(op.pin));
    if op != ops[0] {
      OffFinalAt(ops[1..], op);
    }
  }

  lemma {:induction false} TimerPlanTasks(outputs: Outputs, tasks: map<Id, Task>, order: seq<Id>, now: Instant)
    ensures forall op :: op in TimerPlan(outputs, tasks, order, now) ==>
              !op.StartTask? && !op.RemoveTask? && (op.RetainTasks? ==> op.now == now)
  {
    if order != [] {
      TimerPlanTasks(outputs, tasks, order[1..], now);
    }
  }

  /** The plan of a timer turn switches both coils of every due shutter off. */
  lemma {:induction false} TimerPlanHas(outputs: Outputs, tasks: map<Id, Task>, order: seq<Id>, now: Instant, id: Id)
    requires id in order && Safety.Due(tasks, id, now) && id in outputs && outputs[id].WOShutter?
    ensures SetVar(outputs[id].io.varUp, false, Expired) in TimerPlan(outputs, tasks, order, now)
    ensures SetVar(outputs[id].io.varDown, false, Expired) in TimerPlan(outputs, tasks, order, now)
  {
    var io := outputs[id].io;
    if order[0] == id {
      var plan := ExpirePlan(outputs, tasks, id, now);
      assert plan[0] == SetVar(io.varDown, false, Expired) && plan[1] == SetVar(io.varUp, false, Expired);
      assert plan[0] in plan && plan[1] in plan;
    } else {
      TimerPlanHas(outputs, tasks, order[1..], now, id);
    }
  }

  lemma TimerOwns(outputs: Outputs, s: State, order: seq<Id>, now: Instant)
    requires Owned(outputs, s) && Enumerates(order, s.tasks.Keys)
    ensures OwnedAtEnd(outputs, Fire(outputs, s, order, now))
  {
    hide Coil, Drain, On, TimerPlan, FinalCoil;
    var s0 := Fire(outputs, s, order, now);
    Journeys.TimerWritesOff(outputs, s.tasks, order, now);
    TimerPlanTasks(outputs, s.tasks, order, now);
    forall envs: seq<Env> | |envs| >= |s0.todo| && !Drain(s0, envs).client.failed
      ensures Owned(outputs, Drain(s0, envs))
    {
      var end := Drain(s0, envs);
      forall a | On(end.client.log, a)
        ensures HasOwner(outputs, end.tasks, a)
      {
        DrainCoil(s0, envs, a);
        OffFinal(s0.todo, a);
        var j :| j in outputs && Owns(outputs[j], j, s.tasks, a);
        if outputs[j].WOShutter? && Safety.Due(s.tasks, j, now) {
          TimerPlanHas(outputs, s.tasks, order, now, j);
          OffFinalAt(s0.todo, SetVar(outputs[j].io.varUp, false, Expired));
          OffFinalAt(s0.todo, SetVar(outputs[j].io.varDown, false, Expired));
        }
        OwnerStays(outputs, s0, envs, a, j);
      }
    }
  }

  lemma BootOwns(outputs: Outputs, order: seq<Id>, now: Instant)
    ensures OwnedAtEnd(outputs, Initial(outputs, order, now))
  {
    hide Coil, Drain, BootPlan, FinalCoil;
    var s0 := Initial(outputs, order, now);
    Interlock.BootPlanIsOff(outputs, order);
    forall envs: seq<Env> | |envs| >= |s0.todo| && !Drain(s0, envs).client.failed
      ensures Owned(outputs, Drain(s0, envs))
    {
      forall a
        ensures !On(Drain(s0, envs).client.log, a)
      {
        DrainCoil(s0, envs, a);
        OffFinal(s0.todo, a);
      }
    }
  }

  // ----- runs -----

  lemma EventOwns(outputs: Outputs, s: State, ev: Event)
    requires OwnedAtEnd(outputs, s) && Enabled(s, ev)
    ensures OwnedAtEnd(outputs, Apply(outputs, s, ev))
  {
    hide Coil, Exec, Owned;
    match ev
    case Operate(e) =>
      forall envs: seq<Env> | |envs| >= |Step(s, e).todo| && !Drain(Step(s, e), envs).client.failed
        ensures Owned(outputs, Drain(Step(s, e), envs))
      {
        var more := seq(|s.todo|, _ => e);
        var all := [e] + (envs + more);
        assert all[0] == e && all[1..] == envs + more;
        Safety.DrainStep(s, all);
        Safety.DrainIgnoresRest(Step(s, e), envs, more);
      }
    case Command(cmd) =>
      HeadIsOwned(outputs, s);
      CommandOwns(outputs, s, cmd);
    case Timer(order, now) =>
      HeadIsOwned(outputs, s);
      TimerOwns(outputs, s, order, now);
    case KeepAlive(e) =>
      HeadIsOwned(outputs, s);
      var s' := Apply(outputs, s, ev);
      SameCoils(outputs, s, s');
      forall envs: seq<Env>
        ensures Owned(outputs, Drain(s', envs))
      {
        Safety.DrainIdle(s', envs);
      }
  }

  lemma SameCoils(outputs: Outputs, s: State, s': State)
    requires Owned(outputs, s) && s'.tasks == s.tasks && s'.client.log == s.client.log
    ensures Owned(outputs, s')
  {
    hide Coil, On;
  }

  lemma HeadIsOwned(outputs: Outputs, s: State)
    requires OwnedAtEnd(outputs, s) && s.todo == [] && !s.client.failed
    ensures Owned(outputs, s)
  {
    Safety.DrainIdle(s, []);
  }

  lemma {:induction false} RunOwns(outputs: Outputs, s0: State, events: seq<Event>, s: State)
    requires OwnedAtEnd(outputs, s0) && Runs(outputs, s0, events, s)
    ensures OwnedAtEnd(outputs, s)
    decreases |events|
  {
    hide OwnedAtEnd, Apply;
    if events != [] {
      EventOwns(outputs, s0, events[0]);
      RunOwns(outputs, Apply(outputs, s0, events[0]), events[1..], s);
    }
  }

  /** At every loop head of every run, for every wiring, each coil that is on belongs to a digital output, or to a shutter with a
      deadline pending for the direction of that coil. */
  lemma EveryCoilIsOwned(outputs: Outputs, order: seq<Id>, now: Instant, events: seq<Event>, s: State)
    requires Runs(outputs, Initial(outputs, order, now), events, s) && s.todo == [] && !s.client.failed
    ensures Owned(outputs, s)
  {
    hide Runs, Owned, OwnedAtEnd, Initial;
    BootOwns(outputs, order, now);
    RunOwns(outputs, Initial(outputs, order, now), events, s);
    HeadIsOwned(outputs, s);
  }
}
