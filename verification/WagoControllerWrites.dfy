/** What the controller writes at all: coils of its own outputs, at the addresses that its variables name. */
module WagoControllerWrites {
  import opened Basics
  import opened Coils
  import opened IoValues
  import opened Modbus
  import opened WagoController
  import opened WagoControllerCommands
  import opened WagoControllerJourneys
  import opened WagoControllerSafety

  /** The address is the coil of a pin of some output. */
  ghost predicate IsPin(outputs: Outputs, a: Address)
  {
    exists id, p :: id in outputs && p in Pins(outputs[id]) && a == Coil(p)
  }

  /** The operations still to come write pins of outputs, and so did those of the past. */
  ghost predicate OwnPins(outputs: Outputs, s: State)
  {
    && (forall op :: op in s.todo && op.SetVar? ==> IsPin(outputs, Coil(op.pin)))
    && (forall k :: 0 <= k < |s.client.log| ==> IsPin(outputs, s.client.log[k].address) && Reachable(s.client.log[k].address))
  }

  lemma StepKeepsOwnPins(outputs: Outputs, s: State, e: Env)
    requires OwnPins(outputs, s) && s.todo != []
    ensures OwnPins(outputs, Step(s, e))
  {
    hide Coil, IsPin, Step, Reachable;
    StepWrites(s, e);
    StepShrinks(s, e);
    var log := Step(s, e).client.log;
    forall k | 0 <= k < |log|
      ensures IsPin(outputs, log[k].address) && Reachable(log[k].address)
    {
      if k < |s.client.log| {
        assert log[k] == s.client.log[k];
      } else {
        assert s.todo[0] in s.todo;
      }
    }
  }

  lemma {:induction false} BootWritesPins(outputs: Outputs, order: seq<Id>)
    ensures forall op :: op in BootPlan(outputs, order) && op.SetVar? ==> IsPin(outputs, Coil(op.pin))
  {
    hide Coil;
    if order != [] {
      BootWritesPins(outputs, order[1..]);
      var id := order[0];
      if id in outputs && outputs[id].WOShutter? {
        assert outputs[id].io.varUp in Pins(outputs[id]) && outputs[id].io.varDown in Pins(outputs[id]);
      }
    }
  }

  lemma EventKeepsOwnPins(outputs: Outputs, s: State, ev: Event)
    requires OwnPins(outputs, s) && Enabled(s, ev)
    ensures OwnPins(outputs, Apply(outputs, s, ev))
  {
    hide Coil, Step, CommandPlan, TimerPlan, Pins, Reachable;
    match ev
    case Operate(e) =>
      StepKeepsOwnPins(outputs, s, e);
    case Command(cmd) =>
      CommandWritesOwn(outputs, s, cmd);
    case Timer(order, now) =>
      forall op | op in TimerPlan(outputs, s.tasks, order, now) && op.SetVar?
        ensures IsPin(outputs, Coil(op.pin))
      {
        var j := TimerWritesDue(outputs, s.tasks, order, now, op);
      }
    case KeepAlive(_) =>
  }

  lemma {:induction false} RunKeepsOwnPins(outputs: Outputs, s0: State, events: seq<Event>, s: State)
    requires OwnPins(outputs, s0) && Runs(outputs, s0, events, s)
    ensures OwnPins(outputs, s)
    decreases |events|
  {
    hide OwnPins, Apply;
    if events != [] {
      EventKeepsOwnPins(outputs, s0, events[0]);
      RunKeepsOwnPins(outputs, Apply(outputs, s0, events[0]), events[1..], s);
    }
  }

  /** Every write of every run is to a coil of an output: its address fits 16 bits and has bit 12 set, and its other bits are those
      of a configured variable. */
  lemma WritesAreToPins(outputs: Outputs, order: seq<Id>, now: Instant, events: seq<Event>, s: State, k: nat) returns (id: Id, p: Var)
    requires Runs(outputs, Initial(outputs, order, now), events, s) && k < |s.client.log|
    ensures id in outputs && p in Pins(outputs[id])
    ensures var raw := s.client.log[k].address.raw;
            raw <= 0xFFFF && raw & 0x1000 == 0x1000 && raw & 0xFFFF_EFFF == p & 0xFFFF_EFFF
  {
    hide Coil, Runs, Pins, BootPlan;
    BootWritesPins(outputs, order);
    RunKeepsOwnPins(outputs, Initial(outputs, order, now), events, s);
    assert IsPin(outputs, s.client.log[k].address);
    id, p :| id in outputs && p in Pins(outputs[id]) && s.client.log[k].address == Coil(p);
    CoilSetsBitTwelve(p);
  }

  /** When a shutter is told to move, its deadline is the configured time after the instant at which the turn ends - no sooner and
      no later - whatever the surroundings do. */
  lemma DeadlineIsExact(s: State, id: Id, io: UpDown, command: ShutterState, envs: seq<Env>)
    requires s.todo == [] && !s.client.failed && |envs| >= |MovePlan(id, io, command)|
    requires !Drain(s.(todo := MovePlan(id, io, command)), envs).client.failed
    ensures var end := Drain(s.(todo := MovePlan(id, io, command)), envs);
            && id in end.tasks && end.tasks[id].deadline == end.client.clock + io.time
            && end.tasks[id].target == Shutter(if command.Up? || command.MovingUp? then Up else Down)
            && end.starts == s.starts + 1
  {
    hide Coil, Drain, Step, MovePlan;
    var s0 := s.(todo := MovePlan(id, io, command));
    MoveOps(id, io, command);
    DrainStep(s0, envs);
    WriteLeavesTurn(s0, envs[0]);
    var s1 := Step(s0, envs[0]);
    DrainStep(s1, envs[1..]);
    WriteLeavesTurn(s1, envs[1]);
    var s2 := Step(s1, envs[1]);
    DrainStep(s2, envs[1..][1..]);
    WriteLeavesTurn(s2, envs[2]);
    var s3 := Step(s2, envs[2]);
    LastTwoSteps(s3, s3.todo[0], id, s3.todo[1].state, envs[1..][1..][1..]);
  }

  lemma MoveOps(id: Id, io: UpDown, command: ShutterState)
    ensures var ops := MovePlan(id, io, command);
            && |ops| == 5 && ops[0].SetVar? && ops[1].SetVar? && ops[2].SetVar?
            && ops[3] == StartTask(id, io.time, Shutter(if command.Up? || command.MovingUp? then Up else Down))
            && ops[4].UpdateState? && ops[4].id == id
  {
  }

  lemma WriteLeavesTurn(s: State, e: Env)
    requires s.todo != [] && s.todo[0].SetVar? && !Step(s, e).client.failed
    ensures Step(s, e) == s.(todo := s.todo[1..], client := Step(s, e).client)
  {
    hide WriteSingleCoil;
  }
}
