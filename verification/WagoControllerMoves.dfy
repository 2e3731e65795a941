/** Moves do come to their end: what the safety theorems speak of really happens. */
module WagoControllerMoves {
  import opened Basics
  import opened Coils
  import opened IoValues
  import opened Modbus
  import opened WagoController
  import opened WagoControllerSafety
  import opened WagoInterlock

  lemma {:induction false} TimerPlanAddressable(outputs: Outputs, tasks: map<Id, Task>, order: seq<Id>, now: Instant)
    requires Bootable(outputs)
    ensures OpsAddressable(TimerPlan(outputs, tasks, order, now))
    ensures forall op :: op in TimerPlan(outputs, tasks, order, now) ==>
              !op.ReadVar? && (op.UpdateState? ==> op.id in outputs)
  {
    hide CoilAddress, InputAddress, Bootable, ExpirePlan;
    if order != [] {
      TimerPlanAddressable(outputs, tasks, order[1..], now);
      ExpirePlanAddressable(outputs, tasks, order[0], now);
      assert TimerPlan(outputs, tasks, order, now)
          == ExpirePlan(outputs, tasks, order[0], now) + TimerPlan(outputs, tasks, order[1..], now);
    }
  }

  lemma ExpirePlanAddressable(outputs: Outputs, tasks: map<Id, Task>, id: Id, now: Instant)
    requires Bootable(outputs)
    ensures OpsAddressable(ExpirePlan(outputs, tasks, id, now))
    ensures forall op :: op in ExpirePlan(outputs, tasks, id, now) ==>
              !op.ReadVar? && (op.UpdateState? ==> op.id in outputs)
  {
    hide CoilAddress, InputAddress;
  }

  /** From any loop head, when no request fails, a pending task is carried out without any further command: a timer turn leaves
      its shutter in the target state, both coils off and no task left. */
  lemma MoveArrives(outputs: Outputs, s: State, id: Id) returns (events: seq<Event>, s': State)
    requires Bootable(outputs) && Disjoint(outputs) && Settled(outputs, s) && s.todo == [] && id in s.tasks
    ensures Runs(outputs, s, events, s') && s'.todo == [] && Settled(outputs, s')
    ensures forall ev :: ev in events ==> !ev.Command?
    ensures id in outputs && outputs[id].WOShutter? && Rests(s'.client.log, outputs[id].io) && id !in s'.tasks
    ensures id in s'.values && s'.values[id] == Some(s.tasks[id].target)
  {
    hide Coil, LogFine, LastWrite, Disjoint, Drain, TimerPlan, AtHead, Bootable, Expiring;
    var order := Enumeration(s.tasks.Keys);
    var now := if s.tasks[id].deadline < s.client.clock then s.client.clock else s.tasks[id].deadline;
    assert TimerReady(s, now);
    var s0 := Fire(outputs, s, order, now);
    TimerIsSound(outputs, s, order, now);
    TimerPlanAddressable(outputs, s.tasks, order, now);
    KeysAtHead(outputs, s);
    var envs := Smoothly(|s0.todo|);
    SmoothTurn(s0, envs);
    s' := Drain(s0, envs);
    assert Fine(outputs, s') by { SoundEnds(outputs, s0, envs); }
    Unfold(outputs, s, s', now, [], id);
    events := DrainIsRun(outputs, s0, envs);
    var turn := Timer(order, now);
    assert ([turn] + events)[1..] == events;
    events := [turn] + events;
  }

  lemma RunSettles(outputs: Outputs, order: seq<Id>, events: seq<Event>, s: State)
    requires Disjoint(outputs) && Enumerates(order, outputs.Keys) && Runs(outputs, Initial(outputs, order, 0), events, s)
    requires s.todo == [] && !s.client.failed
    ensures Settled(outputs, s)
  {
    hide Disjoint, Enumerates, Runs, Initial, LogFine, AtHead, Sound;
    BootIsSound(outputs, order, 0);
    RunIsSound(outputs, Initial(outputs, order, 0), events, s);
    HeadIsSettled(outputs, s);
  }

  /** A shutter gets where it is told to go: if the initialisation can get to its end and no two pins are on one coil, there is,
      for either direction, a run from the start of the controller to a state in which its motor is on that way and the other way
      off, and on from there, without another command, to one in which it has arrived and both coils are off. */
  lemma ShutterArrives(outputs: Outputs, id: Id, up: bool)
    returns (order: seq<Id>, departure: seq<Event>, moving: State, arrival: seq<Event>, s: State)
    requires Bootable(outputs) && Disjoint(outputs) && id in outputs && outputs[id].WOShutter?
    ensures Enumerates(order, outputs.Keys) && Runs(outputs, Initial(outputs, order, 0), departure, moving)
    ensures Moves(moving.client.log, Coil(Motor(outputs[id].io, up)), Coil(Motor(outputs[id].io, !up)))
    ensures Runs(outputs, moving, arrival, s) && forall ev :: ev in arrival ==> !ev.Command?
    ensures s.todo == [] && Settled(outputs, s) && id in s.values && s.values[id] == Some(Shutter(if up then Up else Down))
    ensures Rests(s.client.log, outputs[id].io)
  {
    hide Coil, LogFine, LastWrite, Disjoint, Bootable, Initial, Runs, Enumerates, AtHead;
    var boot, move, s0;
    order, boot, s0 := SmoothBoot(outputs);
    move, moving := SmoothMove(outputs, s0, id, up);
    departure := boot + move;
    RunsConcat(outputs, Initial(outputs, order, 0), boot, s0, move, moving);
    RunSettles(outputs, order, departure, moving);
    MotorTells(outputs, moving, id, up);
    arrival, s := MoveArrives(outputs, moving, id);
  }

  /** At a loop head a motor that is on determines the pending target. */
  lemma MotorTells(outputs: Outputs, s: State, id: Id, up: bool)
    requires AtHead(outputs, s) && id in outputs && outputs[id].WOShutter? && On(s.client.log, Coil(Motor(outputs[id].io, up)))
    ensures Moves(s.client.log, Coil(Motor(outputs[id].io, up)), Coil(Motor(outputs[id].io, !up)))
    ensures id in s.tasks && s.tasks[id].target == Shutter(if up then Up else Down)
  {
    hide Coil, LastWrite;
    assert Agrees(s, id, outputs[id]);
  }
}
