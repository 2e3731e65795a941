/** Exactly for which wirings values, coils and tasks agree at the loop heads of all runs. */
module WagoAgreement {
  import opened Basics
  import opened Coils
  import opened IoValues
  import opened Modbus
  import opened WagoController
  import opened WagoControllerSafety
  import opened WagoInterlock

  /** A shutter can be stopped: both its coils are off at the end of the turn. */
  lemma SmoothStop(outputs: Outputs, s: State, id: Id) returns (events: seq<Event>, s': State)
    requires Bootable(outputs) && Waiting(outputs, s) && id in outputs && outputs[id].WOShutter?
    ensures Runs(outputs, s, events, s') && Waiting(outputs, s') && OthersKept(s, s', id)
    ensures Rests(s'.client.log, outputs[id].io)
  {
    hide Coil, LastWrite, CoilAddress, Drain, Runs;
    var io := outputs[id].io;
    var cmd := IODataAction(id, Stop);
    var s0 := Receive(outputs, s, cmd);
    assert s0.todo == StopPlan(id, io);
    var envs := Smoothly(4);
    ShutterStarts(outputs, id);
    DrainStep(s0, envs);
    SmoothWrite(s0);
    var s1 := Step(s0, SMOOTH);
    DrainStep(s1, envs[1..]);
    SmoothWrite(s1);
    var s2 := Step(s1, SMOOTH);
    LastTwoSteps(s2, s2.todo[0], id, Shutter(Up), envs[1..][1..]);
    s' := Drain(s0, envs);
    events := DrainIsRun(outputs, s0, envs);
    events := CommandRun(outputs, s, cmd, events, s');
  }

  /** An output can be made to leave a coil of its own on, or off, without any other output having another value. */
  lemma SmoothSwitch(outputs: Outputs, s: State, id: Id, pin: Var, on: bool) returns (events: seq<Event>, s': State)
    requires Bootable(outputs) && Waiting(outputs, s) && id in outputs && pin in Pins(outputs[id]) && Reachable(Coil(pin))
    ensures Runs(outputs, s, events, s') && Waiting(outputs, s') && OthersKept(s, s', id)
    ensures if on then On(s'.client.log, Coil(pin)) && JustWritten(s'.client, Coil(pin)) else Off(s'.client.log, Coil(pin))
  {
    hide Coil, LastWrite, Runs, Bootable, Waiting, Reachable;
    match outputs[id] {
      case WODigital(_) =>
        events, s' := SmoothDigital(outputs, s, id, on);
      case WOShutter(io) =>
        if on {
          events, s' := SmoothMove(outputs, s, id, pin == io.varUp);
        } else {
          events, s' := SmoothStop(outputs, s, id);
        }
    }
  }

  /** The value of an output says whether a coil of its own is on: in two states it agrees with, it cannot be on in one and off in
      the other with the same value. */
  lemma ValueTells(s1: State, s2: State, id: Id, kind: OutputKind, pin: Var)
    requires Agrees(s1, id, kind) && Agrees(s2, id, kind) && s1.values[id] == s2.values[id] && pin in Pins(kind)
    ensures !(On(s1.client.log, Coil(pin)) && Off(s2.client.log, Coil(pin)))
  {
    hide Coil, LastWrite;
  }

  lemma OneCoilForBothDisagrees(s: State, id: Id, io: UpDown)
    requires Coil(io.varUp) == Coil(io.varDown) && On(s.client.log, Coil(io.varUp))
    ensures !Agrees(s, id, WOShutter(io))
  {
    hide Coil, LastWrite;
  }

  /** Some state at a loop head, reached without failure, in which not everything agrees. */
  ghost predicate Disagreement(outputs: Outputs, order: seq<Id>, events: seq<Event>, s: State)
  {
    && Enumerates(order, outputs.Keys) && Runs(outputs, Initial(outputs, order, 0), events, s)
    && s.todo == [] && !s.client.failed && !AtHead(outputs, s)
  }

  lemma SelfAliasDisagrees(outputs: Outputs, id: Id) returns (order: seq<Id>, events: seq<Event>, s: State)
    requires Bootable(outputs) && id in outputs && outputs[id].WOShutter?
    requires Coil(outputs[id].io.varUp) == Coil(outputs[id].io.varDown)
    ensures Disagreement(outputs, order, events, s)
  {
    hide Coil, LastWrite, Runs, Bootable, Initial, Enumerates, Agrees, On;
    var boot, move, s0;
    order, boot, s0 := SmoothBoot(outputs);
    move, s := SmoothMove(outputs, s0, id, true);
    RunsConcat(outputs, Initial(outputs, order, 0), boot, s0, move, s);
    events := boot + move;
    OneCoilForBothDisagrees(s, id, outputs[id].io);
  }

  /** Two outputs on one coil: one switches it on and off again, and cannot have agreed with the other both times. */
  lemma SharedCoilDisagrees(outputs: Outputs, i: Id, j: Id, p: Var, q: Var)
    returns (order: seq<Id>, events: seq<Event>, s: State)
    requires Bootable(outputs) && i in outputs && j in outputs && i != j && p in Pins(outputs[i]) && q in Pins(outputs[j])
    requires Coil(p) == Coil(q) && Reachable(Coil(p))
    ensures Disagreement(outputs, order, events, s)
  {
    hide Coil, LastWrite, Runs, Bootable, Initial, Enumerates, Agrees, On, Off, Reachable, Pins;
    var boot, on, off, s0, s1;
    order, boot, s0 := SmoothBoot(outputs);
    on, s1 := SmoothSwitch(outputs, s0, i, p, true);
    RunsConcat(outputs, Initial(outputs, order, 0), boot, s0, on, s1);
    off, s := SmoothSwitch(outputs, s1, i, p, false);
    RunsConcat(outputs, Initial(outputs, order, 0), boot + on, s1, off, s);
    events := boot + on + off;
    if AtHead(outputs, s1) && AtHead(outputs, s) {
      ValueTells(s1, s, j, outputs[j], q);
    } else if !AtHead(outputs, s1) {
      events, s := boot + on, s1;
    }
  }

  lemma SharedWiringDisagrees(outputs: Outputs) returns (order: seq<Id>, events: seq<Event>, s: State)
    requires Bootable(outputs) && !Disjoint(outputs)
    ensures Disagreement(outputs, order, events, s)
  {
    hide Coil, Reachable, Bootable, Disagreement;
    if id :| id in outputs && outputs[id].WOShutter? && Coil(outputs[id].io.varUp) == Coil(outputs[id].io.varDown) {
      order, events, s := SelfAliasDisagrees(outputs, id);
    } else {
      var i, j, p, q :| i in outputs && j in outputs && i != j && p in Pins(outputs[i]) && q in Pins(outputs[j])
                        && Reachable(Coil(p)) && Coil(p) == Coil(q);
      order, events, s := SharedCoilDisagrees(outputs, i, j, p, q);
    }
  }

  /** Agreement, exactly, for every configuration: values, coils and tasks agree at every loop head of every run, as long as nothing
      has failed, if and only if no two pins name one coil that can be written, or the loop is never reached. */
  lemma AgreementIffDisjoint(outputs: Outputs)
    ensures Disjoint(outputs) || !Bootable(outputs) <==>
            forall order, now, events, s ::
              Enumerates(order, outputs.Keys) && Runs(outputs, Initial(outputs, order, now), events, s)
              && s.todo == [] && !s.client.failed ==>
                AtHead(outputs, s)
  {
    hide Runs, AtHead, Disjoint, Enumerates, Bootable, Initial, Interlocked, FullTravel, Spaced;
    if Disjoint(outputs) || !Bootable(outputs) {
      forall order, now, events, s | Enumerates(order, outputs.Keys) && Runs(outputs, Initial(outputs, order, now), events, s)
                                     && s.todo == [] && !s.client.failed
        ensures AtHead(outputs, s)
      {
        if Disjoint(outputs) {
          ControllerIsSafe(outputs, order, now, events, s);
        } else {
          UnbootableIsInterlocked(outputs, order, now, events, s);
        }
      }
    } else {
      var order, events, s := SharedWiringDisagrees(outputs);
      assert Runs(outputs, Initial(outputs, order, 0), events, s) && !AtHead(outputs, s);
    }
  }
}
