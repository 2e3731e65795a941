/** The controllers inside the system: each of them makes a run of its own, so what holds of every such run holds there. */
module PipelineMotors {
  import opened Basics
  import opened IoValues
  import opened Pipeline
  import opened PipelineProgress
  import opened PipelineSafety
  import Coils
  import Interlock = WagoInterlock
  import Journeys = WagoControllerJourneys
  import Life = WagoControllerLife
  import Modbus
  import Owners = WagoControllerOwners
  import Safety = WagoControllerSafety
  import Travel = WagoTravel
  import W = WagoController

  /** Whatever the tasks around it do, controller `k` makes a run of the machine. */
  lemma {:induction false} ControllerRuns(home: Home, s0: Sys, steps: seq<Step>, s: Sys, k: nat) returns (events: seq<W.Event>)
    requires ChannelsValid(home, s0) && Runs(home, s0, steps, s) && k < |home.controllers|
    ensures |s.nodes| == |home.controllers| && W.Runs(home.controllers[k], s0.nodes[k].state, events, s.nodes[k].state)
    decreases |steps|
  {
    hide W.Enabled, W.Apply;
    events := [];
    if steps != [] {
      var step := steps[0];
      StepKeepsChannels(home, s0, step);
      events := ControllerRuns(home, Apply(home, s0, step), steps[1..], s, k);
      if step.Controller? && step.k == k {
        assert ([step.ev] + events)[1..] == events;
        events := [step.ev] + events;
      } else if step.KeepAlive? && step.k == k {
        var ev := W.KeepAlive(step.env);
        assert ([ev] + events)[1..] == events;
        events := [ev] + events;
      } else {
        assert Apply(home, s0, step).nodes[k].state == s0.nodes[k].state;
      }
    }
  }

  /** In every reachable state of the system, whatever the tasks around them do, the relays of every controller are protected; its
      motors are interlocked if its wiring is safe, and its travels full if no coil of a slow shutter is shared, or if it cannot
      start. */
  lemma MotorsAreSafe(home: Home, orders: seq<seq<Id>>, now: Instant, steps: seq<Step>, s: Sys, k: nat)
    requires |orders| == |home.controllers| && k < |orders| && Enumerates(orders[k], home.controllers[k].Keys)
    requires ChannelsValid(home, Initial(home, orders, now)) && Runs(home, Initial(home, orders, now), steps, s)
    ensures |s.nodes| == |home.controllers|
    ensures Modbus.Spaced(s.nodes[k].state.client.log)
    ensures Interlock.SafeWiring(home.controllers[k]) || !Interlock.Bootable(home.controllers[k]) ==>
              Safety.Interlocked(home.controllers[k], s.nodes[k].state.client.log)
    ensures Travel.TravelSafe(home.controllers[k]) || !Interlock.Bootable(home.controllers[k]) ==>
              Safety.FullTravel(home.controllers[k], s.nodes[k].state.client.log)
  {
    hide Runs, Enumerates, Modbus.Spaced, Interlock.SafeWiring, Interlock.Bootable, Safety.Interlocked, Safety.Disjoint,
      Safety.FullTravel,
      Travel.TravelSafe, Owners.Owned, W.Initial;
    var events := ControllerRuns(home, Initial(home, orders, now), steps, s, k);
    Life.EveryRunIsSafe(home.controllers[k], orders[k], now, events, s.nodes[k].state);
  }

  /** Every coil that is on belongs to a digital output. */
  ghost predicate OnlyDigitalsOn(outputs: W.Outputs, log: seq<Modbus.Write>)
  {
    forall a :: Modbus.On(log, a) ==> exists id :: id in outputs && outputs[id].WODigital? && a == Coils.Coil(outputs[id].pin)
  }

  lemma IdleLeavesDigitals(outputs: W.Outputs, s: W.State)
    requires Owners.Owned(outputs, s) && s.tasks == map[]
    ensures OnlyDigitalsOn(outputs, s.client.log)
  {
    hide Coils.Coil, Modbus.On;
    forall a | Modbus.On(s.client.log, a)
      ensures exists id :: id in outputs && outputs[id].WODigital? && a == Coils.Coil(outputs[id].pin)
    {
      var id :| id in outputs && Owners.Owns(outputs[id], id, s.tasks, a);
    }
  }

  /** When the system has come to rest no motor has been left running, whatever the wiring: each coil that is on is one that a
      digital output has in its configuration. */
  lemma NoMotorLeftRunning(home: Home, orders: seq<seq<Id>>, now: Instant, steps: seq<Step>, s: Sys, k: nat)
    requires WellFormed(home) && |orders| == |home.controllers| && k < |orders|
    requires forall j :: 0 <= j < |orders| ==> Enumerates(orders[j], home.controllers[j].Keys)
    requires ChannelsValid(home, Initial(home, orders, now)) && Runs(home, Initial(home, orders, now), steps, s)
    requires ChannelsValid(home, s) && Quiet(home, s) && !s.down
    ensures OnlyDigitalsOn(home.controllers[k], s.nodes[k].state.client.log)
  {
    hide Inv, Runs, WellFormed, Enumerates, W.Initial, Owners.Owned, OnlyDigitalsOn;
    EveryRun(home, orders, now, steps, s);
    assert !s.nodes[k].state.client.failed by { InvNodes(home, s); NodeIsUp(home, s, k); }
    var events := ControllerRuns(home, Initial(home, orders, now), steps, s, k);
    Owners.EveryCoilIsOwned(home.controllers[k], orders[k], now, events, s.nodes[k].state);
    IdleLeavesDigitals(home.controllers[k], s.nodes[k].state);
  }

  lemma InvNodes(home: Home, s: Sys)
    requires Inv(home, s)
    ensures |s.nodes| == |home.controllers| && NodesFine(home, s)
  {
  }

  /** Where a shutter is, from end to end: when the system has come to rest, what rules and clients see of it is up or down, as its
      controller does; and down only if the last thing its motor did was a full journey down, ended by the timer. */
  lemma ShutterAtRest(home: Home, orders: seq<seq<Id>>, now: Instant, steps: seq<Step>, s: Sys, k: nat, id: Id)
    requires WellFormed(home) && |orders| == |home.controllers| && k < |orders|
    requires forall j :: 0 <= j < |orders| ==> Enumerates(orders[j], home.controllers[j].Keys)
    requires ChannelsValid(home, Initial(home, orders, now)) && Runs(home, Initial(home, orders, now), steps, s)
    requires ChannelsValid(home, s) && Quiet(home, s) && !s.down
    requires Safety.Disjoint(home.controllers[k]) && id in home.controllers[k] && home.controllers[k][id].WOShutter?
    ensures id in s.engine.outputs && s.engine.outputs[id] in {Some(Shutter(Up)), Some(Shutter(Down))}
    ensures s.engine.outputs[id] == Some(Shutter(Down)) ==>
              var io, log := home.controllers[k][id].io, s.nodes[k].state.client.log;
              exists j ::
                && Journeys.LastJourney(log, io, j)
                && Modbus.LastWrite(log[..j], log[j].address).value.done + io.time <= log[j].begin
  {
    hide Inv, Runs, WellFormed, Enumerates, W.Initial, Safety.Disjoint, Safety.AtHead, Modbus.LastWrite, Journeys.LastJourney;
    EveryRun(home, orders, now, steps, s);
    SharedValueIsLocal(home, s, k, id);
    var outputs, state := home.controllers[k], s.nodes[k].state;
    assert !state.client.failed by { InvNodes(home, s); NodeIsUp(home, s, k); }
    var events := ControllerRuns(home, Initial(home, orders, now), steps, s, k);
    Safety.ControllerIsSafe(outputs, orders[k], now, events, state);
    RestingValue(outputs, state, id);
    if state.values[id] == Some(Shutter(Down)) {
      var j := Journeys.DownMeansTravelled(outputs, orders[k], now, events, state, id);
    }
  }

  lemma RestingValue(outputs: W.Outputs, s: W.State, id: Id)
    requires Safety.AtHead(outputs, s) && s.tasks == map[] && id in outputs && outputs[id].WOShutter?
    ensures id in s.values && (s.values[id].None? || s.values[id] in {Some(Shutter(Up)), Some(Shutter(Down))})
  {
    hide Coils.Coil, Modbus.LastWrite;
    assert Safety.Agrees(s, id, outputs[id]);
    Safety.HeadShows(outputs, s, id);
    var value := s.values[id];
    assert value != Some(Shutter(MovingUp)) && value != Some(Shutter(MovingDown));
    if value.Some? {
      var state := value.value.state;
      assert value == Some(Shutter(state));
      assert state != MovingUp && state != MovingDown;
      assert state == Up || state == Down;
    }
  }
}
