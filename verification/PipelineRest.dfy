/** The pipeline comes to rest: as long as Modbus responds and the feedback is heard in time, the program does not end, and left
    alone it gets everything done. */
module PipelineRest {
  import opened Basics
  import opened IoValues
  import opened Pipeline
  import opened PipelineSafety
  import opened PipelineProgress
  import Coils
  import F = WagoControllerFeedback
  import Interlock = WagoInterlock
  import Modbus
  import Moves = WagoControllerMoves
  import W = WagoController

  /** Every request of every controller has an address. */
  ghost predicate Addressed(home: Home)
  {
    forall k :: 0 <= k < |home.controllers| ==> Interlock.Addressable(home.controllers[k])
  }

  /** Modbus responds, and the rules engine is not lagging when it hears a message. */
  ghost predicate GoesWell(home: Home, s: Sys, step: Step)
    requires ChannelsValid(home, s)
  {
    match step
    case KeepAlive(_, env) => env.ok
    case Controller(_, ev) => ev.Operate? ==> ev.env.ok
    case Hear => |s.feedback.Pending()| <= home.lagBound
    case _ => true
  }

  /** The steps can be taken from `s`, and all of them go well. */
  ghost predicate AllGoesWell(home: Home, s: Sys, steps: seq<Step>)
    requires ChannelsValid(home, s)
    decreases |steps|
  {
    steps == [] ||
    (&& Enabled(home, s, steps[0]) && GoesWell(home, s, steps[0])
     && (StepKeepsChannels(home, s, steps[0]); AllGoesWell(home, Apply(home, s, steps[0]), steps[1..])))
  }

  ghost predicate NodeReady(state: W.State)
  {
    !state.client.failed && Interlock.OpsAddressable(state.todo)
  }

  /** The program is up, and no turn in progress is bound to fail. */
  ghost predicate Ready(s: Sys)
  {
    !s.down && forall k :: 0 <= k < |s.nodes| ==> NodeReady(s.nodes[k].state)
  }

  // ----- one controller -----

  lemma OperateKeepsReady(s: W.State, e: Modbus.Env)
    requires s.todo != [] && NodeReady(s)
    ensures e.ok ==> !W.Step(s, e).client.failed
    ensures !W.Step(s, e).client.failed ==> NodeReady(W.Step(s, e))
  {
    hide Coils.CoilAddress, Coils.InputAddress, Modbus.Pause;
    assert s.todo[0] in s.todo;
  }

  lemma CommandPlanAddressable(outputs: W.Outputs, s: W.State, cmd: IODataAction)
    requires Interlock.Addressable(outputs)
    ensures Interlock.OpsAddressable(W.CommandPlan(outputs, s, cmd))
  {
    hide Coils.CoilAddress, Coils.InputAddress, W.ShutterCommand;
  }

  predicate EventOk(ev: W.Event)
  {
    match ev
    case Operate(e) => e.ok
    case KeepAlive(e) => e.ok
    case _ => true
  }

  /** A controller fails only with a request of its own. */
  lemma EventKeepsReady(outputs: W.Outputs, s: W.State, ev: W.Event)
    requires Interlock.Addressable(outputs) && NodeReady(s) && W.Enabled(s, ev)
    ensures EventOk(ev) ==> !W.Apply(outputs, s, ev).client.failed
    ensures !W.Apply(outputs, s, ev).client.failed ==> NodeReady(W.Apply(outputs, s, ev))
    ensures ev.KeepAlive? ==> (W.Apply(outputs, s, ev).client.failed <==> !ev.env.ok)
  {
    hide W.Step, W.CommandPlan, W.TimerPlan, Interlock.Addressable, Interlock.OpsAddressable, W.TimerReady;
    match ev
    case Operate(e) => OperateKeepsReady(s, e);
    case Command(cmd) => CommandPlanAddressable(outputs, s, cmd);
    case Timer(order, now) =>
      assert Interlock.Bootable(outputs) by { AddressableIsBootable(outputs); }
      Moves.TimerPlanAddressable(outputs, s.tasks, order, now);
    case KeepAlive(_) =>
  }

  lemma AddressableIsBootable(outputs: W.Outputs)
    requires Interlock.Addressable(outputs)
    ensures Interlock.Bootable(outputs)
  {
  }

  // ----- the system -----

  /** A step that goes well keeps the program up, and a step that keeps it up keeps it ready. Hearing a message brings it down
      exactly when more are pending than the lag bound allows, and keeping alive exactly when the request fails. */
  lemma StepKeepsReady(home: Home, s: Sys, step: Step)
    requires ChannelsValid(home, s) && Addressed(home) && Ready(s) && Enabled(home, s, step)
    ensures ChannelsValid(home, Apply(home, s, step))
    ensures GoesWell(home, s, step) ==> !Apply(home, s, step).down
    ensures !Apply(home, s, step).down ==> Ready(Apply(home, s, step))
    ensures step.Hear? ==> (Apply(home, s, step).down <==> |s.feedback.log| - s.feedback.read > home.lagBound)
    ensures step.KeepAlive? ==> (Apply(home, s, step).down <==> !step.env.ok)
  {
    hide NodeReady, W.Apply, W.TimerReady, Enumerates, Interlock.Addressable;
    StepKeepsChannels(home, s, step);
    match step
    case Controller(k, ev) => EventKeepsReady(home.controllers[k], s.nodes[k].state, ev);
    case KeepAlive(k, env) => EventKeepsReady(home.controllers[k], s.nodes[k].state, W.KeepAlive(env));
    case _ =>
  }

  lemma InitialIsReady(home: Home, orders: seq<seq<Id>>, now: Instant)
    requires Addressed(home) && |orders| == |home.controllers|
    ensures Ready(Initial(home, orders, now))
  {
    hide Interlock.Addressable, Interlock.OpsAddressable;
    forall k | 0 <= k < |orders|
      ensures NodeReady(W.Initial(home.controllers[k], orders[k], now))
    {
      AddressableIsBootable(home.controllers[k]);
      Interlock.BootPlanAddressable(home.controllers[k], orders[k]);
    }
  }

  /** A run whose end is up is ready all along. */
  lemma {:induction false} RunKeepsReady(home: Home, s0: Sys, steps: seq<Step>, s: Sys)
    requires ChannelsValid(home, s0) && Addressed(home) && Ready(s0) && Runs(home, s0, steps, s) && !s.down
    ensures Ready(s)
    decreases |steps|
  {
    hide Addressed, Apply, GoesWell, ChannelsValid, NodeReady;
    if steps != [] {
      StepKeepsReady(home, s0, steps[0]);
      RunKeepsReady(home, Apply(home, s0, steps[0]), steps[1..], s);
    }
  }

  /** As long as all goes well the program stays up, whatever comes in from outside. */
  lemma {:induction false} RunStaysUp(home: Home, s0: Sys, steps: seq<Step>, s: Sys)
    requires ChannelsValid(home, s0) && Addressed(home) && Ready(s0) && Runs(home, s0, steps, s) && AllGoesWell(home, s0, steps)
    ensures Ready(s)
    decreases |steps|
  {
    hide Ready, Addressed, Apply, Enabled, GoesWell, ChannelsValid;
    if steps != [] {
      StepKeepsReady(home, s0, steps[0]);
      RunStaysUp(home, Apply(home, s0, steps[0]), steps[1..], s);
    }
  }

  /** In every reachable state in which the program is up, it is ready to go on. */
  lemma UpIsReady(home: Home, orders: seq<seq<Id>>, now: Instant, steps: seq<Step>, s: Sys)
    requires Addressed(home) && |orders| == |home.controllers|
    requires ChannelsValid(home, Initial(home, orders, now)) && Runs(home, Initial(home, orders, now), steps, s) && !s.down
    ensures Ready(s)
  {
    hide Initial, Runs, Addressed, Ready, ChannelsValid;
    InitialIsReady(home, orders, now);
    RunKeepsReady(home, Initial(home, orders, now), steps, s);
  }

  /** With Modbus responding and the feedback heard in time, the program never ends; where nothing is left that it could do, it is
      quiet, every shared value is the local value of its controller, and every motor is off. */
  lemma DrainsToRest(home: Home, orders: seq<seq<Id>>, now: Instant, steps: seq<Step>, s: Sys)
    requires WellFormed(home) && Addressed(home) && |orders| == |home.controllers|
    requires forall k :: 0 <= k < |orders| ==> Enumerates(orders[k], home.controllers[k].Keys)
    requires ChannelsValid(home, Initial(home, orders, now)) && Runs(home, Initial(home, orders, now), steps, s)
    requires AllGoesWell(home, Initial(home, orders, now), steps)
    ensures !s.down && ChannelsValid(home, s)
    ensures (forall step :: Works(step) ==> !Enabled(home, s, step)) ==>
              Quiet(home, s) && forall k :: 0 <= k < |s.nodes| ==> AtRest(home, s, k)
  {
    hide Inv, Initial, Enumerates, Runs, WellFormed, Addressed, AllGoesWell, Enabled, Quiet, AtRest, ChannelsValid, Works;
    EveryRun(home, orders, now, steps, s);
    InvChannels(home, s);
    InitialIsReady(home, orders, now);
    RunStaysUp(home, Initial(home, orders, now), steps, s);
    if !Quiet(home, s) {
      var step := SomethingCanBeDone(home, s);
    } else {
      QuietRests(home, s);
    }
  }

  // ----- a way to rest -----

  /** One step broadcasts at most one message. */
  lemma TellsAtMostOne(home: Home, s: Sys, step: Step)
    requires ChannelsValid(home, s) && Enabled(home, s, step)
    ensures ChannelsValid(home, Apply(home, s, step))
    ensures |Apply(home, s, step).feedback.Pending()| <= |s.feedback.Pending()| + 1
  {
    hide W.Step, W.Receive, W.Fire, W.Enabled;
    StepKeepsChannels(home, s, step);
    if step.Controller? {
      var state := s.nodes[step.k].state;
      match step.ev {
        case Operate(e) => F.StepTells(state, e);
        case Command(cmd) => ReceiveIsSilent(home.controllers[step.k], state, cmd);
        case Timer(order, now) => FireIsSilent(home.controllers[step.k], state, order, now);
      }
    }
  }

  /** There is always a step that gets something done, goes well, and leaves no more feedback than may be left. */
  lemma GoodStep(home: Home, s: Sys) returns (step: Step)
    requires WellFormed(home) && Inv(home, s) && ChannelsValid(home, s) && !s.down && !Quiet(home, s)
    requires 0 < home.lagBound && |s.feedback.Pending()| <= home.lagBound
    ensures Works(step) && Enabled(home, s, step) && GoesWell(home, s, step)
    ensures ChannelsValid(home, Apply(home, s, step))
    ensures |Apply(home, s, step).feedback.Pending()| <= home.lagBound
  {
    hide Inv, WellFormed, Quiet, W.Enabled;
    if s.feedback.Pending() != [] {
      step := Hear;
      StepKeepsChannels(home, s, step);
      assert Apply(home, s, step).feedback.Pending() == s.feedback.Pending()[1..];
    } else {
      step := SomethingCanBeDone(home, s);
      TellsAtMostOne(home, s, step);
    }
  }

  lemma {:induction false} WayToRest(home: Home, s: Sys) returns (steps: seq<Step>, s': Sys)
    requires WellFormed(home) && Addressed(home) && Inv(home, s) && Ready(s)
    requires ChannelsValid(home, s) && 0 < home.lagBound && |s.feedback.Pending()| <= home.lagBound
    ensures Runs(home, s, steps, s') && AllGoesWell(home, s, steps) && forall step :: step in steps ==> Works(step)
    ensures |steps| <= Measure(home, s)
    ensures ChannelsValid(home, s') && Inv(home, s') && Ready(s') && Quiet(home, s')
    ensures forall k :: 0 <= k < |s'.nodes| ==> AtRest(home, s', k)
    decreases Measure(home, s)
  {
    hide WellFormed, Addressed, Inv, Apply, Enabled, GoesWell, Measure, Quiet, AtRest, ChannelsValid, Works, NodeReady;
    if Quiet(home, s) {
      steps, s' := [], s;
      QuietRests(home, s);
    } else {
      var step := GoodStep(home, s);
      var s1 := Apply(home, s, step);
      StepKeepsInv(home, s, step);
      StepKeepsReady(home, s, step);
      assert Internal(step) && Measure(home, s1) < Measure(home, s) by { WorkIsUsed(home, s, step); }
      var rest;
      rest, s' := WayToRest(home, s1);
      steps := [step] + rest;
      assert steps[1..] == rest;
    }
  }

  lemma WorkIsUsed(home: Home, s: Sys, step: Step)
    requires ChannelsValid(home, s) && Enabled(home, s, step) && Works(step)
    ensures Internal(step) && ChannelsValid(home, Apply(home, s, step))
    ensures Measure(home, Apply(home, s, step)) < Measure(home, s)
  {
    hide Apply, Enabled, Measure;
    StepUsesWork(home, s, step);
  }

  /** The way to rest exists: from every reachable state in which the program is up and its feedback does not lag yet, there is a
      run of at most `Measure` steps, nothing coming in from outside, in which all goes well and everything gets done. */
  lemma CanComeToRest(home: Home, orders: seq<seq<Id>>, now: Instant, before: seq<Step>, s: Sys)
    returns (steps: seq<Step>, s': Sys)
    requires WellFormed(home) && Addressed(home) && 0 < home.lagBound && |orders| == |home.controllers|
    requires forall k :: 0 <= k < |orders| ==> Enumerates(orders[k], home.controllers[k].Keys)
    requires ChannelsValid(home, Initial(home, orders, now)) && Runs(home, Initial(home, orders, now), before, s)
    requires ChannelsValid(home, s) && !s.down && |s.feedback.Pending()| <= home.lagBound
    ensures Runs(home, s, steps, s') && AllGoesWell(home, s, steps) && forall step :: step in steps ==> Works(step)
    ensures |steps| <= Measure(home, s)
    ensures ChannelsValid(home, s') && !s'.down && Quiet(home, s')
    ensures forall k :: 0 <= k < |s'.nodes| ==> k < |home.controllers| && AtRest(home, s', k)
  {
    hide Inv, Initial, Enumerates, Runs, WellFormed, Addressed, AllGoesWell, Quiet, AtRest, Works, NodeReady, Measure;
    EveryRun(home, orders, now, before, s);
    UpIsReady(home, orders, now, before, s);
    steps, s' := WayToRest(home, s);
  }
}
