/** From commands to coils, over whole runs: a digital output is what its commands make of the state first read for it, however
    rules, dispatcher, queues, timers and requests interleave. */
module PipelineCommands {
  import opened Basics
  import opened IoValues
  import opened FeedbackLog
  import opened IoContext
  import opened Pipeline
  import opened PipelineSafety
  import opened PipelineProgress
  import Commands = WagoControllerCommands
  import F = WagoControllerFeedback
  import Modbus
  import W = WagoController

  /** The value that the commands for digital output `id` lead to, from `start` on. */
  function After(start: bool, cmds: seq<IODataAction>, id: Id): bool
  {
    if cmds == [] then start
    else
      var last := cmds[|cmds| - 1];
      var before := After(start, cmds[..|cmds| - 1], id);
      if last.id != id then before
      else
        var next := Commands.NextDigital(before, last.action);
        if next.None? then before else next.value
  }

  /** The value of output `id` once the operations of a turn are done, reads aside. */
  function PendingValue(value: Option<IOValue>, ops: seq<W.Op>, id: Id): Option<IOValue>
    decreases |ops|
  {
    if ops == [] then value
    else PendingValue(if ops[0].UpdateState? && ops[0].id == id then Some(ops[0].state) else value, ops[1..], id)
  }

  /** How often the operations read the state of output `id`. */
  function ReadsOf(ops: seq<W.Op>, id: Id): nat
  {
    if ops == [] then 0 else (if ops[0].ReadVar? && ops[0].id == id then 1 else 0) + ReadsOf(ops[1..], id)
  }

  /** Digital output `id` will be, at the end of the turn in progress, what the commands received so far make of the state that
      the controller read first - or that reading is still to come, and no command has been received. */
  ghost predicate Follows(s: W.State, id: Id, cmds: seq<IODataAction>)
  {
    && id in s.values
    && (s.client.failed ||
        if s.values[id].None? then
          && cmds == [] && FirstSent(s.feedback, id).None?
          && ReadsOf(s.todo, id) <= 1 && forall op :: op in s.todo ==> !op.UpdateState?
        else
          && ReadsOf(s.todo, id) == 0 && FirstSent(s.feedback, id).Some? && FirstSent(s.feedback, id).value.Bool?
          && PendingValue(s.values[id], s.todo, id) == Some(Bool(After(FirstSent(s.feedback, id).value.b, cmds, id))))
  }

  // ----- one controller -----

  lemma {:induction false} NothingPends(value: Option<IOValue>, ops: seq<W.Op>, id: Id)
    requires forall op :: op in ops && op.UpdateState? ==> op.id != id
    ensures PendingValue(value, ops, id) == value
    decreases |ops|
  {
    if ops != [] {
      assert ops[0] in ops;
      NothingPends(value, ops[1..], id);
    }
  }

  lemma {:induction false} LastPends(value: Option<IOValue>, ops: seq<W.Op>, id: Id, v: IOValue)
    requires ops != [] && ops[|ops| - 1] == W.UpdateState(id, v)
    ensures PendingValue(value, ops, id) == Some(v)
    decreases |ops|
  {
    if |ops| > 1 {
      LastPends(if ops[0].UpdateState? && ops[0].id == id then Some(ops[0].state) else value, ops[1..], id, v);
    }
  }

  lemma {:induction false} NothingRead(ops: seq<W.Op>, id: Id)
    requires forall op :: op in ops ==> !op.ReadVar?
    ensures ReadsOf(ops, id) == 0
  {
    if ops != [] {
      assert ops[0] in ops;
      NothingRead(ops[1..], id);
    }
  }

  lemma {:induction false} ReadsOfConcat(a: seq<W.Op>, b: seq<W.Op>, id: Id)
    ensures ReadsOf(a + b, id) == ReadsOf(a, id) + ReadsOf(b, id)
  {
    if a == [] {
      assert a + b == b;
    } else {
      assert (a + b)[0] == a[0] && (a + b)[1..] == a[1..] + b;
      ReadsOfConcat(a[1..], b, id);
    }
  }

  /** The initialisation reads a digital output once. */
  lemma {:induction false} BootReadsOnce(outputs: W.Outputs, order: seq<Id>, id: Id)
    requires forall i, j :: 0 <= i < j < |order| ==> order[i] != order[j]
    ensures ReadsOf(W.BootPlan(outputs, order), id) <= if id in order then 1 else 0
    ensures forall op :: op in W.BootPlan(outputs, order) ==> !op.UpdateState?
  {
    if order != [] {
      BootReadsOnce(outputs, order[1..], id);
      var first := W.BootOutput(outputs, order[0]);
      ReadsOfConcat(first, W.BootPlan(outputs, order[1..]), id);
      assert order == [order[0]] + order[1..];
      assert ReadsOf(first, id) <= if id == order[0] then 1 else 0 by { OutputReadOnce(outputs, order[0], id); }
    }
  }

  lemma OutputReadOnce(outputs: W.Outputs, output: Id, id: Id)
    ensures ReadsOf(W.BootOutput(outputs, output), id) <= if id == output then 1 else 0
  {
    var ops := W.BootOutput(outputs, output);
    if output in outputs && outputs[output].WODigital? {
      assert ops[1..] == [];
    } else {
      NothingRead(ops, id);
    }
  }

  lemma InitialFollows(outputs: W.Outputs, order: seq<Id>, now: Instant, id: Id)
    requires Enumerates(order, outputs.Keys) && id in outputs
    ensures Follows(W.Initial(outputs, order, now), id, [])
  {
    BootReadsOnce(outputs, order, id);
  }

  /** What one operation does to the value and the report of a digital output. */
  lemma DigitalStep(outputs: W.Outputs, s: W.State, e: Modbus.Env, id: Id)
    requires s.todo != [] && F.OpFits(outputs, s, s.todo[0]) && id in outputs && outputs[id].WODigital? && id in s.values
    requires !W.Step(s, e).client.failed
    ensures var op, s' := s.todo[0], W.Step(s, e);
            && s'.todo == s.todo[1..] && id in s'.values
            && if op.ReadVar? && op.id == id then
                 s'.values[id] == Some(Bool(e.bit)) && s'.feedback == s.feedback + [IOData(id, Bool(e.bit))]
               else
                 && s'.values[id] == (if op.UpdateState? && op.id == id then Some(op.state) else s.values[id])
                 && (s.values[id].None? && !op.UpdateState? ==> FirstSent(s'.feedback, id) == FirstSent(s.feedback, id))
                 && (FirstSent(s.feedback, id).Some? ==> FirstSent(s'.feedback, id) == FirstSent(s.feedback, id))
  {
    hide FirstSent, Modbus.WriteSingleCoil;
    F.StepTells(s, e);
    var told := F.Told(s.todo[0], e);
    if told != [] {
      assert told == [told[0]];
      FirstSentAppend(s.feedback, told[0], id);
    } else {
      assert W.Step(s, e).feedback == s.feedback;
    }
  }

  lemma OperateKeepsFollows(outputs: W.Outputs, s: W.State, e: Modbus.Env, id: Id, cmds: seq<IODataAction>)
    requires s.todo != [] && !s.client.failed && F.Mirrors(outputs, s) && id in outputs && outputs[id].WODigital?
    requires Follows(s, id, cmds)
    ensures Follows(W.Step(s, e), id, cmds)
  {
    hide FirstSent, W.Step, F.ReportedOrPending;
    var op, s' := s.todo[0], W.Step(s, e);
    assert F.OpFits(outputs, s, op);
    F.StepAddsNoKeys(outputs, s, e);
    if !s'.client.failed {
      DigitalStep(outputs, s, e, id);
      if s.values[id].None? {
        assert forall op' :: op' in s'.todo ==> op' in s.todo;
        if op.ReadVar? && op.id == id {
          FirstSentAppend(s.feedback, IOData(id, Bool(e.bit)), id);
          NothingPends(s'.values[id], s'.todo, id);
        }
      }
    }
  }

  lemma AfterAppend(start: bool, cmds: seq<IODataAction>, cmd: IODataAction, id: Id)
    ensures After(start, cmds + [cmd], id)
            == var before := After(start, cmds, id);
               if cmd.id != id || Commands.NextDigital(before, cmd.action).None? then before
               else Commands.NextDigital(before, cmd.action).value
  {
    assert (cmds + [cmd])[..|cmds|] == cmds;
  }

  lemma CommandKeepsFollows(outputs: W.Outputs, s: W.State, cmd: IODataAction, id: Id, cmds: seq<IODataAction>)
    requires F.Mirrors(outputs, s) && s.todo == [] && !s.client.failed && id in outputs && outputs[id].WODigital?
    requires Follows(s, id, cmds)
    ensures Follows(W.Receive(outputs, s, cmd), id, cmds + [cmd])
  {
    hide FirstSent, W.CommandPlan, After, F.Mirrors, Commands.NextDigital, LastSent;
    F.HeadIsReported(outputs, s, id);
    var plan := W.CommandPlan(outputs, s, cmd);
    AfterAppend(FirstSent(s.feedback, id).value.b, cmds, cmd, id);
    if cmd.id == id {
      Commands.DigitalPlanMeaning(outputs, s, cmd);
    }
    if plan != [] {
      Commands.PlanUpdatesLast(outputs, s, cmd);
      NothingRead(plan, id);
      if cmd.id == id {
        LastPends(s.values[id], plan, id, plan[|plan| - 1].state);
      } else {
        NothingPends(s.values[id], plan, id);
      }
    }
  }

  lemma {:induction false} TimerLeavesDigitals(outputs: W.Outputs, tasks: map<Id, W.Task>, order: seq<Id>, now: Instant)
    ensures forall op :: op in W.TimerPlan(outputs, tasks, order, now) ==>
              !op.ReadVar? && (op.UpdateState? ==> op.id in outputs && outputs[op.id].WOShutter?)
  {
    if order != [] {
      TimerLeavesDigitals(outputs, tasks, order[1..], now);
    }
  }

  /** Every event of a controller keeps its digital outputs to their commands. */
  lemma EventKeepsFollows(outputs: W.Outputs, s: W.State, ev: W.Event, id: Id, cmds: seq<IODataAction>)
    requires F.Mirrors(outputs, s) && W.Enabled(s, ev)
    requires id in outputs && outputs[id].WODigital? && Follows(s, id, cmds)
    ensures Follows(W.Apply(outputs, s, ev), id, cmds + if ev.Command? then [ev.cmd] else [])
  {
    hide F.Mirrors, Follows, W.Step, W.Receive;
    match ev
    case Operate(e) =>
      assert cmds + [] == cmds;
      OperateKeepsFollows(outputs, s, e, id, cmds);
    case Command(cmd) =>
      CommandKeepsFollows(outputs, s, cmd, id, cmds);
    case Timer(order, now) =>
      assert cmds + [] == cmds;
      FireKeepsFollows(outputs, s, order, now, id, cmds);
    case KeepAlive(e) =>
      assert cmds + [] == cmds;
      KeepAliveKeepsFollows(s, e, id, cmds);
  }

  lemma FireKeepsFollows(outputs: W.Outputs, s: W.State, order: seq<Id>, now: Instant, id: Id, cmds: seq<IODataAction>)
    requires s.todo == [] && !s.client.failed && Follows(s, id, cmds) && id in outputs && outputs[id].WODigital?
    requires F.Mirrors(outputs, s)
    ensures Follows(W.Fire(outputs, s, order, now), id, cmds)
  {
    hide FirstSent, W.TimerPlan, After, F.Mirrors, LastSent;
    var plan := W.TimerPlan(outputs, s.tasks, order, now);
    F.HeadIsReported(outputs, s, id);
    TimerLeavesDigitals(outputs, s.tasks, order, now);
    NothingRead(plan, id);
    NothingPends(s.values[id], plan, id);
  }

  lemma KeepAliveKeepsFollows(s: W.State, e: Modbus.Env, id: Id, cmds: seq<IODataAction>)
    requires !s.client.failed && Follows(s, id, cmds)
    ensures Follows(s.(client := Modbus.ReadInputs(s.client, e)), id, cmds)
  {
    hide FirstSent, After;
  }

  // ----- the system -----

  /** Digital output `id` of controller `k` follows the commands that the controller has taken from its queue. */
  ghost predicate Obeys(home: Home, s: Sys, k: nat, id: Id)
    requires k < |s.nodes| && s.nodes[k].queue.Valid()
  {
    Follows(s.nodes[k].state, id, s.nodes[k].queue.log[..s.nodes[k].queue.read])
  }

  lemma StepKeepsObeying(home: Home, s: Sys, step: Step, k: nat, id: Id)
    requires Inv(home, s) && Enabled(home, s, step) && k < |s.nodes|
    requires id in home.controllers[k] && home.controllers[k][id].WODigital? && Obeys(home, s, k, id)
    ensures ChannelsValid(home, Apply(home, s, step)) && Obeys(home, Apply(home, s, step), k, id)
  {
    hide Follows, W.Apply, W.Enabled, InputsFollow, OutputsFollow, AnswersAreSnapshots, Routed, SoundIfApart, F.Mirrors, LastSent;
    StepKeepsChannels(home, s, step);
    assert NodeFine(home, s, k);
    var node, node' := s.nodes[k], Apply(home, s, step).nodes[k];
    var cmds := node.queue.log[..node.queue.read];
    if step.Controller? && step.k == k {
      EventKeepsFollows(home.controllers[k], node.state, step.ev, id, cmds);
      if step.ev.Command? {
        assert node'.queue.log[..node'.queue.read] == cmds + [step.ev.cmd];
      } else {
        assert cmds + [] == cmds;
      }
    } else if step.KeepAlive? && step.k == k {
      EventKeepsFollows(home.controllers[k], node.state, W.KeepAlive(step.env), id, cmds);
      assert cmds + [] == cmds;
    } else {
      assert node'.state == node.state;
      assert node'.queue.log[..node'.queue.read] == cmds;
    }
  }

  lemma {:induction false} RunKeepsObeying(home: Home, s0: Sys, steps: seq<Step>, s: Sys, k: nat, id: Id)
    requires WellFormed(home) && Inv(home, s0) && Runs(home, s0, steps, s)
    requires k < |home.controllers| && id in home.controllers[k] && home.controllers[k][id].WODigital?
    requires Obeys(home, s0, k, id)
    ensures Inv(home, s) && Obeys(home, s, k, id)
    decreases |steps|
  {
    hide WellFormed, Obeys, InputsFollow, OutputsFollow, AnswersAreSnapshots, Routed, NodesFine, Apply, Enabled;
    if steps != [] {
      StepKeepsInv(home, s0, steps[0]);
      StepKeepsObeying(home, s0, steps[0], k, id);
      RunKeepsObeying(home, Apply(home, s0, steps[0]), steps[1..], s, k, id);
    }
  }

  /** A controller's share of the commands has all that concern its own output. */
  lemma {:induction false} AfterOfShare(start: bool, cmds: seq<IODataAction>, route: map<Id, nat>, k: nat, id: Id)
    requires id in route && route[id] == k
    ensures After(start, ForController(cmds, route, k), id) == After(start, cmds, id)
  {
    if cmds != [] {
      var front, last := cmds[..|cmds| - 1], cmds[|cmds| - 1];
      AfterOfShare(start, front, route, k, id);
      var share := ForController(front, route, k);
      if last.id in route && route[last.id] == k {
        assert ForController(cmds, route, k) == share + [last];
        AfterAppend(start, share, last, id);
      } else {
        assert ForController(cmds, route, k) == share;
      }
    }
  }

  /** From end to end: when the system has come to rest, the shared value of a digital output - what rules and clients see, and
      what its controller has - is what the commands put on the output queue, by rules and from outside, make of the state that
      was first read for it: all of them, once each, in order. */
  lemma DigitalIsAsCommanded(home: Home, orders: seq<seq<Id>>, now: Instant, steps: seq<Step>, s: Sys, k: nat, id: Id)
    requires WellFormed(home) && |orders| == |home.controllers|
    requires forall j :: 0 <= j < |orders| ==> Enumerates(orders[j], home.controllers[j].Keys)
    requires ChannelsValid(home, Initial(home, orders, now)) && Runs(home, Initial(home, orders, now), steps, s)
    requires k < |home.controllers| && id in home.controllers[k] && home.controllers[k][id].WODigital?
    requires ChannelsValid(home, s) && Quiet(home, s) && !s.down
    ensures var first := FirstSent(s.nodes[k].state.feedback, id);
            && id in s.engine.outputs && id in s.nodes[k].state.values
            && first.Some? && first.value.Bool?
            && s.engine.outputs[id] == Some(Bool(After(first.value.b, s.output.log, id)))
            && s.nodes[k].state.values[id] == s.engine.outputs[id]
  {
    hide Enumerates, Runs, InputsFollow, OutputsFollow, AnswersAreSnapshots, After, FirstSent, W.Initial, NodeFine;
    var s0 := Initial(home, orders, now);
    InitialInv(home, orders, now);
    assert Obeys(home, s0, k, id) by {
      InitialFollows(home.controllers[k], orders[k], now, id);
      assert s0.nodes[k].queue.log[..s0.nodes[k].queue.read] == [];
    }
    RunKeepsObeying(home, s0, steps, s, k, id);
    var state := s.nodes[k].state;
    SharedValueIsLocal(home, s, k, id);
    assert !state.client.failed by { NodeIsUp(home, s, k); }
    var queue := s.nodes[k].queue;
    assert queue.log[..queue.read] == queue.log == ForController(Settled(s), home.route, k);
    assert Settled(s) == s.output.log;
    AfterOfShare(FirstSent(state.feedback, id).value.b, s.output.log, home.route, k, id);
  }
}
