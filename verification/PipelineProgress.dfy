/** The pipeline drains: with no new input from outside, every step of the program uses up some work, and as long as there is
    work some step can be taken, bounded queues notwithstanding. */
module PipelineProgress {
  import opened Basics
  import opened IoValues
  import opened RulesEngine
  import opened Pipeline
  import opened PipelineSafety
  import opened WagoControllerTasks
  import F = WagoControllerFeedback
  import Modbus
  import Safety = WagoControllerSafety
  import W = WagoController

  // ----- the work left -----

  function OpWeight(op: W.Op): nat
  {
    match op
    case StartTask(_, _, _) => 7
    case ReadVar(_, _) => 2
    case Announce(_) => 2
    case UpdateState(_, _) => 2
    case _ => 1
  }

  function OpsWeight(ops: seq<W.Op>): nat
  {
    if ops == [] then 0 else OpWeight(ops[0]) + OpsWeight(ops[1..])
  }

  function StateWeight(s: W.State): nat
  {
    OpsWeight(s.todo) + 6 * |Survivors(s)|
  }

  predicate QueuesValid(nodes: seq<Node>)
  {
    forall k :: 0 <= k < |nodes| ==> nodes[k].queue.Valid()
  }

  function NodesWeight(nodes: seq<Node>): nat
    requires QueuesValid(nodes)
  {
    if nodes == [] then 0
    else StateWeight(nodes[0].state) + 13 * |nodes[0].queue.Pending()| + NodesWeight(nodes[1..])
  }

  function RulesWeight(rules: seq<Rule>): nat
  {
    if rules == [] then 0 else 1 + 17 * |rules[0].actions| + RulesWeight(rules[1..])
  }

  function WorkWeight(work: Work): nat
  {
    match work
    case Idle => 0
    case Firing(rules, actions) => 1 + 17 * |actions| + RulesWeight(rules)
    case Sending(_, rules, actions) => 17 + 17 * |actions| + RulesWeight(rules)
  }

  function RequestWeight(home: Home, request: IOCmd): nat
  {
    match request
    case GetAllData => 1
    case Action(cmd) => if cmd.id in home.index then 2 + RulesWeight(home.index[cmd.id]) else 18
  }

  function RequestsWeight(home: Home, requests: seq<IOCmd>): nat
  {
    if requests == [] then 0 else RequestWeight(home, requests[0]) + RequestsWeight(home, requests[1..])
  }

  /** The work left in the system; none once it is down. */
  function Measure(home: Home, s: Sys): nat
    requires ChannelsValid(home, s)
  {
    if s.down then 0
    else
      1 + RequestsWeight(home, s.input.Pending())
      + WorkWeight(s.engine.work)
      + 15 * |s.output.Pending()|
      + (if s.holding.Some? then 14 else 0)
      + NodesWeight(s.nodes)
      + |s.feedback.Pending()|
  }

  // ----- controllers -----

  lemma {:induction false} OpsWeightConcat(a: seq<W.Op>, b: seq<W.Op>)
    ensures OpsWeight(a + b) == OpsWeight(a) + OpsWeight(b)
  {
    if a == [] {
      assert a + b == b;
    } else {
      assert (a + b)[0] == a[0] && (a + b)[1..] == a[1..] + b;
      OpsWeightConcat(a[1..], b);
    }
  }

  lemma TellingWeighs(op: W.Op, e: Modbus.Env)
    ensures |F.Told(op, e)| < OpWeight(op)
  {
  }

  /** An operation uses up more than it reports and leaves behind. */
  lemma OperateWeighs(s: W.State, e: Modbus.Env)
    requires s.todo != []
    ensures var s' := W.Step(s, e);
            !s'.client.failed ==>
              StateWeight(s') + |F.Told(s.todo[0], e)| < StateWeight(s)
              && s'.feedback == s.feedback + F.Told(s.todo[0], e)
  {
    hide W.Step, Survivors;
    F.StepTells(s, e);
    if !W.Step(s, e).client.failed {
      StepTasks(s, e);
      TellingWeighs(s.todo[0], e);
      SurvivorsShrink(s, e);
    }
  }

  lemma CommandWeighs(outputs: W.Outputs, s: W.State, cmd: IODataAction)
    requires s.todo == []
    ensures StateWeight(W.Receive(outputs, s, cmd)) <= StateWeight(s) + 12
  {
    var plan := W.CommandPlan(outputs, s, cmd);
    PlanWeighs(outputs, s, cmd);
    if plan != [] {
      LastOpOfCommand(outputs, s, cmd);
    }
  }

  lemma LastOpOfCommand(outputs: W.Outputs, s: W.State, cmd: IODataAction)
    requires W.CommandPlan(outputs, s, cmd) != []
    ensures var plan := W.CommandPlan(outputs, s, cmd); plan[|plan| - 1].UpdateState?
  {
  }

  lemma FiveOps(ops: seq<W.Op>)
    requires |ops| <= 5
    ensures |ops| == 0 ==> OpsWeight(ops) == 0
    ensures |ops| == 2 ==> OpsWeight(ops) == OpWeight(ops[0]) + OpWeight(ops[1])
    ensures |ops| == 4 ==> OpsWeight(ops) == OpWeight(ops[0]) + OpWeight(ops[1]) + OpWeight(ops[2]) + OpWeight(ops[3])
    ensures |ops| == 5 ==>
              OpsWeight(ops) == OpWeight(ops[0]) + OpWeight(ops[1]) + OpWeight(ops[2]) + OpWeight(ops[3]) + OpWeight(ops[4])
  {
    if |ops| >= 2 {
      assert OpsWeight(ops) == OpWeight(ops[0]) + OpWeight(ops[1]) + OpsWeight(ops[1..][1..]);
      var rest := ops[1..][1..];
      assert |rest| >= 1 ==> rest[0] == ops[2];
      if |ops| >= 4 {
        assert OpsWeight(rest) == OpWeight(rest[0]) + OpWeight(rest[1]) + OpsWeight(rest[1..][1..]);
      }
    }
  }

  lemma PlanWeighs(outputs: W.Outputs, s: W.State, cmd: IODataAction)
    ensures OpsWeight(W.CommandPlan(outputs, s, cmd)) <= 12
  {
    W.CommandPlanSize(outputs, s, cmd);
    FiveOps(W.CommandPlan(outputs, s, cmd));
  }

  /** The due tasks among the ids of `order`. */
  function DueAmong(tasks: map<Id, W.Task>, order: seq<Id>, now: Instant): set<Id>
  {
    set id | id in order && Safety.Due(tasks, id, now)
  }

  lemma {:induction false} TimerPlanWeighs(outputs: W.Outputs, tasks: map<Id, W.Task>, order: seq<Id>, now: Instant)
    requires forall i, j :: 0 <= i < j < |order| ==> order[i] != order[j]
    ensures OpsWeight(W.TimerPlan(outputs, tasks, order, now)) <= 1 + 4 * |DueAmong(tasks, order, now)|
  {
    hide W.ExpirePlan, OpWeight;
    if order == [] {
      assert OpsWeight([W.RetainTasks(now)]) == 1 by { RetainWeighs(now); }
    } else {
      var id, rest := order[0], order[1..];
      TimerPlanWeighs(outputs, tasks, rest, now);
      OpsWeightConcat(W.ExpirePlan(outputs, tasks, id, now), W.TimerPlan(outputs, tasks, rest, now));
      ExpireWeighs(outputs, tasks, id, now);
      DueAmongOneMore(tasks, order, now);
    }
  }

  lemma RetainWeighs(now: Instant)
    ensures OpsWeight([W.RetainTasks(now)]) == 1
  {
    assert [W.RetainTasks(now)][1..] == [];
  }

  lemma DueAmongOneMore(tasks: map<Id, W.Task>, order: seq<Id>, now: Instant)
    requires order != [] && forall i, j :: 0 <= i < j < |order| ==> order[i] != order[j]
    ensures |DueAmong(tasks, order, now)| == |DueAmong(tasks, order[1..], now)| + (if Safety.Due(tasks, order[0], now) then 1 else 0)
  {
    var id, rest := order[0], order[1..];
    assert order == [id] + rest;
    assert id !in rest;
    if Safety.Due(tasks, id, now) {
      assert DueAmong(tasks, order, now) == DueAmong(tasks, rest, now) + {id};
    } else {
      assert DueAmong(tasks, order, now) == DueAmong(tasks, rest, now);
    }
  }

  lemma ExpireWeighs(outputs: W.Outputs, tasks: map<Id, W.Task>, id: Id, now: Instant)
    ensures OpsWeight(W.ExpirePlan(outputs, tasks, id, now)) <= if Safety.Due(tasks, id, now) then 4 else 0
  {
    var plan := W.ExpirePlan(outputs, tasks, id, now);
    if plan != [] {
      assert OpsWeight(plan) == OpWeight(plan[0]) + OpWeight(plan[1]) + OpsWeight(plan[1..][1..]);
      assert plan[1..][1..] == [plan[2]];
      assert OpsWeight([plan[2]]) == OpWeight(plan[2]);
    }
  }

  lemma DueOrLater(tasks: map<Id, W.Task>, order: seq<Id>, now: Instant)
    requires Enumerates(order, tasks.Keys)
    ensures |tasks| == |DueAmong(tasks, order, now)| + |W.Later(tasks, now)|
  {
    var due, later := DueAmong(tasks, order, now), W.Later(tasks, now).Keys;
    assert tasks.Keys == due + later && due !! later;
  }

  /** A timer turn has less to do than the tasks it will remove stood for. */
  lemma FireWeighs(outputs: W.Outputs, s: W.State, order: seq<Id>, now: Instant)
    requires s.todo == [] && W.TimerReady(s, now) && Enumerates(order, s.tasks.Keys)
    ensures StateWeight(W.Fire(outputs, s, order, now)) < StateWeight(s)
  {
    hide W.TimerPlan, OpsWeight, W.Later;
    TimerPlanWeighs(outputs, s.tasks, order, now);
    TimerPlanEnds(outputs, s.tasks, order, now);
    DueOrLater(s.tasks, order, now);
    var id :| id in s.tasks && s.tasks[id].deadline <= now;
    assert Safety.Due(s.tasks, id, now);
    Safety.LaterIsSmaller(s.tasks, now);
    assert OpsWeight(s.todo) == 0 by { NoOpsWeigh(); }
  }

  lemma NoOpsWeigh()
    ensures OpsWeight([]) == 0
  {
  }

  // ----- the system -----

  lemma {:induction false} NodesWeightUpdate(nodes: seq<Node>, k: nat, node: Node)
    requires k < |nodes| && node.queue.Valid() && QueuesValid(nodes)
    ensures QueuesValid(nodes[k := node])
    ensures NodesWeight(nodes[k := node]) + StateWeight(nodes[k].state) + 13 * |nodes[k].queue.Pending()|
            == NodesWeight(nodes) + StateWeight(node.state) + 13 * |node.queue.Pending()|
  {
    if k == 0 {
      assert nodes[0 := node][1..] == nodes[1..];
    } else {
      assert nodes[k := node][1..] == nodes[1..][k - 1 := node];
      NodesWeightUpdate(nodes[1..], k - 1, node);
    }
  }

  lemma ControlWeighs(home: Home, s: Sys, k: nat, ev: W.Event)
    requires ChannelsValid(home, s) && Enabled(home, s, Controller(k, ev))
    ensures ChannelsValid(home, Apply(home, s, Controller(k, ev)))
    ensures Measure(home, Apply(home, s, Controller(k, ev))) < Measure(home, s)
  {
    hide RequestsWeight, WorkWeight, W.Step, W.Receive, W.Fire, StateWeight, W.TimerReady, Enumerates;
    StepKeepsChannels(home, s, Controller(k, ev));
    var node := s.nodes[k];
    var s' := Apply(home, s, Controller(k, ev));
    if !s'.down {
      var node' := s'.nodes[k];
      NodesWeightUpdate(s.nodes, k, node');
      match ev {
        case Operate(e) =>
          OperateWeighs(node.state, e);
          assert s'.feedback.log == s.feedback.log + F.Told(node.state.todo[0], e);
          assert |s'.feedback.Pending()| == |s.feedback.Pending()| + |F.Told(node.state.todo[0], e)|;
        case Command(cmd) =>
          CommandWeighs(home.controllers[k], node.state, cmd);
          assert |node'.queue.Pending()| == |node.queue.Pending()| - 1;
          assert node'.state.feedback == node.state.feedback by { ReceiveIsSilent(home.controllers[k], node.state, cmd); }
          assert s'.feedback == s.feedback;
        case Timer(order, now) =>
          FireWeighs(home.controllers[k], node.state, order, now);
          assert node'.state.feedback == node.state.feedback by { FireIsSilent(home.controllers[k], node.state, order, now); }
          assert s'.feedback == s.feedback;
      }
    }
  }

  lemma ReceiveIsSilent(outputs: W.Outputs, s: W.State, cmd: IODataAction)
    ensures W.Receive(outputs, s, cmd).feedback == s.feedback
  {
  }

  lemma FireIsSilent(outputs: W.Outputs, s: W.State, order: seq<Id>, now: Instant)
    ensures W.Fire(outputs, s, order, now).feedback == s.feedback
  {
  }

  lemma RulesWeigh(e: Engine, es: EngineStep)
    requires CanStep(e, es) && !es.Feedback?
    ensures WorkWeight(TakeStep(e, es).work) + 15 * |Dispatched(e, es)| < WorkWeight(e.work)
  {
  }

  /** A keep-alive leaves the work as it is, unless it fails and ends the program. */
  lemma KeepAliveWeighs(home: Home, s: Sys, k: nat, env: Modbus.Env)
    requires ChannelsValid(home, s) && Enabled(home, s, KeepAlive(k, env))
    ensures ChannelsValid(home, Apply(home, s, KeepAlive(k, env)))
    ensures Measure(home, Apply(home, s, KeepAlive(k, env))) <= Measure(home, s)
  {
    hide RequestsWeight, WorkWeight, Modbus.ReadInputs;
    StepKeepsChannels(home, s, KeepAlive(k, env));
    var s' := Apply(home, s, KeepAlive(k, env));
    NodesWeightUpdate(s.nodes, k, s'.nodes[k]);
    assert s'.feedback.log == s.feedback.log;
  }

  /** Every step of the program itself leaves less work, except that keep-alives may leave it as it is. */
  lemma StepUsesWork(home: Home, s: Sys, step: Step)
    requires ChannelsValid(home, s) && Enabled(home, s, step) && Internal(step)
    ensures ChannelsValid(home, Apply(home, s, step))
    ensures Measure(home, Apply(home, s, step)) <= Measure(home, s)
    ensures Works(step) ==> Measure(home, Apply(home, s, step)) < Measure(home, s)
    ensures Apply(home, s, step).input.log == s.input.log
  {
    hide StateWeight;
    StepKeepsChannels(home, s, step);
    var s' := Apply(home, s, step);
    match step
    case KeepAlive(k, env) =>
      KeepAliveWeighs(home, s, k, env);
    case Controller(k, ev) =>
      ControlWeighs(home, s, k, ev);
    case Take =>
      assert s'.input.Pending() == s.input.Pending()[1..];
    case Rules(es) =>
      RulesWeigh(s.engine, es);
      assert |s'.output.Pending()| == |s.output.Pending()| + |Dispatched(s.engine, es)|;
    case Hear =>
      assert |s.feedback.Pending()| > 0;
      if !s'.down {
        assert |s'.feedback.Pending()| == |s.feedback.Pending()| - 1;
      }
    case Route =>
      assert |s'.output.Pending()| == |s.output.Pending()| - 1;
    case Deliver =>
      var k := home.route[s.holding.value.id];
      NodesWeightUpdate(s.nodes, k, s'.nodes[k]);
      assert |s'.nodes[k].queue.Pending()| == |s.nodes[k].queue.Pending()| + 1;
  }

  /** How many steps of a run get something done. */
  function WorkSteps(steps: seq<Step>): nat
  {
    if steps == [] then 0 else (if Works(steps[0]) then 1 else 0) + WorkSteps(steps[1..])
  }

  /** In a run without input from outside, however many keep-alives there are in between, the steps that get something done are no
      more than the work used up: what rules do never comes back as input. */
  lemma {:induction false} RunIsBounded(home: Home, s: Sys, steps: seq<Step>, s': Sys)
    requires ChannelsValid(home, s) && Runs(home, s, steps, s')
    requires forall step :: step in steps ==> Internal(step)
    ensures ChannelsValid(home, s') && WorkSteps(steps) + Measure(home, s') <= Measure(home, s)
    ensures s'.input.log == s.input.log
    decreases |steps|
  {
    hide Measure, ChannelsValid, Apply, Enabled, Works;
    if steps != [] {
      assert steps[0] in steps;
      assert forall step :: step in steps[1..] ==> step in steps;
      StepUsesWork(home, s, steps[0]);
      RunIsBounded(home, Apply(home, s, steps[0]), steps[1..], s');
    }
  }

  // ----- something can always be done -----

  /** Nothing is pending anywhere. */
  ghost predicate Quiet(home: Home, s: Sys)
    requires ChannelsValid(home, s)
  {
    && s.input.Pending() == [] && s.engine.work.Idle? && s.output.Pending() == [] && s.holding.None?
    && s.feedback.Pending() == []
    && forall k :: 0 <= k < |s.nodes| ==>
         s.nodes[k].state.todo == [] && s.nodes[k].state.tasks == map[] && s.nodes[k].queue.Pending() == []
  }

  /** A controller with work of its own can take a step; a pending task at the latest when its deadline has passed. */
  lemma ControllerCanStep(home: Home, s: Sys, k: nat) returns (step: Step)
    requires ChannelsValid(home, s) && !s.down && k < |s.nodes| && !s.nodes[k].state.client.failed
    requires s.nodes[k].state.todo != [] || s.nodes[k].state.tasks != map[] || s.nodes[k].queue.Pending() != []
    ensures Works(step) && Enabled(home, s, step)
    ensures step.Controller? && step.ev.Operate? ==> step.ev.env.ok
  {
    var state := s.nodes[k].state;
    if state.todo != [] {
      step := Controller(k, W.Operate(Modbus.Env(0, 0, 0, 0, true, true, false)));
    } else if s.nodes[k].queue.Pending() != [] {
      step := Controller(k, W.Command(s.nodes[k].queue.Pending()[0]));
    } else {
      var order := Enumeration(state.tasks.Keys);
      var id :| id in state.tasks;
      var now := if state.tasks[id].deadline < state.client.clock then state.client.clock else state.tasks[id].deadline;
      assert W.TimerReady(state, now);
      step := Controller(k, W.Timer(order, now));
    }
  }

  /** As long as anything is pending some step of the program can be taken: no two tasks wait for each other. */
  lemma SomethingCanBeDone(home: Home, s: Sys) returns (step: Step)
    requires WellFormed(home) && Inv(home, s) && !s.down && !Quiet(home, s)
    ensures Works(step) && Enabled(home, s, step)
    ensures step.Controller? && step.ev.Operate? ==> step.ev.env.ok
  {
    hide InputsFollow, OutputsFollow, AnswersAreSnapshots, NodesFine, Enabled, Works, Routed, WellFormed;
    if k :| 0 <= k < |s.nodes|
            && (s.nodes[k].state.todo != [] || s.nodes[k].state.tasks != map[] || s.nodes[k].queue.Pending() != []) {
      assert !s.nodes[k].state.client.failed by { NodeIsUp(home, s, k); }
      step := ControllerCanStep(home, s, k);
    } else {
      step := OthersCanStep(home, s);
    }
  }

  /** With all controllers idle and their queues empty, anything else that is pending can go on. */
  lemma OthersCanStep(home: Home, s: Sys) returns (step: Step)
    requires WellFormed(home) && ChannelsValid(home, s) && Routed(home, s) && !s.down && !Quiet(home, s)
    requires forall k :: 0 <= k < |s.nodes| ==>
               s.nodes[k].state.todo == [] && s.nodes[k].state.tasks == map[] && s.nodes[k].queue.Pending() == []
    ensures Works(step) && Enabled(home, s, step) && !step.Controller?
  {
    if s.feedback.Pending() != [] {
      step := Hear;
    } else if s.holding.Some? {
      assert s.nodes[home.route[s.holding.value.id]].queue.Pending() == [];
      step := Deliver;
    } else if s.output.Pending() != [] {
      step := Route;
    } else if s.engine.work.Sending? {
      step := Rules(SendCommand);
    } else if s.engine.work.Firing? {
      step := Rules(if s.engine.work.actions == [] then EvaluateRule else CheckAction);
    } else {
      step := Take;
    }
  }

  lemma NodeIsUp(home: Home, s: Sys, k: nat)
    requires |s.nodes| == |home.controllers| && NodesFine(home, s) && k < |s.nodes| && !s.down
    ensures !s.nodes[k].state.client.failed
  {
    assert NodeFine(home, s, k);
  }

  /** The pipeline drains. Left alone, keep-alives aside, the system cannot go on for longer than `Measure`, and where it cannot go
      on it is down, or else it is quiet: then every shared value is the local value of its controller, and every motor is off. */
  lemma PipelineDrains(home: Home, s0: Sys, steps: seq<Step>, s: Sys)
    requires WellFormed(home) && Inv(home, s0) && Runs(home, s0, steps, s)
    requires forall step :: step in steps ==> Internal(step)
    ensures Inv(home, s) && WorkSteps(steps) + Measure(home, s) <= Measure(home, s0) && s.input.log == s0.input.log
    ensures (forall step :: Works(step) ==> !Enabled(home, s, step)) ==> s.down || Quiet(home, s)
    ensures !s.down && Quiet(home, s) ==> forall k :: 0 <= k < |s.nodes| ==> AtRest(home, s, k)
  {
    hide Inv, Measure, Enabled, AtRest, WorkSteps, Works, Quiet;
    assert ChannelsValid(home, s0) by { InvChannels(home, s0); }
    RunKeepsInv(home, s0, steps, s);
    InvChannels(home, s);
    RunIsBounded(home, s0, steps, s);
    if !s.down && !Quiet(home, s) {
      var step := SomethingCanBeDone(home, s);
    }
    if !s.down && Quiet(home, s) {
      QuietRests(home, s);
    }
  }

  lemma QuietRests(home: Home, s: Sys)
    requires WellFormed(home) && Inv(home, s) && ChannelsValid(home, s) && !s.down && Quiet(home, s)
    ensures forall k :: 0 <= k < |s.nodes| ==> AtRest(home, s, k)
  {
    hide Quiet, AtRest, InputsFollow, OutputsFollow, AnswersAreSnapshots, Routed, NodesFine;
    forall k | 0 <= k < |s.nodes|
      ensures AtRest(home, s, k)
    {
      QuietNodeRests(home, s, k);
    }
  }

  lemma InvChannels(home: Home, s: Sys)
    requires Inv(home, s)
    ensures ChannelsValid(home, s)
  {
  }

  /** Controller `k` agrees with the shared map on all it serves; and, if no two of its pins name one coil, all its motors are off. */
  ghost predicate AtRest(home: Home, s: Sys, k: nat)
    requires k < |s.nodes| && k < |home.controllers|
  {
    var outputs, state := home.controllers[k], s.nodes[k].state;
    && (forall id :: id in outputs && !outputs[id].OtherKind? ==>
        id in s.engine.outputs && id in state.values && s.engine.outputs[id] == Some(F.Shown(state.values[id])))
    && (Safety.Disjoint(outputs) ==> MotorsOff(outputs, state))
  }

  ghost predicate MotorsOff(outputs: W.Outputs, state: W.State)
  {
    forall id :: id in outputs && outputs[id].WOShutter? ==> Safety.Rests(state.client.log, outputs[id].io)
  }

  lemma QuietNodeRests(home: Home, s: Sys, k: nat)
    requires WellFormed(home) && Inv(home, s) && !s.down && Quiet(home, s) && k < |s.nodes|
    ensures AtRest(home, s, k)
  {
    hide InputsFollow, OutputsFollow, AnswersAreSnapshots, Routed, Safety.Sound, F.Mirrors, Safety.Disjoint, MotorsOff;
    var outputs, state := home.controllers[k], s.nodes[k].state;
    assert NodeFine(home, s, k);
    forall id | id in outputs && !outputs[id].OtherKind?
      ensures id in s.engine.outputs && id in state.values && s.engine.outputs[id] == Some(F.Shown(state.values[id]))
    {
      SharedValueIsLocal(home, s, k, id);
    }
    if Safety.Disjoint(outputs) {
      Safety.SoundIsSafe(outputs, state);
      IdleMotorsAreOff(outputs, state);
    }
  }

  lemma IdleMotorsAreOff(outputs: W.Outputs, state: W.State)
    requires Safety.AtHead(outputs, state) && state.tasks == map[]
    ensures MotorsOff(outputs, state)
  {
    hide Safety.AtHead, Safety.Rests;
    forall id | id in outputs && outputs[id].WOShutter?
      ensures Safety.Rests(state.client.log, outputs[id].io)
    {
      Safety.HeadShows(outputs, state, id);
    }
  }
}
