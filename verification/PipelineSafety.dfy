/** What every run of the system keeps: the shared maps are folds of what was received, routing is exact, controllers are safe,
    and every answer is a snapshot. */
module PipelineSafety {
  import opened Basics
  import opened IoValues
  import opened RulesEngine
  import opened FeedbackLog
  import opened Pipeline
  import opened IoContext
  import Decimal
  import F = WagoControllerFeedback
  import HomeSnapshot
  import Safety = WagoControllerSafety
  import W = WagoController

  // ----- shared maps -----

  /** The value of the last command that set input `id`. */
  function LastSet(cmds: seq<IOCmd>, id: Id): Option<IOValue>
  {
    if cmds == [] then None
    else
      var last := cmds[|cmds| - 1];
      if last.Action? && last.cmd.id == id && last.cmd.action.SetValue? then Some(last.cmd.action.value)
      else LastSet(cmds[..|cmds| - 1], id)
  }

  /** Each input has the value last set by the commands taken so far. */
  ghost predicate InputsFollow(home: Home, s: Sys)
    requires s.input.Valid()
  {
    && s.engine.inputs.Keys == home.index.Keys
    && forall id :: id in home.index ==> s.engine.inputs[id] == LastSet(s.input.log[..s.input.read], id)
  }

  /** Each output has the value last reported in the part of the feedback that was folded in. */
  ghost predicate OutputsFollow(home: Home, s: Sys)
    requires s.feedback.Valid()
  {
    && s.engine.outputs.Keys == home.outputIds
    && forall id :: id in home.outputIds ==> s.engine.outputs[id] == LastSent(s.feedback.log[..s.feedback.read], id)
  }

  /** What the home data shows after the given commands and feedback. */
  function Snapshot(home: Home, cmds: seq<IOCmd>, heard: seq<IOData>): seq<HomeSnapshot.RoomData>
  {
    HomeSnapshot.MakeRooms(home.rooms, map id | id in home.index :: LastSet(cmds, id),
                           map id | id in home.outputIds :: LastSent(heard, id))
  }

  /** The positions of the requests for the home data. */
  function Asked(cmds: seq<IOCmd>): seq<nat>
  {
    if cmds == [] then []
    else
      var last := |cmds| - 1;
      Asked(cmds[..last]) + (if cmds[last].GetAllData? then [last] else [])
  }

  /** The requests taken so far have one answer each, in order. An answer is the snapshot of everything enqueued before its
      request and of a prefix of the feedback heard so far, never a shorter one than that of an earlier answer. */
  ghost predicate AnswersAreSnapshots(home: Home, s: Sys)
    requires s.input.Valid() && s.feedback.Valid()
  {
    && |s.answers| == |Asked(s.input.log[..s.input.read])|
    && (forall i :: 0 <= i < |s.answers| ==>
        s.answers[i].at == Asked(s.input.log[..s.input.read])[i] && IsSnapshot(home, s, s.answers[i]))
    && (forall i, j :: 0 <= i < j < |s.answers| ==> s.answers[i].heard <= s.answers[j].heard)
  }

  ghost predicate IsSnapshot(home: Home, s: Sys, answer: Answer)
  {
    && answer.at < s.input.read <= |s.input.log|
    && answer.heard <= s.feedback.read <= |s.feedback.log|
    && answer.home == Snapshot(home, s.input.log[..answer.at], s.feedback.log[..answer.heard])
  }

  lemma AskedAppend(cmds: seq<IOCmd>, cmd: IOCmd)
    ensures Asked(cmds + [cmd]) == Asked(cmds) + (if cmd.GetAllData? then [|cmds|] else [])
  {
    assert (cmds + [cmd])[..|cmds|] == cmds;
  }

  lemma {:induction false} AskedInOrder(cmds: seq<IOCmd>)
    ensures forall i, j :: 0 <= i < j < |Asked(cmds)| ==> Asked(cmds)[i] < Asked(cmds)[j]
    ensures forall n: nat :: n in Asked(cmds) <==> n < |cmds| && cmds[n].GetAllData?
  {
    if cmds != [] {
      var before := Asked(cmds[..|cmds| - 1]);
      AskedInOrder(cmds[..|cmds| - 1]);
      assert forall i :: 0 <= i < |before| ==> before[i] in before;
    }
  }

  // ----- routing -----

  /** The commands that the dispatcher has delivered or dropped. */
  function Settled(s: Sys): seq<IODataAction>
    requires s.output.Valid() && (s.holding.Some? ==> s.output.read > 0)
  {
    s.output.log[..if s.holding.Some? then s.output.read - 1 else s.output.read]
  }

  ghost predicate Routed(home: Home, s: Sys)
    requires ChannelsValid(home, s)
  {
    && (s.holding.Some? ==>
        s.output.read > 0 && s.output.log[s.output.read - 1] == s.holding.value && s.holding.value.id in home.route)
    && forall k :: 0 <= k < |s.nodes| ==> s.nodes[k].queue.log == ForController(Settled(s), home.route, k)
  }

  // ----- controllers -----

  /** The controller is sound, if no two of its pins name one coil. Nothing else about the system depends on its wiring. */
  ghost predicate SoundIfApart(outputs: W.Outputs, state: W.State)
  {
    Safety.Disjoint(outputs) ==> Safety.Sound(outputs, state)
  }

  /** The broadcast shows of the outputs of controller `k` what it sent itself. */
  ghost predicate NodeFine(home: Home, s: Sys, k: nat)
    requires k < |s.nodes| && k < |home.controllers|
  {
    var outputs, state := home.controllers[k], s.nodes[k].state;
    && SoundIfApart(outputs, state)
    && F.Mirrors(outputs, state)
    && (!s.down ==> !state.client.failed)
    && forall id :: id in outputs ==> LastSent(s.feedback.log, id) == LastSent(state.feedback, id)
  }

  ghost predicate NodesFine(home: Home, s: Sys)
    requires |s.nodes| == |home.controllers|
  {
    forall k :: 0 <= k < |s.nodes| ==> NodeFine(home, s, k)
  }

  ghost predicate Wired(home: Home)
  {
    forall k :: 0 <= k < |home.controllers| ==> Safety.Disjoint(home.controllers[k])
  }

  // ----- each step -----

  lemma WriteFollows(home: Home, outputs: Values, log: seq<IOData>, data: IOData)
    requires outputs.Keys == home.outputIds
    requires forall id :: id in home.outputIds ==> outputs[id] == LastSent(log, id)
    ensures forall id :: id in home.outputIds ==>
              id in WriteValue(outputs, data.id, data.value)
              && WriteValue(outputs, data.id, data.value)[id] == LastSent(log + [data], id)
    ensures WriteValue(outputs, data.id, data.value).Keys == home.outputIds
  {
    LastSentAppend(log, data);
  }

  lemma StepKeepsOutputs(home: Home, s: Sys, step: Step)
    requires ChannelsValid(home, s) && Enabled(home, s, step) && OutputsFollow(home, s)
    ensures Apply(home, s, step).feedback.Valid() && OutputsFollow(home, Apply(home, s, step))
  {
    hide LastSent;
    var s' := Apply(home, s, step);
    assert s.feedback.log <= s'.feedback.log;
    assert s'.feedback.log[..s.feedback.read] == s.feedback.log[..s.feedback.read];
    if step.Hear? && !s'.down {
      var data := s.feedback.Pending()[0];
      WriteFollows(home, s.engine.outputs, s.feedback.log[..s.feedback.read], data);
      assert s'.feedback.log[..s'.feedback.read] == s.feedback.log[..s.feedback.read] + [data];
    } else {
      assert s'.feedback.read == s.feedback.read;
      assert s'.engine.outputs == s.engine.outputs;
    }
  }

  lemma LastSetAppend(cmds: seq<IOCmd>, cmd: IOCmd, id: Id)
    ensures LastSet(cmds + [cmd], id)
            == if cmd.Action? && cmd.cmd.id == id && cmd.cmd.action.SetValue? then Some(cmd.cmd.action.value) else LastSet(cmds, id)
  {
    assert (cmds + [cmd])[..|cmds|] == cmds;
  }

  lemma StepKeepsInputs(home: Home, s: Sys, step: Step)
    requires ChannelsValid(home, s) && Enabled(home, s, step) && InputsFollow(home, s)
    ensures Apply(home, s, step).input.Valid() && InputsFollow(home, Apply(home, s, step))
  {
    hide LastSet;
    var s' := Apply(home, s, step);
    assert s'.input.log[..s.input.read] == s.input.log[..s.input.read];
    if step.Take? {
      var request := s.input.Pending()[0];
      assert s'.input.log[..s'.input.read] == s.input.log[..s.input.read] + [request];
      forall id | id in home.index
        ensures s'.engine.inputs[id] == LastSet(s'.input.log[..s'.input.read], id)
      {
        LastSetAppend(s.input.log[..s.input.read], request, id);
      }
    } else {
      assert s'.engine.inputs == s.engine.inputs;
    }
  }

  lemma StepKeepsAnswers(home: Home, s: Sys, step: Step)
    requires ChannelsValid(home, s) && Enabled(home, s, step)
    requires InputsFollow(home, s) && OutputsFollow(home, s) && AnswersAreSnapshots(home, s)
    ensures ChannelsValid(home, Apply(home, s, step)) && AnswersAreSnapshots(home, Apply(home, s, step))
  {
    hide LastSet, LastSent, Asked;
    StepKeepsChannels(home, s, step);
    var s' := Apply(home, s, step);
    assert s.input.log <= s'.input.log && s.feedback.log <= s'.feedback.log;
    assert s'.input.log[..s.input.read] == s.input.log[..s.input.read];
    if step.Take? {
      AskedAppend(s.input.log[..s.input.read], s.input.Pending()[0]);
      assert s'.input.log[..s'.input.read] == s.input.log[..s.input.read] + [s.input.Pending()[0]];
    } else {
      assert s'.input.read == s.input.read && s'.answers == s.answers;
    }
    forall i | 0 <= i < |s'.answers|
      ensures IsSnapshot(home, s', s'.answers[i])
    {
      if i < |s.answers| {
        OldAnswerStays(home, s, s', s.answers[i]);
        assert s'.answers[i] == s.answers[i];
      } else {
        assert s'.answers[i].at == s.input.read && s'.answers[i].heard == s.feedback.read;
        assert s.engine.inputs == map id | id in home.index :: LastSet(s.input.log[..s.input.read], id);
        assert s.engine.outputs == map id | id in home.outputIds :: LastSent(s.feedback.log[..s.feedback.read], id);
      }
    }
  }

  lemma OldAnswerStays(home: Home, s: Sys, s': Sys, answer: Answer)
    requires IsSnapshot(home, s, answer)
    requires s.input.log <= s'.input.log && s.input.read <= s'.input.read <= |s'.input.log|
    requires s.feedback.log <= s'.feedback.log && s.feedback.read <= s'.feedback.read <= |s'.feedback.log|
    ensures IsSnapshot(home, s', answer)
  {
    assert s'.input.log[..answer.at] == s.input.log[..answer.at];
    assert s'.feedback.log[..answer.heard] == s.feedback.log[..answer.heard];
  }

  lemma ForControllerAppend(cmds: seq<IODataAction>, cmd: IODataAction, route: map<Id, nat>, k: nat)
    ensures ForController(cmds + [cmd], route, k)
            == ForController(cmds, route, k) + (if cmd.id in route && route[cmd.id] == k then [cmd] else [])
  {
    assert (cmds + [cmd])[..|cmds|] == cmds;
  }

  lemma StepKeepsRouting(home: Home, s: Sys, step: Step)
    requires ChannelsValid(home, s) && Enabled(home, s, step) && Routed(home, s)
    ensures ChannelsValid(home, Apply(home, s, step)) && Routed(home, Apply(home, s, step))
  {
    hide ForController, W.Apply;
    StepKeepsChannels(home, s, step);
    var s' := Apply(home, s, step);
    match step
    case Route =>
      var cmd := s.output.Pending()[0];
      if cmd.id !in home.route {
        assert Settled(s') == Settled(s) + [cmd];
        forall k | 0 <= k < |s.nodes|
          ensures s'.nodes[k].queue.log == ForController(Settled(s'), home.route, k)
        {
          ForControllerAppend(Settled(s), cmd, home.route, k);
        }
      } else {
        assert Settled(s') == Settled(s);
      }
    case Deliver =>
      var cmd := s.holding.value;
      assert Settled(s') == Settled(s) + [cmd];
      forall k | 0 <= k < |s.nodes|
        ensures s'.nodes[k].queue.log == ForController(Settled(s'), home.route, k)
      {
        ForControllerAppend(Settled(s), cmd, home.route, k);
      }
    case _ =>
      assert Settled(s') == Settled(s);
  }

  /** What a controller event tells, and that it keeps the controller sound and its report faithful. */
  lemma EventTells(outputs: W.Outputs, state: W.State, ev: W.Event) returns (told: seq<IOData>)
    requires SoundIfApart(outputs, state) && F.Mirrors(outputs, state) && W.Enabled(state, ev)
    ensures SoundIfApart(outputs, W.Apply(outputs, state, ev)) && F.Mirrors(outputs, W.Apply(outputs, state, ev))
    ensures W.Apply(outputs, state, ev).feedback == state.feedback + told
    ensures forall d :: d in told ==> d.id in outputs
  {
    hide Safety.Sound, Safety.Disjoint, F.Mirrors, W.Step;
    if Safety.Disjoint(outputs) {
      Safety.EventKeepsSound(outputs, state, ev);
    }
    if ev.Operate? {
      F.StepTells(state, ev.env);
      F.StepKeepsMirror(outputs, state, ev.env);
      told := F.Told(state.todo[0], ev.env);
    } else {
      F.TurnKeepsMirror(outputs, state, ev);
      told := [];
      assert state.feedback + [] == state.feedback;
    }
  }

  lemma ControlKeepsNodes(home: Home, s: Sys, k: nat, ev: W.Event)
    requires WellFormed(home) && |s.nodes| == |home.controllers| && k < |s.nodes|
    requires NodesFine(home, s) && W.Enabled(s.nodes[k].state, ev) && !s.down
    ensures NodesFine(home, Control(home, s, k, ev))
  {
    hide LastSent, W.Apply, SoundIfApart, F.Mirrors;
    var s' := Control(home, s, k, ev);
    assert NodeFine(home, s, k);
    var told := EventTells(home.controllers[k], s.nodes[k].state, ev);
    assert s'.feedback.log == s.feedback.log + told;
    forall j | 0 <= j < |s'.nodes|
      ensures NodeFine(home, s', j)
    {
      assert NodeFine(home, s, j);
      forall id | id in home.controllers[j]
        ensures LastSent(s'.feedback.log, id) == LastSent(s'.nodes[j].state.feedback, id)
      {
        if j == k {
          LastSentTogether(s.feedback.log, s.nodes[k].state.feedback, told, id);
        } else {
          assert home.route[id] == j;
          assert forall d :: d in told ==> home.route[d.id] == k;
          LastSentElsewhere(s.feedback.log, told, id);
        }
      }
    }
  }

  lemma SenseKeepsNodes(home: Home, s: Sys, data: IOData)
    requires WellFormed(home) && |s.nodes| == |home.controllers| && NodesFine(home, s) && data.id in home.index
    ensures NodesFine(home, s.(feedback := s.feedback.Put(data)))
  {
    hide LastSent, SoundIfApart, F.Mirrors;
    var s' := s.(feedback := s.feedback.Put(data));
    forall j | 0 <= j < |s.nodes|
      ensures NodeFine(home, s', j)
    {
      assert NodeFine(home, s, j);
      forall id | id in home.controllers[j]
        ensures LastSent(s'.feedback.log, id) == LastSent(s.feedback.log, id)
      {
        LastSentElsewhere(s.feedback.log, [data], id);
      }
    }
  }

  lemma StepKeepsNodes(home: Home, s: Sys, step: Step)
    requires WellFormed(home)
    requires ChannelsValid(home, s) && Enabled(home, s, step) && NodesFine(home, s)
    ensures ChannelsValid(home, Apply(home, s, step)) && NodesFine(home, Apply(home, s, step))
  {
    hide LastSent, SoundIfApart, F.Mirrors, W.Enabled, WellFormed;
    StepKeepsChannels(home, s, step);
    match step
    case Controller(k, ev) => ControlKeepsNodes(home, s, k, ev);
    case KeepAlive(k, env) => ControlKeepsNodes(home, s, k, W.KeepAlive(env));
    case Sense(data) => SenseKeepsNodes(home, s, data);
    case _ =>
      var s' := Apply(home, s, step);
      forall j | 0 <= j < |s.nodes|
        ensures NodeFine(home, s', j)
      {
        assert NodeFine(home, s, j);
        assert s'.nodes[j].state == s.nodes[j].state && s'.feedback.log == s.feedback.log;
      }
  }

  // ----- every run -----

  ghost predicate Inv(home: Home, s: Sys)
  {
    && ChannelsValid(home, s)
    && InputsFollow(home, s)
    && OutputsFollow(home, s)
    && AnswersAreSnapshots(home, s)
    && Routed(home, s)
    && NodesFine(home, s)
  }

  lemma StepKeepsInv(home: Home, s: Sys, step: Step)
    requires WellFormed(home) && Inv(home, s) && Enabled(home, s, step)
    ensures Inv(home, Apply(home, s, step))
  {
    hide InputsFollow, OutputsFollow, AnswersAreSnapshots, Routed, NodesFine, Apply, Enabled;
    StepKeepsChannels(home, s, step);
    StepKeepsInputs(home, s, step);
    StepKeepsOutputs(home, s, step);
    StepKeepsAnswers(home, s, step);
    StepKeepsRouting(home, s, step);
    StepKeepsNodes(home, s, step);
  }

  lemma InitialInv(home: Home, orders: seq<seq<Id>>, now: Instant)
    requires WellFormed(home) && |orders| == |home.controllers|
    requires forall k :: 0 <= k < |orders| ==> Enumerates(orders[k], home.controllers[k].Keys)
    ensures Inv(home, Initial(home, orders, now))
  {
    hide Safety.Sound, F.Mirrors, Safety.Disjoint, Enumerates, W.Initial;
    var s := Initial(home, orders, now);
    forall k | 0 <= k < |s.nodes|
      ensures NodeFine(home, s, k)
    {
      if Safety.Disjoint(home.controllers[k]) {
        Safety.BootIsSound(home.controllers[k], orders[k], now);
      }
      F.BootMirrors(home.controllers[k], orders[k], now);
      InitialIsSilent(home.controllers[k], orders[k], now);
      assert s.nodes[k].state == W.Initial(home.controllers[k], orders[k], now);
      assert s.feedback.log == [] == s.nodes[k].state.feedback;
    }
    assert Settled(s) == [];
  }

  lemma InitialIsSilent(outputs: W.Outputs, order: seq<Id>, now: Instant)
    ensures W.Initial(outputs, order, now).feedback == [] && !W.Initial(outputs, order, now).client.failed
  {
  }

  lemma {:induction false} RunKeepsInv(home: Home, s0: Sys, steps: seq<Step>, s: Sys)
    requires WellFormed(home) && Inv(home, s0) && Runs(home, s0, steps, s)
    ensures Inv(home, s)
    decreases |steps|
  {
    hide InputsFollow, OutputsFollow, AnswersAreSnapshots, Routed, NodesFine, Apply, Enabled;
    if steps != [] {
      StepKeepsInv(home, s0, steps[0]);
      RunKeepsInv(home, Apply(home, s0, steps[0]), steps[1..], s);
    }
  }

  /** The invariant holds in every state of every run from the start of the program. */
  lemma EveryRun(home: Home, orders: seq<seq<Id>>, now: Instant, steps: seq<Step>, s: Sys)
    requires WellFormed(home) && |orders| == |home.controllers|
    requires forall k :: 0 <= k < |orders| ==> Enumerates(orders[k], home.controllers[k].Keys)
    requires ChannelsValid(home, Initial(home, orders, now)) && Runs(home, Initial(home, orders, now), steps, s)
    ensures Inv(home, s)
  {
    hide Inv, Initial, Enumerates, Runs, WellFormed;
    InitialInv(home, orders, now);
    RunKeepsInv(home, Initial(home, orders, now), steps, s);
  }

  /** Coherence from end to end: once the feedback is drained, and outside a turn of its controller, the shared value of an
      output is the local value of the controller that owns it - or up, for a shutter that has not been commanded yet. */
  lemma SharedValueIsLocal(home: Home, s: Sys, k: nat, id: Id)
    requires WellFormed(home) && Inv(home, s) && !s.down && k < |s.nodes|
    requires id in home.controllers[k] && !home.controllers[k][id].OtherKind?
    requires s.feedback.Pending() == [] && s.nodes[k].state.todo == []
    ensures id in s.engine.outputs && id in s.nodes[k].state.values
    ensures s.engine.outputs[id] == Some(F.Shown(s.nodes[k].state.values[id]))
    ensures s.nodes[k].state.values[id].None? ==> home.controllers[k][id].WOShutter?
  {
    hide SoundIfApart, F.Mirrors, InputsFollow, Routed, AnswersAreSnapshots, LastSent;
    assert NodeFine(home, s, k);
    F.HeadIsReported(home.controllers[k], s.nodes[k].state, id);
    assert s.feedback.log[..s.feedback.read] == s.feedback.log;
  }

  lemma {:induction false} OnlyOwn(cmds: seq<IODataAction>, route: map<Id, nat>, k: nat, cmd: IODataAction)
    requires cmd in ForController(cmds, route, k)
    ensures cmd in cmds && cmd.id in route && route[cmd.id] == k
  {
    if cmd in ForController(cmds[..|cmds| - 1], route, k) {
      OnlyOwn(cmds[..|cmds| - 1], route, k, cmd);
    }
  }

  /** Routing is exact: a controller's queue has received precisely its share of what the dispatcher has dealt with, in order,
      so no command with an unknown id ever reaches a controller. */
  lemma QueueIsItsShare(home: Home, s: Sys, k: nat)
    requires WellFormed(home) && Inv(home, s) && k < |s.nodes|
    ensures s.nodes[k].queue.log == ForController(Settled(s), home.route, k)
    ensures Settled(s) <= s.output.log
    ensures forall cmd :: cmd in s.nodes[k].queue.log ==> cmd.id in home.controllers[k]
  {
    hide ForController;
    forall cmd | cmd in s.nodes[k].queue.log
      ensures cmd.id in home.controllers[k]
    {
      OnlyOwn(Settled(s), home.route, k, cmd);
    }
  }

  /** What a client reads: room by room every configured input and then every output, none left out, each input with the value
      last set for it by what was enqueued before the request, each output with what one prefix of the feedback says. */
  lemma AnswerShowsTheHome(home: Home, s: Sys, i: nat, r: nat)
    requires WellFormed(home) && Inv(home, s) && i < |s.answers| && r < |home.rooms|
    ensures IsSnapshot(home, s, s.answers[i])
    ensures
      var answer, room := s.answers[i], home.rooms[r];
      && |answer.home| == |home.rooms|
      && answer.home[r].name == room.name && answer.home[r].typer == room.typer
      && Decimal.ParseUnsigned(answer.home[r].hits, room.hits) == Some(room.hits)
      && |answer.home[r].items| == |room.inputs| + |room.outputs|
      && (forall j :: 0 <= j < |room.inputs| ==>
          HomeSnapshot.Shows(answer.home[r].items[j], HomeSnapshot.InputItem(room.inputs[j]),
                             LastSet(s.input.log[..answer.at], room.inputs[j].id)))
      && (forall j :: 0 <= j < |room.outputs| ==>
          HomeSnapshot.Shows(answer.home[r].items[|room.inputs| + j], HomeSnapshot.OutputItem(room.outputs[j]),
                             LastSent(s.feedback.log[..answer.heard], room.outputs[j].id)))
  {
    hide LastSet, LastSent, HomeSnapshot.Shows, Decimal.ParseUnsigned;
    var answer := s.answers[i];
    assert IsSnapshot(home, s, answer);
    HomeSnapshot.SnapshotIsComplete(home.rooms,
                                    map id | id in home.index :: LastSet(s.input.log[..answer.at], id),
                                    map id | id in home.outputIds :: LastSent(s.feedback.log[..answer.heard], id), r);
    HomeSnapshot.RoomsAreNamed(home.rooms,
                               map id | id in home.index :: LastSet(s.input.log[..answer.at], id),
                               map id | id in home.outputIds :: LastSent(s.feedback.log[..answer.heard], id), r);
  }

  /** Every request is answered once: the answers belong, in order, to the requests taken, each position to one answer, and the
      home that they show never goes back in time. */
  lemma RequestsAreAnsweredOnce(home: Home, s: Sys)
    requires Inv(home, s)
    ensures forall n: nat :: (exists i :: 0 <= i < |s.answers| && s.answers[i].at == n) <==>
              n < s.input.read && s.input.log[n].GetAllData?
    ensures forall i, j :: 0 <= i < j < |s.answers| ==>
              s.answers[i].at < s.answers[j].at && s.answers[i].heard <= s.answers[j].heard
  {
    hide InputsFollow, OutputsFollow, Routed, NodesFine, Asked, Snapshot;
    var taken := s.input.log[..s.input.read];
    AskedInOrder(taken);
    forall n: nat
      ensures (exists i :: 0 <= i < |s.answers| && s.answers[i].at == n) <==> n < s.input.read && s.input.log[n].GetAllData?
    {
      if n < s.input.read && s.input.log[n].GetAllData? {
        assert n in Asked(taken);
        var i :| 0 <= i < |Asked(taken)| && Asked(taken)[i] == n;
        assert s.answers[i].at == n;
      }
      if i :| 0 <= i < |s.answers| && s.answers[i].at == n {
        assert Asked(taken)[i] in Asked(taken);
      }
    }
  }

  // ----- bounded queues -----

  /** No queue holds more than it may. */
  ghost predicate WithinCapacity(home: Home, s: Sys)
  {
    && |s.input.log| - s.input.read <= home.capacity
    && |s.output.log| - s.output.read <= home.capacity
    && forall k :: 0 <= k < |s.nodes| ==> |s.nodes[k].queue.log| - s.nodes[k].queue.read <= home.capacity
  }

  lemma StepKeepsCapacity(home: Home, s: Sys, step: Step)
    requires ChannelsValid(home, s) && Enabled(home, s, step) && WithinCapacity(home, s)
    ensures WithinCapacity(home, Apply(home, s, step))
  {
    hide W.Apply, W.Enabled;
    assert step.Controller? && step.ev.Command? ==> s.nodes[step.k].queue.read < |s.nodes[step.k].queue.log|;
  }

  /** In every reachable state every queue holds at most its capacity, however fast the senders are. */
  lemma {:induction false} QueuesAreBounded(home: Home, s0: Sys, steps: seq<Step>, s: Sys)
    requires ChannelsValid(home, s0) && WithinCapacity(home, s0) && Runs(home, s0, steps, s)
    ensures WithinCapacity(home, s)
    decreases |steps|
  {
    hide WithinCapacity, Apply, Enabled;
    if steps != [] {
      StepKeepsCapacity(home, s0, steps[0]);
      StepKeepsChannels(home, s0, steps[0]);
      QueuesAreBounded(home, Apply(home, s0, steps[0]), steps[1..], s);
    }
  }

  lemma InitialCapacity(home: Home, orders: seq<seq<Id>>, now: Instant)
    requires |orders| == |home.controllers|
    ensures WithinCapacity(home, Initial(home, orders, now))
  {
    hide W.Initial;
  }

  // ----- one input event among everything else -----

  /** Between two commands taken, the system lets the rules engine make a run of its own. `sent` is what it puts on the output
      queue, in order; nobody else writes there unless a command arrives from outside. */
  lemma {:induction false} RulesEngineRuns(home: Home, s: Sys, steps: seq<Step>, s': Sys)
    returns (es: seq<EngineStep>, sent: seq<IODataAction>)
    requires ChannelsValid(home, s) && Runs(home, s, steps, s')
    requires forall step :: step in steps ==> !step.Take?
    ensures EngineRuns(s.engine, es, sent, s'.engine)
    ensures (forall step :: step in steps ==> !step.SubmitOutput?) ==> s'.output.log == s.output.log + sent
    decreases |steps|
  {
    hide Apply, Enabled, TakeStep, Dispatched, CanStep, ChannelsValid;
    if steps == [] {
      es, sent := [], [];
      assert s.output.log + [] == s.output.log;
    } else {
      var step := steps[0];
      StepKeepsChannels(home, s, step);
      var s1 := Apply(home, s, step);
      var es1, sent1 := RulesEngineRuns(home, s1, steps[1..], s');
      var first: seq<EngineStep>, put: seq<IODataAction> := OneEngineStep(home, s, step);
      es, sent := first + es1, put + sent1;
      assert s.output.log + put + sent1 == s.output.log + sent;
      if first == [] {
        assert es == es1 && sent == sent1;
      } else {
        assert first == [first[0]];
        assert es[0] == first[0] && es[1..] == es1 && sent[|put|..] == sent1;
      }
    }
  }

  lemma OneEngineStep(home: Home, s: Sys, step: Step) returns (es: seq<EngineStep>, put: seq<IODataAction>)
    requires ChannelsValid(home, s) && Enabled(home, s, step) && !step.Take?
    ensures es == [] ==> Apply(home, s, step).engine == s.engine && put == []
    ensures es != [] ==> |es| == 1 && CanStep(s.engine, es[0]) && TakeStep(s.engine, es[0]) == Apply(home, s, step).engine
                         && put == Dispatched(s.engine, es[0])
    ensures !step.SubmitOutput? ==> Apply(home, s, step).output.log == s.output.log + put
  {
    es, put := [], [];
    if step.Rules? {
      es, put := [step.step], Dispatched(s.engine, step.step);
    } else if step.Hear? && !Apply(home, s, step).down {
      es := [Feedback(s.feedback.Pending()[0])];
    }
    if put == [] {
      assert s.output.log + put == s.output.log;
    }
  }

  /** Rule execution in the running system does not depend on how the other tasks interleave, except for outputs that get their
      first value in the meantime: from the taking of an input event to its end, what reaches the output queue lies in order
      between what the outputs known at the start let through and what those known at the end would. */
  lemma SystemEventIsInsensitive(home: Home, s: Sys, steps: seq<Step>, s': Sys) returns (sent: seq<IODataAction>)
    requires Inv(home, s) && Enabled(home, s, Take)
    requires s.input.Pending()[0].Action? && s.input.Pending()[0].cmd.id in home.index
             && s.input.Pending()[0].cmd.action.SetValue?
    requires ChannelsValid(home, Apply(home, s, Take)) && Runs(home, Apply(home, s, Take), steps, s')
    requires s'.engine.work.Idle? && forall step :: step in steps ==> !step.Take?
    ensures (forall step :: step in steps ==> !step.SubmitOutput?) ==> s'.output.log == s.output.log + sent
    ensures var cmd := s.input.Pending()[0].cmd;
            var fired := FiredActions(home.index[cmd.id], s'.engine.inputs);
            && s'.engine.inputs == s.engine.inputs[cmd.id := Some(cmd.action.value)]
            && Subsequence(Effective(fired, s.engine.outputs), sent)
            && Subsequence(sent, Effective(fired, s'.engine.outputs))
  {
    hide AnswersAreSnapshots, OutputsFollow, Routed, NodesFine, LastSet, Runs;
    var es;
    es, sent := RulesEngineRuns(home, Apply(home, s, Take), steps, s');
    EventIsInsensitive(home.index, s.engine, s.input.Pending()[0].cmd, es, sent, s'.engine);
  }

  /** Any other command taken: one for an output reaches the output queue as it is, once; anything but a value for an input reaches
      nothing. */
  lemma SystemPassesOn(home: Home, s: Sys, steps: seq<Step>, s': Sys) returns (sent: seq<IODataAction>)
    requires Inv(home, s) && Enabled(home, s, Take) && s.input.Pending()[0].Action?
    requires s.input.Pending()[0].cmd.id in home.index ==> !s.input.Pending()[0].cmd.action.SetValue?
    requires ChannelsValid(home, Apply(home, s, Take)) && Runs(home, Apply(home, s, Take), steps, s')
    requires s'.engine.work.Idle? && forall step :: step in steps ==> !step.Take?
    ensures (forall step :: step in steps ==> !step.SubmitOutput?) ==> s'.output.log == s.output.log + sent
    ensures sent == if s.input.Pending()[0].cmd.id in home.index then [] else [s.input.Pending()[0].cmd]
    ensures s'.engine.inputs == s.engine.inputs
  {
    hide AnswersAreSnapshots, OutputsFollow, Routed, NodesFine, LastSet, Runs;
    var es;
    es, sent := RulesEngineRuns(home, Apply(home, s, Take), steps, s');
    var cmd := s.input.Pending()[0].cmd;
    if cmd.id in home.index {
      OtherActionIsIgnored(home.index, s.engine, cmd, es, sent, s'.engine);
    } else {
      CommandIsPassedOn(home.index, s.engine, cmd, es, sent, s'.engine);
    }
  }
}
