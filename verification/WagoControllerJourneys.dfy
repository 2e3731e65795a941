/** Where a shutter is, over whole runs: it is down only if its last journey went down and was ended by the timer. */
module WagoControllerJourneys {
  import opened Basics
  import opened Coils
  import opened IoValues
  import opened Modbus
  import opened WagoController
  import opened WagoControllerCommands
  import opened WagoControllerSafety
  import Feedback = WagoControllerFeedback

  // ----- the writes of a turn -----

  /** The write is one that the operations ask for. */
  ghost predicate AskedFor(ops: seq<Op>, w: Write)
  {
    && Reachable(w.address)
    && exists op :: op in ops && op.SetVar? && Coil(op.pin) == w.address && op.value == w.value && op.reason == w.reason
  }

  lemma StepWrites(s: State, e: Env)
    requires s.todo != []
    ensures s.client.log <= Step(s, e).client.log
    ensures forall k :: |s.client.log| <= k < |Step(s, e).client.log| ==> AskedFor([s.todo[0]], Step(s, e).client.log[k])
  {
    hide Coil, Pause;
    assert s.todo[0] in [s.todo[0]];
  }

  /** A turn writes only what its operations ask for. */
  lemma {:induction false} DrainWrites(s: State, envs: seq<Env>)
    requires |envs| >= |s.todo|
    ensures s.client.log <= Drain(s, envs).client.log
    ensures forall k :: |s.client.log| <= k < |Drain(s, envs).client.log| ==> AskedFor(s.todo, Drain(s, envs).client.log[k])
    decreases |s.todo|
  {
    hide Coil, Step, AskedFor;
    if s.todo != [] {
      StepWrites(s, envs[0]);
      var s' := Step(s, envs[0]);
      var end := Drain(s, envs).client.log;
      DrainWrites(s', envs[1..]);
      forall k | |s.client.log| <= k < |end|
        ensures AskedFor(s.todo, end[k])
      {
        if k < |s'.client.log| {
          assert end[k] == s'.client.log[k];
          AskedForMore([s.todo[0]], s.todo, end[k]);
        } else {
          StepShrinks(s, envs[0]);
          AskedForMore(s'.todo, s.todo, end[k]);
        }
      }
    }
  }

  lemma AskedForMore(some: seq<Op>, all: seq<Op>, w: Write)
    requires AskedFor(some, w) && forall op :: op in some ==> op in all
    ensures AskedFor(all, w)
  {
  }

  lemma StepShrinks(s: State, e: Env)
    requires s.todo != []
    ensures forall op :: op in Step(s, e).todo ==> op in s.todo
  {
    hide Exec;
    assert Step(s, e).todo == [] || Step(s, e).todo == s.todo[1..] by { StepTodo(s, e); }
  }

  lemma StepTodo(s: State, e: Env)
    requires s.todo != []
    ensures Step(s, e).todo == [] || Step(s, e).todo == s.todo[1..]
  {
    hide WriteSingleCoil;
  }

  // ----- coming down -----

  predicate OwnCoil(io: UpDown, a: Address)
  {
    a == Coil(io.varUp) || a == Coil(io.varDown)
  }

  /** Write `k` ended a journey down, and the motor has not been on since. */
  predicate LastJourney(log: seq<Write>, io: UpDown, k: int)
  {
    && 0 <= k < |log| && EndsMove(log, k, io) && log[k].address == Coil(io.varDown)
    && forall j :: k < j < |log| && OwnCoil(io, log[j].address) ==> !log[j].value
  }

  ghost predicate CameDown(log: seq<Write>, io: UpDown)
  {
    exists k :: LastJourney(log, io, k)
  }

  /** Further writes do not matter unless they switch the motor on. */
  lemma StillDown(log: seq<Write>, log': seq<Write>, io: UpDown)
    requires CameDown(log, io) && log <= log'
    requires forall j :: |log| <= j < |log'| && OwnCoil(io, log'[j].address) ==> !log'[j].value
    ensures CameDown(log', io)
  {
    hide Coil, LastWrite;
    var k :| LastJourney(log, io, k);
    assert log'[..k] == log[..k];
    assert LastJourney(log', io, k);
  }

  /** A coil that was on and is off was switched off in between. */
  lemma {:induction false} FallingEdge(log: seq<Write>, log': seq<Write>, a: Address) returns (k: nat)
    requires log <= log' && On(log, a) && !On(log', a)
    ensures |log| <= k < |log'| && log'[k].address == a && On(log'[..k], a)
    decreases |log'|
  {
    var last := |log'| - 1;
    if log == log' {
      assert false;
    }
    if On(log'[..last], a) {
      k := last;
    } else {
      k := FallingEdge(log, log'[..last], a);
      assert log'[..last][..k] == log'[..k];
    }
  }

  /** Every shutter whose value is down came down. */
  ghost predicate DownIsEarned(outputs: Outputs, s: State)
  {
    forall id :: id in outputs && outputs[id].WOShutter? && id in s.values && s.values[id] == Some(Shutter(Down)) ==>
      CameDown(s.client.log, outputs[id].io)
  }

  /** Whatever the surroundings do, it will be so at the end of the turn in progress, unless that fails. */
  ghost predicate EarnedAtEnd(outputs: Outputs, s: State)
  {
    forall envs: seq<Env> :: |envs| >= |s.todo| && !Drain(s, envs).client.failed ==> DownIsEarned(outputs, Drain(s, envs))
  }

  // ----- turns -----

  /** The writes of a command are to the coils of its output. */
  lemma CommandWritesOwn(outputs: Outputs, s: State, cmd: IODataAction)
    ensures forall op :: op in CommandPlan(outputs, s, cmd) && op.SetVar? ==> cmd.id in outputs && op.pin in Pins(outputs[cmd.id])
  {
  }

  lemma ElsewhereIsUntouched(outputs: Outputs, id: Id, j: Id, ops: seq<Op>, w: Write)
    requires Disjoint(outputs) && id in outputs && j in outputs && j != id && outputs[j].WOShutter? && AskedFor(ops, w)
    requires forall op :: op in ops && op.SetVar? ==> op.pin in Pins(outputs[id])
    ensures !OwnCoil(outputs[j].io, w.address)
  {
    hide Coil, Disjoint, Reachable;
    var op :| op in ops && op.SetVar? && Coil(op.pin) == w.address;
    PinsDiffer(outputs, id, j, op.pin, outputs[j].io.varUp);
    PinsDiffer(outputs, id, j, op.pin, outputs[j].io.varDown);
  }

  lemma CommandEarns(outputs: Outputs, s: State, cmd: IODataAction)
    requires Disjoint(outputs) && Settled(outputs, s) && s.todo == [] && DownIsEarned(outputs, s)
    ensures EarnedAtEnd(outputs, Receive(outputs, s, cmd))
  {
    hide Coil, LogFine, Disjoint, Drain, LastWrite, CommandPlan, AtHead, CameDown, AskedFor;
    var s0 := Receive(outputs, s, cmd);
    forall envs: seq<Env> | |envs| >= |s0.todo| && !Drain(s0, envs).client.failed
      ensures DownIsEarned(outputs, Drain(s0, envs))
    {
      CommandIsObeyed(outputs, s, cmd, envs);
      DrainWrites(s0, envs);
      CommandWritesOwn(outputs, s, cmd);
      KeysAtHead(outputs, s);
      var end := Drain(s0, envs);
      forall id | id in outputs && outputs[id].WOShutter? && id in end.values && end.values[id] == Some(Shutter(Down))
        ensures CameDown(end.client.log, outputs[id].io)
      {
        if cmd.id !in outputs || id == cmd.id {
          PlanMeaning(outputs, s, cmd);
          DrainIdle(s0, envs);
        } else {
          forall k | |s.client.log| <= k < |end.client.log|
            ensures !OwnCoil(outputs[id].io, end.client.log[k].address)
          {
            ElsewhereIsUntouched(outputs, cmd.id, id, s0.todo, end.client.log[k]);
          }
          StillDown(s.client.log, end.client.log, outputs[id].io);
        }
      }
    }
  }

  lemma {:induction false} TimerWritesOff(outputs: Outputs, tasks: map<Id, Task>, order: seq<Id>, now: Instant)
    ensures forall op :: op in TimerPlan(outputs, tasks, order, now) && op.SetVar? ==> !op.value && op.reason == Expired
  {
    if order != [] {
      TimerWritesOff(outputs, tasks, order[1..], now);
    }
  }

  /** The writes of a timer turn are to coils of due shutters. */
  lemma {:induction false} TimerWritesDue(outputs: Outputs, tasks: map<Id, Task>, order: seq<Id>, now: Instant, op: Op)
    returns (j: Id)
    requires op in TimerPlan(outputs, tasks, order, now) && op.SetVar?
    ensures Due(tasks, j, now) && j in outputs && outputs[j].WOShutter? && op.pin in Pins(outputs[j])
  {
    if op in ExpirePlan(outputs, tasks, order[0], now) {
      j := order[0];
    } else {
      j := TimerWritesDue(outputs, tasks, order[1..], now, op);
    }
  }

  /** The timer has stopped a shutter on its way down. */
  lemma ArrivedDown(outputs: Outputs, h: State, end: State, id: Id, ops: seq<Op>)
    requires AtHead(outputs, h) && id in outputs && outputs[id].WOShutter? && id in h.tasks && h.tasks[id].target == Shutter(Down)
    requires Rests(end.client.log, outputs[id].io) && h.client.log <= end.client.log
    requires forall k :: |h.client.log| <= k < |end.client.log| ==> AskedFor(ops, end.client.log[k])
    requires forall op :: op in ops && op.SetVar? ==> !op.value && op.reason == Expired
    ensures CameDown(end.client.log, outputs[id].io)
  {
    hide Coil, LastWrite;
    var io, log := outputs[id].io, end.client.log;
    HeadShows(outputs, h, id);
    var k := FallingEdge(h.client.log, log, Coil(io.varDown));
    assert AskedFor(ops, log[k]);
    assert LastJourney(log, io, k);
  }

  lemma TimerEarns(outputs: Outputs, s: State, order: seq<Id>, now: Instant)
    requires Disjoint(outputs) && Settled(outputs, s) && DownIsEarned(outputs, s)
    requires TimerReady(s, now) && Enumerates(order, s.tasks.Keys)
    ensures EarnedAtEnd(outputs, Fire(outputs, s, order, now))
  {
    hide Coil, LogFine, Disjoint, Drain, LastWrite, TimerPlan, AtHead, CameDown, AskedFor, Sound, Expiring;
    var s0 := Fire(outputs, s, order, now);
    TimerIsSound(outputs, s, order, now);
    TimerWritesOff(outputs, s.tasks, order, now);
    forall envs: seq<Env> | |envs| >= |s0.todo| && !Drain(s0, envs).client.failed
      ensures DownIsEarned(outputs, Drain(s0, envs))
    {
      DrainWrites(s0, envs);
      var end := Drain(s0, envs);
      forall id | id in outputs && outputs[id].WOShutter? && id in end.values && end.values[id] == Some(Shutter(Down))
        ensures CameDown(end.client.log, outputs[id].io)
      {
        Unfold(outputs, s, end, now, [], id);
        if Due(s.tasks, id, now) {
          ArrivedDown(outputs, s, end, id, s0.todo);
        } else {
          forall k | |s.client.log| <= k < |end.client.log|
            ensures !end.client.log[k].value
          {
            OffIsOff(s0.todo, end.client.log[k]);
          }
          StillDown(s.client.log, end.client.log, outputs[id].io);
        }
      }
    }
  }

  lemma OffIsOff(ops: seq<Op>, w: Write)
    requires AskedFor(ops, w) && forall op :: op in ops && op.SetVar? ==> !op.value
    ensures !w.value
  {
  }

  /** A turn that neither reads nor updates an output leaves its value. */
  lemma {:induction false} DrainKeepsValue(s: State, envs: seq<Env>, id: Id)
    requires |envs| >= |s.todo| && id in s.values
    requires forall op :: op in s.todo ==> !(op.ReadVar? && op.id == id) && !(op.UpdateState? && op.id == id)
    ensures id in Drain(s, envs).values && Drain(s, envs).values[id] == s.values[id]
    decreases |s.todo|
  {
    if s.todo != [] {
      StepKeepsValue(s, envs[0], id);
      StepShrinks(s, envs[0]);
      DrainKeepsValue(Step(s, envs[0]), envs[1..], id);
    }
  }

  lemma StepKeepsValue(s: State, e: Env, id: Id)
    requires s.todo != [] && id in s.values
    requires !(s.todo[0].ReadVar? && s.todo[0].id == id) && !(s.todo[0].UpdateState? && s.todo[0].id == id)
    ensures id in Step(s, e).values && Step(s, e).values[id] == s.values[id]
  {
    hide WriteSingleCoil;
  }

  lemma BootEarns(outputs: Outputs, order: seq<Id>, now: Instant)
    requires Enumerates(order, outputs.Keys)
    ensures EarnedAtEnd(outputs, Initial(outputs, order, now))
  {
    hide Coil, BootPlan, Drain, CameDown, LastWrite;
    var s0 := Initial(outputs, order, now);
    Feedback.BootPlanReports(outputs, order);
    forall envs: seq<Env> | |envs| >= |s0.todo|
      ensures DownIsEarned(outputs, Drain(s0, envs))
    {
      forall id | id in outputs && outputs[id].WOShutter?
        ensures id in Drain(s0, envs).values && Drain(s0, envs).values[id].None?
      {
        DrainKeepsValue(s0, envs, id);
      }
    }
  }

  // ----- runs -----

  lemma EventEarns(outputs: Outputs, s: State, ev: Event)
    requires Disjoint(outputs) && Sound(outputs, s) && EarnedAtEnd(outputs, s) && Enabled(s, ev)
    ensures EarnedAtEnd(outputs, Apply(outputs, s, ev))
  {
    hide Coil, Disjoint, LogFine, AtHead, Exec, DownIsEarned;
    match ev
    case Operate(e) =>
      forall envs: seq<Env> | |envs| >= |Step(s, e).todo| && !Drain(Step(s, e), envs).client.failed
        ensures DownIsEarned(outputs, Drain(Step(s, e), envs))
      {
        var more := seq(|s.todo|, _ => e);
        var all := [e] + (envs + more);
        assert all[0] == e && all[1..] == envs + more;
        DrainStep(s, all);
        DrainIgnoresRest(Step(s, e), envs, more);
      }
    case Command(cmd) =>
      HeadIsSettled(outputs, s);
      HeadIsEarned(outputs, s);
      CommandEarns(outputs, s, cmd);
    case Timer(order, now) =>
      HeadIsSettled(outputs, s);
      HeadIsEarned(outputs, s);
      TimerEarns(outputs, s, order, now);
    case KeepAlive(e) =>
      HeadIsEarned(outputs, s);
      var s' := Apply(outputs, s, ev);
      assert DownIsEarned(outputs, s') by { SameLog(outputs, s, s'); }
      forall envs: seq<Env>
        ensures DownIsEarned(outputs, Drain(s', envs))
      {
        DrainIdle(s', envs);
      }
  }

  lemma SameLog(outputs: Outputs, s: State, s': State)
    requires DownIsEarned(outputs, s) && s'.values == s.values && s'.client.log == s.client.log
    ensures DownIsEarned(outputs, s')
  {
  }

  lemma HeadIsEarned(outputs: Outputs, s: State)
    requires EarnedAtEnd(outputs, s) && s.todo == [] && !s.client.failed
    ensures DownIsEarned(outputs, s)
  {
    DrainIdle(s, []);
  }

  lemma {:induction false} RunEarns(outputs: Outputs, s0: State, events: seq<Event>, s: State)
    requires Disjoint(outputs) && Sound(outputs, s0) && EarnedAtEnd(outputs, s0) && Runs(outputs, s0, events, s)
    ensures EarnedAtEnd(outputs, s)
    decreases |events|
  {
    hide Coil, Disjoint, Sound, Apply, EarnedAtEnd;
    if events != [] {
      EventKeepsSound(outputs, s0, events[0]);
      EventEarns(outputs, s0, events[0]);
      RunEarns(outputs, Apply(outputs, s0, events[0]), events[1..], s);
    }
  }

  /** A shutter is down only after a full journey: its motor was last on downwards, was switched off by the timer, and had been on
      for the configured time. */
  lemma DownMeansTravelled(outputs: Outputs, order: seq<Id>, now: Instant, events: seq<Event>, s: State, id: Id) returns (k: nat)
    requires Disjoint(outputs) && Enumerates(order, outputs.Keys) && Runs(outputs, Initial(outputs, order, now), events, s)
    requires s.todo == [] && !s.client.failed && id in outputs && outputs[id].WOShutter?
    requires id in s.values && s.values[id] == Some(Shutter(Down))
    ensures var io, log := outputs[id].io, s.client.log;
            && LastJourney(log, io, k)
            && LastWrite(log[..k], log[k].address).value.done + io.time <= log[k].begin
  {
    hide Coil, Disjoint, Runs, Enumerates, Sound, EarnedAtEnd, LastWrite, Initial;
    var s0 := Initial(outputs, order, now);
    BootIsSound(outputs, order, now);
    BootEarns(outputs, order, now);
    RunEarns(outputs, s0, events, s);
    HeadIsEarned(outputs, s);
    ControllerIsSafe(outputs, order, now, events, s);
    k :| LastJourney(s.client.log, outputs[id].io, k);
  }
}
