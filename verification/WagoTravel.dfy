/** Exactly for which wirings every move that the timer ends has travelled in full. */
module WagoTravel {
  import opened Basics
  import opened Coils
  import opened IoValues
  import opened Modbus
  import opened WagoController
  import opened WagoControllerCommands
  import opened WagoControllerJourneys
  import opened WagoControllerOwners
  import opened WagoControllerRelays
  import opened WagoControllerSafety
  import opened WagoInterlock
  import opened WagoAgreement

  /** No other output has a coil of output `id` that can be written. */
  ghost predicate Private(outputs: Outputs, id: Id)
    requires id in outputs
  {
    forall j, p, q :: j in outputs && j != id && p in Pins(outputs[id]) && q in Pins(outputs[j]) && Reachable(Coil(p)) ==>
      Coil(p) != Coil(q)
  }

  /** Shutters share no coil, except those whose travel takes no longer than the minimum duration between two writes anyway. */
  ghost predicate TravelSafe(outputs: Outputs)
  {
    forall id :: id in outputs && outputs[id].WOShutter? && outputs[id].io.time > MIN_DURATION_BETWEEN_WRITE ==> Private(outputs, id)
  }

  /** The moves of one shutter that the timer ended were full. */
  ghost predicate TravelsFully(log: seq<Write>, io: UpDown)
  {
    forall k :: 0 <= k < |log| && EndsMove(log, k, io) ==>
      LastWrite(log[..k], log[k].address).value.done + io.time <= log[k].begin
  }

  // ----- short travels -----

  /** The spacing of writes alone makes short travels full. */
  lemma ShortTravelIsFull(log: seq<Write>, io: UpDown)
    requires Spaced(log) && io.time <= MIN_DURATION_BETWEEN_WRITE
    ensures TravelsFully(log, io)
  {
    hide Coil;
    forall k | 0 <= k < |log| && EndsMove(log, k, io)
      ensures LastWrite(log[..k], log[k].address).value.done + io.time <= log[k].begin
    {
      LastWriteIsLogged(log[..k], log[k].address);
      var w := LastWrite(log[..k], log[k].address).value;
      var i :| 0 <= i < k && log[..k][i] == w;
      assert log[i] == w;
    }
  }

  // ----- private coils -----

  /** At a loop head, a coil of the shutter that is on will not be switched off by the timer before the travel is full. */
  ghost predicate OnTime(s: State, id: Id, io: UpDown)
  {
    forall a :: OwnCoil(io, a) && On(s.client.log, a) ==>
      id in s.tasks && LastWrite(s.client.log, a).value.done + io.time <= s.tasks[id].deadline
  }

  ghost predicate FullAtEnd(s: State, id: Id, io: UpDown)
  {
    forall envs: seq<Env> :: |envs| >= |s.todo| ==>
      TravelsFully(Drain(s, envs).client.log, io) && (!Drain(s, envs).client.failed ==> OnTime(Drain(s, envs), id, io))
  }

  /** Writes that are not the timer's end no move. */
  lemma OtherReasonsEndNothing(log: seq<Write>, log': seq<Write>, io: UpDown)
    requires TravelsFully(log, io) && log <= log'
    requires forall k :: |log| <= k < |log'| ==> log'[k].reason != Expired
    ensures TravelsFully(log', io)
  {
    hide Coil, LastWrite;
    forall k | 0 <= k < |log'| && EndsMove(log', k, io)
      ensures LastWrite(log'[..k], log'[k].address).value.done + io.time <= log'[k].begin
    {
      assert log'[..k] == log[..k];
      assert EndsMove(log, k, io);
    }
  }

  lemma {:induction false} LastWriteKept(log: seq<Write>, log': seq<Write>, a: Address)
    requires log <= log' && forall k :: |log| <= k < |log'| ==> log'[k].address != a
    ensures LastWrite(log', a) == LastWrite(log, a)
    decreases |log'|
  {
    if log != log' {
      LastWriteKept(log, log'[..|log'| - 1], a);
    } else {
      assert log' == log;
    }
  }

  /** Where only off-writes have been added, a coil that is on has not been written since. */
  lemma {:induction false} StillOn(log: seq<Write>, log': seq<Write>, a: Address)
    requires log <= log' && On(log', a) && forall k :: |log| <= k < |log'| ==> !log'[k].value
    ensures LastWrite(log', a) == LastWrite(log, a)
    decreases |log'|
  {
    if log != log' {
      assert log'[|log'| - 1].address != a;
      StillOn(log, log'[..|log'| - 1], a);
    } else {
      assert log' == log;
    }
  }

  lemma StepLater(s: State, e: Env)
    requires s.todo != [] && s.client.failed == false
    ensures s.client.clock <= Step(s, e).client.clock && s.client.log <= Step(s, e).client.log
    ensures forall k :: |s.client.log| <= k < |Step(s, e).client.log| ==> s.client.clock <= Step(s, e).client.log[k].begin
  {
    hide Coil;
  }

  /** The writes of a turn begin after the turn does. */
  lemma {:induction false} DrainLater(s: State, envs: seq<Env>)
    requires |envs| >= |s.todo| && (s.client.failed ==> s.todo == [])
    ensures s.client.clock <= Drain(s, envs).client.clock && s.client.log <= Drain(s, envs).client.log
    ensures forall k :: |s.client.log| <= k < |Drain(s, envs).client.log| ==> s.client.clock <= Drain(s, envs).client.log[k].begin
    decreases |s.todo|
  {
    hide Exec;
    if s.todo != [] {
      StepLater(s, envs[0]);
      DrainLater(Step(s, envs[0]), envs[1..]);
      var mid, end := Step(s, envs[0]).client.log, Drain(s, envs).client.log;
      forall k | |s.client.log| <= k < |end|
        ensures s.client.clock <= end[k].begin
      {
        if k < |mid| {
          assert end[k] == mid[k];
        }
      }
    }
  }

  // ----- commands -----

  lemma CommandReasons(outputs: Outputs, s: State, cmd: IODataAction)
    ensures forall op :: op in CommandPlan(outputs, s, cmd) && op.SetVar? ==> op.reason == Commanded
  {
  }

  lemma ReasonOf(ops: seq<Op>, w: Write, reason: Reason)
    requires AskedFor(ops, w) && forall op :: op in ops && op.SetVar? ==> op.reason == reason
    ensures w.reason == reason
  {
  }

  lemma ForeignWrite(outputs: Outputs, id: Id, ops: seq<Op>, w: Write, j: Id)
    requires id in outputs && outputs[id].WOShutter? && Private(outputs, id) && j in outputs && j != id && AskedFor(ops, w)
    requires forall op :: op in ops && op.SetVar? ==> op.pin in Pins(outputs[j])
    ensures !OwnCoil(outputs[id].io, w.address)
  {
    hide Coil, Reachable;
    var io := outputs[id].io;
    var op :| op in ops && op.SetVar? && Coil(op.pin) == w.address;
    assert io.varUp in Pins(outputs[id]) && io.varDown in Pins(outputs[id]);
  }

  /** Where the coils and the task of the shutter are left alone, it stays on time. */
  lemma OnTimeKept(s: State, end: State, id: Id, io: UpDown)
    requires OnTime(s, id, io)
    requires forall a :: OwnCoil(io, a) ==> LastWrite(end.client.log, a) == LastWrite(s.client.log, a)
    requires id in s.tasks ==> id in end.tasks && end.tasks[id] == s.tasks[id]
    ensures OnTime(end, id, io)
  {
    hide Coil, LastWrite, OwnCoil;
  }

  lemma OtherCommandOnTime(outputs: Outputs, s: State, id: Id, cmd: IODataAction, envs: seq<Env>)
    requires id in outputs && outputs[id].WOShutter? && Private(outputs, id) && cmd.id != id && OnTime(s, id, outputs[id].io)
    requires s.todo == [] && |envs| >= |CommandPlan(outputs, s, cmd)|
    ensures OnTime(Drain(Receive(outputs, s, cmd), envs), id, outputs[id].io)
  {
    hide Coil, LastWrite, Drain, CommandPlan, AskedFor, Private, OnTime;
    var s0 := Receive(outputs, s, cmd);
    var io, end := outputs[id].io, Drain(s0, envs);
    DrainWrites(s0, envs);
    CommandWritesOwn(outputs, s, cmd);
    forall a | OwnCoil(io, a)
      ensures LastWrite(end.client.log, a) == LastWrite(s.client.log, a)
    {
      forall k | |s.client.log| <= k < |end.client.log|
        ensures end.client.log[k].address != a
      {
        if cmd.id in outputs {
          ForeignWrite(outputs, id, s0.todo, end.client.log[k], cmd.id);
        } else {
          NoPlan(outputs, s, cmd);
          DrainIdle(s0, envs);
        }
      }
      LastWriteKept(s.client.log, end.client.log, a);
    }
    if id in s.tasks {
      CommandSpares(outputs, s, cmd, id);
      DrainSpares(s0, envs, id);
    }
    OnTimeKept(s, end, id, io);
  }

  lemma CommandSpares(outputs: Outputs, s: State, cmd: IODataAction, id: Id)
    requires cmd.id != id && id in s.tasks
    ensures forall op :: op in CommandPlan(outputs, s, cmd) ==> Spares(op, id, s.tasks[id])
  {
  }

  /** A step that goes on, seen from outside: time passes and the client stays paced. */
  lemma WriteGoesOn(s: State, e: Env)
    requires s.todo != [] && s.todo[0].SetVar? && !s.client.failed && Paced(s.client) && !Step(s, e).client.failed
    ensures Step(s, e) == s.(todo := s.todo[1..], client := Step(s, e).client) && Paced(Step(s, e).client)
  {
    StepKeepsPaced(s, e);
    hide Paced, WriteSingleCoil;
  }

  /** At the end of a move all writes so far are older than its deadline by the travel time. */
  lemma MoveDeadline(s: State, id: Id, io: UpDown, command: ShutterState, envs: seq<Env>)
    requires s.todo == [] && !s.client.failed && Paced(s.client) && |envs| >= 5 && |MovePlan(id, io, command)| == 5
    requires !Drain(s.(todo := MovePlan(id, io, command)), envs).client.failed
    ensures var end := Drain(s.(todo := MovePlan(id, io, command)), envs);
            id in end.tasks && forall k :: 0 <= k < |end.client.log| ==> end.client.log[k].done + io.time <= end.tasks[id].deadline
  {
    hide Coil, Drain, Paced, Step;
    var up := command in {Up, MovingUp};
    var s0 := s.(todo := MovePlan(id, io, command));
    DrainStep(s0, envs);
    WriteGoesOn(s0, envs[0]);
    var s1 := Step(s0, envs[0]);
    DrainStep(s1, envs[1..]);
    WriteGoesOn(s1, envs[1]);
    var s2 := Step(s1, envs[1]);
    DrainStep(s2, envs[1..][1..]);
    WriteGoesOn(s2, envs[2]);
    var s3 := Step(s2, envs[2]);
    assert s3.todo == StartOps(id, io, up);
    LastTwoSteps(s3, s3.todo[0], id, s3.todo[1].state, envs[1..][1..][1..]);
    assert forall k :: 0 <= k < |s3.client.log| ==> s3.client.log[k].done <= s3.client.clock by { PacedIsPast(s3.client); }
  }

  lemma PacedIsPast(c: Client)
    requires Paced(c)
    ensures forall k :: 0 <= k < |c.log| ==> c.log[k].done <= c.clock
  {
  }

  lemma OwnMoveOnTime(s: State, id: Id, io: UpDown, command: ShutterState, envs: seq<Env>)
    requires s.todo == [] && !s.client.failed && Paced(s.client) && |envs| >= 5 && |MovePlan(id, io, command)| == 5
    requires !Drain(s.(todo := MovePlan(id, io, command)), envs).client.failed
    ensures OnTime(Drain(s.(todo := MovePlan(id, io, command)), envs), id, io)
  {
    hide Coil, Drain, Paced, MovePlan;
    MoveDeadline(s, id, io, command, envs);
    var end := Drain(s.(todo := MovePlan(id, io, command)), envs);
    forall a | On(end.client.log, a)
      ensures LastWrite(end.client.log, a).value.done + io.time <= end.tasks[id].deadline
    {
      LastWriteIsLogged(end.client.log, a);
    }
  }

  lemma OwnStopOnTime(s: State, id: Id, io: UpDown, envs: seq<Env>)
    requires s.todo == [] && |envs| >= 4 && |StopPlan(id, io)| == 4
    requires !Drain(s.(todo := StopPlan(id, io)), envs).client.failed
    ensures OnTime(Drain(s.(todo := StopPlan(id, io)), envs), id, io)
  {
    hide Coil, Drain, FinalCoil, On;
    var s0 := s.(todo := StopPlan(id, io));
    forall a | OwnCoil(io, a)
      ensures !On(Drain(s0, envs).client.log, a)
    {
      DrainCoil(s0, envs, a);
      ShutterFinal(id, io, Up, a);
    }
  }

  lemma CommandIsFull(outputs: Outputs, s: State, id: Id, cmd: IODataAction)
    requires id in outputs && outputs[id].WOShutter? && Private(outputs, id) && Paced(s.client)
    requires s.todo == [] && !s.client.failed && TravelsFully(s.client.log, outputs[id].io) && OnTime(s, id, outputs[id].io)
    ensures FullAtEnd(Receive(outputs, s, cmd), id, outputs[id].io)
  {
    hide Coil, Drain, AskedFor, OnTime, TravelsFully, Private, Paced, MovePlan, StopPlan;
    var s0, io := Receive(outputs, s, cmd), outputs[id].io;
    CommandReasons(outputs, s, cmd);
    forall envs: seq<Env> | |envs| >= |s0.todo|
      ensures TravelsFully(Drain(s0, envs).client.log, io)
      ensures !Drain(s0, envs).client.failed ==> OnTime(Drain(s0, envs), id, io)
    {
      var end := Drain(s0, envs);
      DrainWrites(s0, envs);
      forall k | |s.client.log| <= k < |end.client.log|
        ensures end.client.log[k].reason != Expired
      {
        ReasonOf(s0.todo, end.client.log[k], Commanded);
      }
      OtherReasonsEndNothing(s.client.log, end.client.log, io);
      if cmd.id != id {
        OtherCommandOnTime(outputs, s, id, cmd, envs);
      } else if s0.todo == [] {
        DrainIdle(s0, envs);
        assert s0 == s;
      } else if !end.client.failed {
        PlanSizes(id, io);
        match ShutterCommand(s.values[id], NewValue(s.values[id], cmd.action).value) {
          case Some(command) => OwnMoveOnTime(s, id, io, command, envs);
          case None => OwnStopOnTime(s, id, io, envs);
        }
      }
    }
  }

  // ----- timer turns -----

  /** A write of a timer turn to a private coil means that its shutter is due. */
  lemma OwnWriteIsDue(outputs: Outputs, s: State, order: seq<Id>, now: Instant, id: Id, w: Write)
    requires id in outputs && outputs[id].WOShutter? && Private(outputs, id) && OwnCoil(outputs[id].io, w.address)
    requires AskedFor(TimerPlan(outputs, s.tasks, order, now), w)
    ensures Due(s.tasks, id, now)
  {
    hide Coil, Reachable, TimerPlan;
    var io := outputs[id].io;
    var op :| op in TimerPlan(outputs, s.tasks, order, now) && op.SetVar? && Coil(op.pin) == w.address;
    var j := TimerWritesDue(outputs, s.tasks, order, now, op);
    assert io.varUp in Pins(outputs[id]) && io.varDown in Pins(outputs[id]);
  }

  lemma TimerTravelsFully(outputs: Outputs, s: State, order: seq<Id>, now: Instant, id: Id, log: seq<Write>)
    requires id in outputs && outputs[id].WOShutter? && Private(outputs, id)
    requires TravelsFully(s.client.log, outputs[id].io) && OnTime(s, id, outputs[id].io) && s.client.log <= log
    requires forall k :: |s.client.log| <= k < |log| ==>
               AskedFor(TimerPlan(outputs, s.tasks, order, now), log[k]) && now <= log[k].begin && !log[k].value
    ensures TravelsFully(log, outputs[id].io)
  {
    hide Coil, LastWrite, TimerPlan, AskedFor, Private;
    var io := outputs[id].io;
    forall k | 0 <= k < |log| && EndsMove(log, k, io)
      ensures LastWrite(log[..k], log[k].address).value.done + io.time <= log[k].begin
    {
      if k < |s.client.log| {
        assert log[..k] == s.client.log[..k];
        assert EndsMove(s.client.log, k, io);
      } else {
        OwnWriteIsDue(outputs, s, order, now, id, log[k]);
        StillOn(s.client.log, log[..k], log[k].address);
      }
    }
  }

  lemma TimerOnTime(outputs: Outputs, s: State, order: seq<Id>, now: Instant, id: Id, envs: seq<Env>)
    requires id in outputs && outputs[id].WOShutter? && Private(outputs, id) && OnTime(s, id, outputs[id].io)
    requires Enumerates(order, s.tasks.Keys)
    requires var s0 := Fire(outputs, s, order, now); |envs| >= |s0.todo| && !Drain(s0, envs).client.failed
    ensures OnTime(Drain(Fire(outputs, s, order, now), envs), id, outputs[id].io)
  {
    hide Coil, LastWrite, TimerPlan, AskedFor, Private, Drain, FinalCoil, On;
    var s0, io := Fire(outputs, s, order, now), outputs[id].io;
    var end := Drain(s0, envs);
    TimerWritesOff(outputs, s.tasks, order, now);
    if Due(s.tasks, id, now) {
      TimerPlanHas(outputs, s.tasks, order, now, id);
      OffFinalAt(s0.todo, SetVar(io.varUp, false, Expired));
      OffFinalAt(s0.todo, SetVar(io.varDown, false, Expired));
      DrainCoil(s0, envs, Coil(io.varUp));
      DrainCoil(s0, envs, Coil(io.varDown));
      assert forall a :: OwnCoil(io, a) ==> !On(end.client.log, a);
    } else {
      DrainWrites(s0, envs);
      forall a | OwnCoil(io, a)
        ensures LastWrite(end.client.log, a) == LastWrite(s.client.log, a)
      {
        forall k | |s.client.log| <= k < |end.client.log|
          ensures end.client.log[k].address != a
        {
          if end.client.log[k].address == a {
            OwnWriteIsDue(outputs, s, order, now, id, end.client.log[k]);
          }
        }
        LastWriteKept(s.client.log, end.client.log, a);
      }
      if id in s.tasks {
        TimerPlanTasks(outputs, s.tasks, order, now);
        DrainSpares(s0, envs, id);
      }
      OnTimeKept(s, end, id, io);
    }
  }

  lemma TimerIsFull(outputs: Outputs, s: State, order: seq<Id>, now: Instant, id: Id)
    requires id in outputs && outputs[id].WOShutter? && Private(outputs, id) && Enumerates(order, s.tasks.Keys)
    requires TravelsFully(s.client.log, outputs[id].io) && OnTime(s, id, outputs[id].io) && !s.client.failed
    ensures FullAtEnd(Fire(outputs, s, order, now), id, outputs[id].io)
  {
    hide Coil, LastWrite, TimerPlan, AskedFor, Private, Drain, OnTime, TravelsFully, Enumerates;
    var s0 := Fire(outputs, s, order, now);
    TimerWritesOff(outputs, s.tasks, order, now);
    forall envs: seq<Env> | |envs| >= |s0.todo|
      ensures TravelsFully(Drain(s0, envs).client.log, outputs[id].io)
      ensures !Drain(s0, envs).client.failed ==> OnTime(Drain(s0, envs), id, outputs[id].io)
    {
      DrainWrites(s0, envs);
      DrainLater(s0, envs);
      var log := Drain(s0, envs).client.log;
      forall k | |s.client.log| <= k < |log|
        ensures AskedFor(s0.todo, log[k]) && now <= log[k].begin && !log[k].value
      {
        OffIsOff(s0.todo, log[k]);
      }
      TimerTravelsFully(outputs, s, order, now, id, log);
      if !Drain(s0, envs).client.failed {
        TimerOnTime(outputs, s, order, now, id, envs);
      }
    }
  }

  // ----- runs -----

  lemma {:induction false} BootReasons(outputs: Outputs, order: seq<Id>)
    ensures forall op :: op in BootPlan(outputs, order) && op.SetVar? ==> op.reason == Boot
  {
    if order != [] {
      BootReasons(outputs, order[1..]);
    }
  }

  lemma BootIsFull(outputs: Outputs, order: seq<Id>, now: Instant, id: Id, io: UpDown)
    ensures FullAtEnd(Initial(outputs, order, now), id, io)
  {
    hide Coil, Drain, BootPlan, FinalCoil, AskedFor, LastWrite, On;
    var s0 := Initial(outputs, order, now);
    BootPlanIsOff(outputs, order);
    BootReasons(outputs, order);
    forall envs: seq<Env> | |envs| >= |s0.todo|
      ensures TravelsFully(Drain(s0, envs).client.log, io)
      ensures !Drain(s0, envs).client.failed ==> OnTime(Drain(s0, envs), id, io)
    {
      DrainWrites(s0, envs);
      var log := Drain(s0, envs).client.log;
      forall k | 0 <= k < |log|
        ensures log[k].reason != Expired
      {
        ReasonOf(s0.todo, log[k], Boot);
      }
      if !Drain(s0, envs).client.failed {
        forall a
          ensures !On(log, a)
        {
          DrainCoil(s0, envs, a);
          OffFinal(s0.todo, a);
          NothingIsOn(a);
        }
      }
    }
  }

  lemma NothingIsOn(a: Address)
    ensures !On([], a)
  {
  }

  lemma HeadIsFull(s: State, id: Id, io: UpDown)
    requires FullAtEnd(s, id, io) && s.todo == []
    ensures TravelsFully(s.client.log, io) && (!s.client.failed ==> OnTime(s, id, io))
  {
    hide TravelsFully, OnTime;
    DrainIdle(s, []);
  }

  lemma EventIsFull(outputs: Outputs, s: State, ev: Event, id: Id)
    requires id in outputs && outputs[id].WOShutter? && Private(outputs, id) && Paced(s.client)
    requires FullAtEnd(s, id, outputs[id].io) && Enabled(s, ev)
    ensures FullAtEnd(Apply(outputs, s, ev), id, outputs[id].io)
  {
    hide Coil, Exec, TravelsFully, OnTime, Private, Paced, Enumerates;
    var io := outputs[id].io;
    match ev
    case Operate(e) =>
      forall envs: seq<Env> | |envs| >= |Step(s, e).todo|
        ensures TravelsFully(Drain(Step(s, e), envs).client.log, io)
        ensures !Drain(Step(s, e), envs).client.failed ==> OnTime(Drain(Step(s, e), envs), id, io)
      {
        var more := seq(|s.todo|, _ => e);
        var all := [e] + (envs + more);
        assert all[0] == e && all[1..] == envs + more;
        DrainStep(s, all);
        DrainIgnoresRest(Step(s, e), envs, more);
      }
    case Command(cmd) =>
      HeadIsFull(s, id, io);
      CommandIsFull(outputs, s, id, cmd);
    case Timer(order, now) =>
      HeadIsFull(s, id, io);
      TimerIsFull(outputs, s, order, now, id);
    case KeepAlive(e) =>
      HeadIsFull(s, id, io);
      var s' := Apply(outputs, s, ev);
      OnTimeKept(s, s', id, io);
      forall envs: seq<Env>
        ensures Drain(s', envs) == s'
      {
        DrainIdle(s', envs);
      }
  }

  lemma {:induction false} RunIsFull(outputs: Outputs, s0: State, events: seq<Event>, s: State, id: Id)
    requires id in outputs && outputs[id].WOShutter? && Private(outputs, id)
    requires Paced(s0.client) && FullAtEnd(s0, id, outputs[id].io) && Runs(outputs, s0, events, s)
    ensures FullAtEnd(s, id, outputs[id].io)
    decreases |events|
  {
    hide FullAtEnd, Private, Paced, Apply;
    if events != [] {
      EventKeepsPaced(outputs, s0, events[0]);
      EventIsFull(outputs, s0, events[0], id);
      RunIsFull(outputs, Apply(outputs, s0, events[0]), events[1..], s, id);
    }
  }

  lemma PrefixTravels(log: seq<Write>, log': seq<Write>, io: UpDown)
    requires TravelsFully(log', io) && log <= log'
    ensures TravelsFully(log, io)
  {
    hide Coil, LastWrite;
    forall k | 0 <= k < |log| && EndsMove(log, k, io)
      ensures LastWrite(log[..k], log[k].address).value.done + io.time <= log[k].begin
    {
      assert log'[..k] == log[..k];
      assert EndsMove(log', k, io);
    }
  }

  /** What has been written so far is full, in the middle of a turn too. */
  lemma NowFull(s: State, id: Id, io: UpDown)
    requires FullAtEnd(s, id, io)
    ensures TravelsFully(s.client.log, io)
  {
    hide TravelsFully, OnTime;
    var envs := Smoothly(|s.todo|);
    DrainExtendsLog(s, envs);
    PrefixTravels(s.client.log, Drain(s, envs).client.log, io);
  }

  lemma ShutterTravels(outputs: Outputs, order: seq<Id>, now: Instant, events: seq<Event>, s: State, id: Id)
    requires Runs(outputs, Initial(outputs, order, now), events, s) && id in outputs && outputs[id].WOShutter?
    requires outputs[id].io.time > MIN_DURATION_BETWEEN_WRITE ==> Private(outputs, id)
    ensures TravelsFully(s.client.log, outputs[id].io)
  {
    hide Runs, TravelsFully, FullAtEnd, Private, BootPlan;
    if outputs[id].io.time > MIN_DURATION_BETWEEN_WRITE {
      BootIsFull(outputs, order, now, id, outputs[id].io);
      RunIsFull(outputs, Initial(outputs, order, now), events, s, id);
      NowFull(s, id, outputs[id].io);
    } else {
      RelaysAreProtected(outputs, order, now, events, s);
      ShortTravelIsFull(s.client.log, outputs[id].io);
    }
  }

  /** With no coil of a slow shutter shared, every move that the timer ended was full, at every point of every run. */
  lemma TravelSafeSuffices(outputs: Outputs, order: seq<Id>, now: Instant, events: seq<Event>, s: State)
    requires TravelSafe(outputs) && Runs(outputs, Initial(outputs, order, now), events, s)
    ensures FullTravel(outputs, s.client.log)
  {
    hide Runs, Private, Initial, EndsMove, LastWrite;
    forall id | id in outputs && outputs[id].WOShutter?
      ensures TravelsFully(s.client.log, outputs[id].io)
    {
      ShutterTravels(outputs, order, now, events, s, id);
    }
  }

  // ----- a controller that cannot start -----

  ghost predicate NothingExpired(s: State)
  {
    && (forall k :: 0 <= k < |s.client.log| ==> s.client.log[k].reason != Expired)
    && (forall op :: op in s.todo && op.SetVar? ==> op.reason != Expired)
  }

  lemma {:induction false} DoomedNeverExpires(outputs: Outputs, s0: State, events: seq<Event>, s: State)
    requires Doomed(outputs, s0) && NothingExpired(s0) && Runs(outputs, s0, events, s)
    ensures NothingExpired(s)
    decreases |events|
  {
    hide Interlocked, Unaddressable, Step, AskedFor;
    if events != [] {
      var e := events[0].env;
      StepKeepsDoomed(outputs, s0, e);
      StepWrites(s0, e);
      StepShrinks(s0, e);
      var log := Step(s0, e).client.log;
      forall k | 0 <= k < |log|
        ensures log[k].reason != Expired
      {
        if |s0.client.log| <= k {
          assert s0.todo[0] in s0.todo;
          NotExpired(s0.todo[0], log[k]);
        } else {
          assert log[k] == s0.client.log[k];
        }
      }
      DoomedNeverExpires(outputs, Apply(outputs, s0, events[0]), events[1..], s);
    }
  }

  lemma NotExpired(op: Op, w: Write)
    requires AskedFor([op], w) && (op.SetVar? ==> op.reason != Expired)
    ensures w.reason != Expired
  {
  }

  lemma UnbootableTravels(outputs: Outputs, order: seq<Id>, now: Instant, events: seq<Event>, s: State)
    requires !Bootable(outputs) && Enumerates(order, outputs.Keys) && Runs(outputs, Initial(outputs, order, now), events, s)
    ensures FullTravel(outputs, s.client.log)
  {
    hide Runs, Doomed, Bootable, BootPlan, LastWrite;
    UnbootableIsDoomed(outputs, order, now);
    BootReasons(outputs, order);
    DoomedNeverExpires(outputs, Initial(outputs, order, now), events, s);
  }

  // ----- a shared coil cuts a travel short -----

  /** The least a write can be held back when its coil was written just now: it begins the minimum duration later, or earlier. */
  lemma SmoothPause(s: State, t: Instant)
    requires s.todo != [] && s.todo[0].SetVar? && CoilAddress(s.todo[0].pin).Some? && !s.client.failed
    requires var a := Coil(s.todo[0].pin);
             a in s.client.last && s.client.last[a] == t <= s.client.clock <= t + MIN_DURATION_BETWEEN_WRITE
    ensures var s', a := Step(s, SMOOTH), Coil(s.todo[0].pin);
            && |s'.client.log| == |s.client.log| + 1 && s'.client.log[..|s.client.log|] == s.client.log
            && s'.client.log[|s.client.log|].address == a && s'.client.log[|s.client.log|].reason == s.todo[0].reason
            && s'.client.log[|s.client.log|].begin <= t + MIN_DURATION_BETWEEN_WRITE
  {
    hide Coil;
    assert CoilAddress(s.todo[0].pin) == Some(Coil(s.todo[0].pin));
  }

  lemma SmoothFirst(s: State)
    requires s.todo != [] && s.todo[0].SetVar? && CoilAddress(s.todo[0].pin).Some? && !s.client.failed
    ensures var s', a := Step(s, SMOOTH), Coil(s.todo[0].pin);
            && !s'.client.failed && s'.todo == s.todo[1..]
            && |s'.client.log| == |s.client.log| + 1 && s'.client.log[..|s.client.log|] == s.client.log
            && s.client.clock <= s'.client.clock <= s.client.clock + MIN_DURATION_BETWEEN_WRITE
            && forall b :: b != a && b in s.client.last ==> b in s'.client.last && s'.client.last[b] == s.client.last[b]
  {
    hide Coil;
    assert CoilAddress(s.todo[0].pin) == Some(Coil(s.todo[0].pin));
  }

  /** Operating without a fault from a state in the middle of a turn. */
  lemma OneOperation(outputs: Outputs, s: State) returns (events: seq<Event>)
    requires s.todo != [] && !s.client.failed
    ensures Runs(outputs, s, events, Step(s, SMOOTH))
  {
    events := [Operate(SMOOTH)];
    assert events[1..] == [];
  }

  /** The timer ends a move of the shutter whose coil was switched on only a moment ago. */
  ghost predicate CutShort(outputs: Outputs, s: State, id: Id)
    requires id in outputs && outputs[id].WOShutter?
  {
    !TravelsFully(s.client.log, outputs[id].io)
  }

  lemma LateOffIsShort(log: seq<Write>, io: UpDown, k: nat, t: Instant)
    requires k < |log| && log[k].reason == Expired && OwnCoil(io, log[k].address) && On(log[..k], log[k].address)
    requires LastWrite(log[..k], log[k].address).value.done == t && log[k].begin < t + io.time
    ensures !TravelsFully(log, io)
  {
    hide Coil, LastWrite;
    assert EndsMove(log, k, io);
  }

  /** A timer turn that begins with shutter `id`, whose coil `c` was switched on just now. */
  lemma TimerCuts(outputs: Outputs, s: State, id: Id, c: Address) returns (events: seq<Event>, s': State)
    requires Bootable(outputs) && Waiting(outputs, s) && id in outputs && outputs[id].WOShutter?
    requires outputs[id].io.time > MIN_DURATION_BETWEEN_WRITE && OwnCoil(outputs[id].io, c)
    requires On(s.client.log, c) && JustWritten(s.client, c) && Due(s.tasks, id, s.client.clock)
    ensures Runs(outputs, s, events, s') && CutShort(outputs, s', id)
  {
    hide Coil, LastWrite, CoilAddress, Step, Bootable, TravelsFully, Reachable;
    var io, t := outputs[id].io, s.client.clock;
    var others := Enumeration(s.tasks.Keys - {id});
    var order := [id] + others;
    assert Enumerates(order, s.tasks.Keys) by { EnumeratesFirst(s.tasks.Keys, id, others); }
    ShutterStarts(outputs, id);
    var s0 := Fire(outputs, s, order, t);
    assert s0.todo[0] == SetVar(io.varDown, false, Expired) && s0.todo[1] == SetVar(io.varUp, false, Expired);
    var turn := Timer(order, t);
    var first := OneOperation(outputs, s0);
    var s1 := Step(s0, SMOOTH);
    assert ([turn] + first)[1..] == first;
    SmoothFirst(s0);
    SmoothWrite(s0);
    if c == Coil(io.varDown) {
      events, s' := [turn] + first, s1;
      SmoothPause(s0, t);
      LateOffIsShort(s1.client.log, io, |s.client.log|, t);
    } else {
      var second := OneOperation(outputs, s1);
      var s2 := Step(s1, SMOOTH);
      RunsConcat(outputs, s, [turn] + first, s1, second, s2);
      events, s' := [turn] + first + second, s2;
      SmoothPause(s1, t);
      LateOffIsShort(s2.client.log, io, |s1.client.log|, t);
    }
  }

  lemma EnumeratesFirst(keys: set<Id>, id: Id, others: seq<Id>)
    requires id in keys && Enumerates(others, keys - {id})
    ensures Enumerates([id] + others, keys)
  {
    forall k
      ensures k in keys <==> k in [id] + others
    {
      assert k in keys - {id} <==> k in others;
    }
    assert id !in others;
  }

  /** Time goes by while a keep-alive takes its time. */
  lemma Wait(outputs: Outputs, s: State, duration: nat) returns (events: seq<Event>, s': State)
    requires Waiting(outputs, s)
    ensures Runs(outputs, s, events, s') && Waiting(outputs, s')
    ensures s' == s.(client := s.client.(clock := s.client.clock + duration))
  {
    var ev := KeepAlive(SMOOTH.(latency := duration));
    s' := Apply(outputs, s, ev);
    events := [ev];
    assert events[1..] == [];
  }

  /** Another output on a coil of a slow shutter cuts its travel short: the shutter starts, the other switches the coil on again
      when the time is up, and then the timer has its turn. */
  lemma SharedCoilCuts(outputs: Outputs, id: Id, j: Id, p: Var, q: Var) returns (order: seq<Id>, events: seq<Event>, s: State)
    requires Bootable(outputs) && id in outputs && outputs[id].WOShutter? && j in outputs && j != id
    requires outputs[id].io.time > MIN_DURATION_BETWEEN_WRITE
    requires p in Pins(outputs[id]) && q in Pins(outputs[j]) && Coil(p) == Coil(q) && Reachable(Coil(p))
    ensures Enumerates(order, outputs.Keys) && Runs(outputs, Initial(outputs, order, 0), events, s)
    ensures CutShort(outputs, s, id)
  {
    hide Coil, LastWrite, Runs, Bootable, Initial, Enumerates, Waiting, CutShort, Reachable, JustWritten, On;
    var boot, move, wait, again, cut, s0, s1, s2, s3;
    order, boot, s0 := SmoothBoot(outputs);
    move, s1 := SmoothMove(outputs, s0, id, p == outputs[id].io.varUp);
    RunsConcat(outputs, Initial(outputs, order, 0), boot, s0, move, s1);
    wait, s2 := Wait(outputs, s1, outputs[id].io.time);
    RunsConcat(outputs, Initial(outputs, order, 0), boot + move, s1, wait, s2);
    again, s3 := SmoothSwitch(outputs, s2, j, q, true);
    RunsConcat(outputs, Initial(outputs, order, 0), boot + move + wait, s2, again, s3);
    assert s2.client.clock <= s3.client.clock by { RunTakesTime(outputs, s2, again, s3); }
    cut, s := TimerCuts(outputs, s3, id, Coil(p));
    RunsConcat(outputs, Initial(outputs, order, 0), boot + move + wait + again, s3, cut, s);
    events := boot + move + wait + again + cut;
  }

  lemma {:induction false} RunTakesTime(outputs: Outputs, s: State, events: seq<Event>, s': State)
    requires Runs(outputs, s, events, s')
    ensures s.client.clock <= s'.client.clock
    decreases |events|
  {
    hide Step, Enumerates, TimerPlan, CommandPlan;
    if events != [] {
      var s1 := Apply(outputs, s, events[0]);
      if events[0].Operate? {
        StepLater(s, events[0].env);
      }
      RunTakesTime(outputs, s1, events[1..], s');
    }
  }

  /** Full travel, exactly, for every configuration: it holds in every run if and only if no coil of a slow shutter is shared, or the
      loop is never reached. */
  lemma FullTravelIffTravelSafe(outputs: Outputs)
    ensures TravelSafe(outputs) || !Bootable(outputs) <==>
            forall order, now, events, s ::
              Enumerates(order, outputs.Keys) && Runs(outputs, Initial(outputs, order, now), events, s) ==>
              FullTravel(outputs, s.client.log)
  {
    hide Runs, Enumerates, Bootable, Initial, Coil, Reachable, EndsMove, LastWrite;
    if TravelSafe(outputs) || !Bootable(outputs) {
      forall order, now, events, s | Enumerates(order, outputs.Keys) && Runs(outputs, Initial(outputs, order, now), events, s)
        ensures FullTravel(outputs, s.client.log)
      {
        if TravelSafe(outputs) {
          TravelSafeSuffices(outputs, order, now, events, s);
        } else {
          UnbootableTravels(outputs, order, now, events, s);
        }
      }
    } else {
      var id :| id in outputs && outputs[id].WOShutter? && outputs[id].io.time > MIN_DURATION_BETWEEN_WRITE && !Private(outputs, id);
      var j, p, q :| j in outputs && j != id && p in Pins(outputs[id]) && q in Pins(outputs[j]) && Reachable(Coil(p))
                     && Coil(p) == Coil(q);
      var order, events, s := SharedCoilCuts(outputs, id, j, p, q);
      assert Runs(outputs, Initial(outputs, order, 0), events, s) && !FullTravel(outputs, s.client.log);
    }
  }
}
