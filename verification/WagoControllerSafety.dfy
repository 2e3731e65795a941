/** What every run of the output controller keeps: motor interlock, relay spacing, full travel, and the agreement of local
    values, pending tasks and coils. */
module WagoControllerSafety {
  import opened Basics
  import opened Coils
  import opened IoValues
  import opened Modbus
  import opened WagoController
  import Relays = WagoControllerRelays

  // ----- wiring -----

  function Pins(kind: OutputKind): seq<Var>
  {
    match kind
    case WODigital(pin) => [pin]
    case WOShutter(io) => [io.varUp, io.varDown]
    case OtherKind => []
  }

  /** Writes can get through to all pins of the output. */
  predicate PinsReachable(kind: OutputKind)
  {
    forall p :: p in Pins(kind) ==> Reachable(Coil(p))
  }

  /** No two pins of the configuration name one coil, except where no write can get through. */
  ghost predicate Disjoint(outputs: Outputs)
  {
    && (forall i, j, p, q :: i in outputs && j in outputs && i != j && p in Pins(outputs[i]) && q in Pins(outputs[j]) ==>
        Reachable(Coil(p)) ==> Coil(p) != Coil(q))
    && (forall i :: i in outputs && outputs[i].WOShutter? ==>
        Reachable(Coil(outputs[i].io.varUp)) ==> Coil(outputs[i].io.varUp) != Coil(outputs[i].io.varDown))
  }

  // ----- the log -----

  /** The last writes leave both coils of the shutter on. */
  predicate BothOn(log: seq<Write>, io: UpDown)
  {
    On(log, Coil(io.varUp)) && On(log, Coil(io.varDown))
  }

  /** At no prefix of the log are both coils of a shutter on. */
  ghost predicate Interlocked(outputs: Outputs, log: seq<Write>)
  {
    forall id, n :: id in outputs && outputs[id].WOShutter? && 0 <= n <= |log| ==> !BothOn(log[..n], outputs[id].io)
  }

  /** Write `k` is the timer's, and it switches off a coil of the shutter that was on. */
  predicate EndsMove(log: seq<Write>, k: int, io: UpDown)
    requires 0 <= k < |log|
  {
    log[k].reason.Expired? && log[k].address in {Coil(io.varUp), Coil(io.varDown)} && On(log[..k], log[k].address)
  }

  /** Whenever the timer ends a move, the motor has been on for the configured time. */
  ghost predicate FullTravel(outputs: Outputs, log: seq<Write>)
  {
    forall id, k :: id in outputs && outputs[id].WOShutter? && 0 <= k < |log| && EndsMove(log, k, outputs[id].io) ==>
      LastWrite(log[..k], log[k].address).value.done + outputs[id].io.time <= log[k].begin
  }

  ghost predicate LogFine(outputs: Outputs, c: Client)
  {
    Tracks(c) && Spaced(c.log) && Interlocked(outputs, c.log) && FullTravel(outputs, c.log)
  }

  // ----- one output -----

  ghost predicate Moves(log: seq<Write>, on: Address, off: Address)
  {
    On(log, on) && Off(log, off)
  }

  ghost predicate Rests(log: seq<Write>, io: UpDown)
  {
    Off(log, Coil(io.varUp)) && Off(log, Coil(io.varDown))
  }

  /** The pending deadline of a shutter ends the move whose coil is `on`, and not before the full travel. */
  ghost predicate TaskFits(s: State, id: Id, io: UpDown, on: Address, target: ShutterState)
    requires On(s.client.log, on)
  {
    && id in s.tasks
    && s.tasks[id].target == Shutter(target)
    && LastWrite(s.client.log, on).value.done + io.time <= s.tasks[id].deadline
  }

  /** Local value, coils and pending task of one shutter agree. */
  ghost predicate ShutterAgrees(s: State, id: Id, io: UpDown)
  {
    var up, down := Coil(io.varUp), Coil(io.varDown);
    && id in s.values
    && (s.values[id].None? || s.values[id].value.Shutter?)
    && if s.values[id] == Some(Shutter(MovingUp)) then
         Moves(s.client.log, up, down) && TaskFits(s, id, io, up, Up)
       else if s.values[id] == Some(Shutter(MovingDown)) then
         Moves(s.client.log, down, up) && TaskFits(s, id, io, down, Down)
       else
         Rests(s.client.log, io) && id !in s.tasks
  }

  /** A digital output has a boolean value, and its coil is never left at the other one. */
  ghost predicate DigitalAgrees(s: State, id: Id, pin: Var)
  {
    && id in s.values && s.values[id].Some? && s.values[id].value.Bool?
    && id !in s.tasks
    && (LastWrite(s.client.log, Coil(pin)).Some? ==> LastWrite(s.client.log, Coil(pin)).value.value == s.values[id].value.b)
  }

  ghost predicate Agrees(s: State, id: Id, kind: OutputKind)
  {
    match kind
    case WODigital(pin) => DigitalAgrees(s, id, pin)
    case WOShutter(io) => ShutterAgrees(s, id, io)
    case OtherKind => id in s.values && s.values[id].None? && id !in s.tasks
  }

  /** The state at a loop head: every output agrees, and timer turns are paid for by moves started. */
  ghost predicate AtHead(outputs: Outputs, s: State)
  {
    && s.values.Keys == outputs.Keys
    && s.tasks.Keys <= outputs.Keys
    && (forall id :: id in outputs ==> Agrees(s, id, outputs[id]))
    && s.fires + |s.tasks| <= s.starts
  }

  ghost predicate Fine(outputs: Outputs, s: State)
  {
    LogFine(outputs, s.client) && (!s.client.failed ==> AtHead(outputs, s))
  }

  /** Whatever the surroundings do, the turn in progress ends in a fine state. */
  ghost predicate Sound(outputs: Outputs, s: State)
  {
    forall envs: seq<Env> :: |envs| >= |s.todo| ==> Fine(outputs, Drain(s, envs))
  }

  // ----- single writes -----

  /** Switching on the coil `a` of the shutter leaves the other coil off. */
  predicate OtherOff(log: seq<Write>, io: UpDown, a: Address)
  {
    && Coil(io.varUp) != Coil(io.varDown)
    && !On(log, if a == Coil(io.varUp) then Coil(io.varDown) else Coil(io.varUp))
  }

  /** If `a` is on, the travel time has elapsed. */
  predicate Travelled(c: Client, io: UpDown, a: Address)
  {
    On(c.log, a) ==> LastWrite(c.log, a).value.done + io.time <= c.clock
  }

  /** The write `value` to `a` respects the interlock of every shutter it concerns. */
  ghost predicate NoClash(outputs: Outputs, log: seq<Write>, a: Address, value: bool)
  {
    value ==>
      forall id :: id in outputs && outputs[id].WOShutter? && a in {Coil(outputs[id].io.varUp), Coil(outputs[id].io.varDown)} ==>
        OtherOff(log, outputs[id].io, a)
  }

  /** It respects the travel of every shutter it concerns as well. */
  ghost predicate Respectful(outputs: Outputs, c: Client, a: Address, value: bool, reason: Reason)
  {
    && NoClash(outputs, c.log, a, value)
    && (reason.Expired? ==>
        forall id :: id in outputs && outputs[id].WOShutter? && a in {Coil(outputs[id].io.varUp), Coil(outputs[id].io.varDown)} ==>
          Travelled(c, outputs[id].io, a))
  }

  lemma WriteKeepsInterlock(outputs: Outputs, log: seq<Write>, w: Write)
    requires Interlocked(outputs, log) && NoClash(outputs, log, w.address, w.value)
    ensures Interlocked(outputs, log + [w])
  {
    LastWriteAppend(log, w);
    forall id, n | id in outputs && outputs[id].WOShutter? && 0 <= n <= |log + [w]|
      ensures !BothOn((log + [w])[..n], outputs[id].io)
    {
      if n <= |log| {
        assert (log + [w])[..n] == log[..n];
      } else {
        assert (log + [w])[..n] == log + [w];
        assert log[..|log|] == log;
        assert !BothOn(log[..|log|], outputs[id].io);
      }
    }
  }

  lemma WriteKeepsTravel(outputs: Outputs, log: seq<Write>, w: Write, c: Client)
    requires FullTravel(outputs, log) && c.log == log && Respectful(outputs, c, w.address, w.value, w.reason)
    requires c.clock <= w.begin
    ensures FullTravel(outputs, log + [w])
  {
    var log' := log + [w];
    forall id, k | id in outputs && outputs[id].WOShutter? && 0 <= k < |log'| && EndsMove(log', k, outputs[id].io)
      ensures LastWrite(log'[..k], log'[k].address).value.done + outputs[id].io.time <= log'[k].begin
    {
      if k < |log| {
        assert log'[..k] == log[..k];
        assert EndsMove(log, k, outputs[id].io);
      } else {
        assert log'[..k] == log;
      }
    }
  }

  lemma WriteKeepsLogFine(outputs: Outputs, c: Client, a: Address, value: bool, reason: Reason, e: Env)
    requires LogFine(outputs, c) && !c.failed && Respectful(outputs, c, a, value, reason)
    ensures LogFine(outputs, WriteSingleCoil(c, a, value, reason, e))
  {
    WriteKeepsSpacing(c, a, value, reason, e);
    if e.ok || e.effective {
      var w := WriteSingleCoil(c, a, value, reason, e).log[|c.log|];
      WriteKeepsInterlock(outputs, c.log, w);
      WriteKeepsTravel(outputs, c.log, w, c);
    }
  }

  /** Nothing but the given addresses was written on the way from `c` to `c'`. */
  ghost predicate Untouched(c: Client, c': Client, touched: set<Address>)
  {
    && c.clock <= c'.clock
    && forall a :: a !in touched ==> LastWrite(c'.log, a) == LastWrite(c.log, a)
  }

  /** The step of a write operation: the log stays fine, and a success is the last write to its coil. */
  lemma SetVarStep(outputs: Outputs, s: State, e: Env)
    requires s.todo != [] && s.todo[0].SetVar? && LogFine(outputs, s.client) && !s.client.failed
    requires Reachable(Coil(s.todo[0].pin)) ==>
               Respectful(outputs, s.client, Coil(s.todo[0].pin), s.todo[0].value, s.todo[0].reason)
    ensures var s' := Step(s, e);
            var a := Coil(s.todo[0].pin);
            && LogFine(outputs, s'.client)
            && (s'.client.failed ==> s'.todo == [])
            && (!s'.client.failed ==>
                && Reachable(a)
                && s' == s.(todo := s.todo[1..], client := s'.client)
                && Untouched(s.client, s'.client, {a})
                && LastWrite(s'.client.log, a).Some?
                && LastWrite(s'.client.log, a).value.value == s.todo[0].value
                && LastWrite(s'.client.log, a).value.done <= s'.client.clock)
  {
    var op := s.todo[0];
    if CoilAddress(op.pin).Some? {
      var c, c' := s.client, WriteSingleCoil(s.client, Coil(op.pin), op.value, op.reason, e);
      WriteKeepsLogFine(outputs, c, Coil(op.pin), op.value, op.reason, e);
      if e.ok {
        LastWriteAppend(c.log, c'.log[|c.log|]);
        assert c'.log == c.log + [c'.log[|c.log|]];
      }
    }
  }

  // ----- turns -----

  /** One operation of the turn in progress. */
  lemma DrainStep(s: State, envs: seq<Env>)
    requires s.todo != [] && |envs| >= |s.todo|
    ensures Drain(s, envs) == Drain(Step(s, envs[0]), envs[1..])
    ensures Step(s, envs[0]).client.failed ==> Drain(s, envs) == Step(s, envs[0])
  {
  }

  lemma PinsOfShutter(outputs: Outputs, id: Id, j: Id, a: Address)
    requires Disjoint(outputs) && id in outputs && j in outputs && id != j && outputs[id].WOShutter?
    requires a in {Coil(outputs[id].io.varUp), Coil(outputs[id].io.varDown)} && Reachable(a)
    ensures outputs[j].WODigital? ==> a != Coil(outputs[j].pin)
    ensures outputs[j].WOShutter? ==> a != Coil(outputs[j].io.varUp) && a != Coil(outputs[j].io.varDown)
  {
    var p := if a == Coil(outputs[id].io.varUp) then outputs[id].io.varUp else outputs[id].io.varDown;
    assert p in Pins(outputs[id]);
    if outputs[j].WODigital? {
      assert outputs[j].pin in Pins(outputs[j]);
    } else if outputs[j].WOShutter? {
      assert outputs[j].io.varUp in Pins(outputs[j]) && outputs[j].io.varDown in Pins(outputs[j]);
    }
  }

  lemma ShutterWriteIsRespectful(outputs: Outputs, c: Client, id: Id, a: Address, value: bool, reason: Reason)
    requires Disjoint(outputs) && id in outputs && outputs[id].WOShutter?
    requires a in {Coil(outputs[id].io.varUp), Coil(outputs[id].io.varDown)} && Reachable(a)
    requires value ==> OtherOff(c.log, outputs[id].io, a)
    requires reason.Expired? ==> Travelled(c, outputs[id].io, a)
    ensures Respectful(outputs, c, a, value, reason)
  {
    forall j | j in outputs && outputs[j].WOShutter? && j != id
      ensures a !in {Coil(outputs[j].io.varUp), Coil(outputs[j].io.varDown)}
    {
      PinsOfShutter(outputs, id, j, a);
    }
  }

  lemma DigitalWriteIsRespectful(outputs: Outputs, c: Client, id: Id, value: bool, reason: Reason)
    requires Disjoint(outputs) && id in outputs && outputs[id].WODigital? && Reachable(Coil(outputs[id].pin))
    ensures Respectful(outputs, c, Coil(outputs[id].pin), value, reason)
  {
    forall j | j in outputs && outputs[j].WOShutter?
      ensures Coil(outputs[id].pin) !in {Coil(outputs[j].io.varUp), Coil(outputs[j].io.varDown)}
    {
      if Coil(outputs[id].pin) in {Coil(outputs[j].io.varUp), Coil(outputs[j].io.varDown)} {
        PinsOfShutter(outputs, j, id, Coil(outputs[id].pin));
      }
    }
  }

  /** What a turn that goes on has done to the client. */
  ghost predicate Continues(outputs: Outputs, s: State, s': State, n: nat, touched: set<Address>)
    requires n <= |s.todo|
  {
    && !s'.client.failed
    && LogFine(outputs, s'.client)
    && s' == s.(todo := s.todo[n..], client := s'.client)
    && Untouched(s.client, s'.client, touched)
  }

  /** A turn that was cut short: the run has ended with a fine log. */
  ghost predicate Ended(outputs: Outputs, s: State)
  {
    s.client.failed && LogFine(outputs, s.client)
  }

  /** Stopping a shutter: either the run ends on the way, or both coils rest. */
  lemma StopSteps(outputs: Outputs, s: State, id: Id, reason: Reason, envs: seq<Env>) returns (s': State)
    requires Disjoint(outputs) && id in outputs && outputs[id].WOShutter?
    requires |envs| >= |s.todo| >= 2 && s.todo[..2] == StopShutter(outputs[id].io, reason)
    requires LogFine(outputs, s.client) && !s.client.failed
    requires reason.Expired? ==>
               Travelled(s.client, outputs[id].io, Coil(outputs[id].io.varUp))
               && Travelled(s.client, outputs[id].io, Coil(outputs[id].io.varDown))
    ensures Ended(outputs, Drain(s, envs))
            || (Continues(outputs, s, s', 2, {Coil(outputs[id].io.varUp), Coil(outputs[id].io.varDown)})
                && Rests(s'.client.log, outputs[id].io) && PinsReachable(outputs[id])
                && Drain(s, envs) == Drain(s', envs[2..]))
  {
    hide Coil, Reachable, Interlocked, FullTravel, Spaced, Tracks, LastWrite, Disjoint;
    var io := outputs[id].io;
    assert s.todo[0] == s.todo[..2][0] && s.todo[1] == s.todo[..2][1];
    DrainStep(s, envs);
    if Reachable(Coil(io.varDown)) {
      ShutterWriteIsRespectful(outputs, s.client, id, Coil(io.varDown), false, reason);
    }
    SetVarStep(outputs, s, envs[0]);
    var s1 := Step(s, envs[0]);
    s' := s1;
    if !s1.client.failed {
      DrainStep(s1, envs[1..]);
      if Reachable(Coil(io.varUp)) {
        ShutterWriteIsRespectful(outputs, s1.client, id, Coil(io.varUp), false, reason);
      }
      SetVarStep(outputs, s1, envs[1]);
      s' := Step(s1, envs[1]);
      assert envs[1..][1..] == envs[2..];
    }
  }

  /** An output is not affected by what happens to other outputs. */
  lemma AgreesFrame(s: State, s': State, id: Id, kind: OutputKind)
    requires Agrees(s, id, kind)
    requires id in s'.values && s'.values[id] == s.values[id]
    requires id in s.tasks <==> id in s'.tasks
    requires id in s.tasks ==> s'.tasks[id] == s.tasks[id]
    requires forall p :: p in Pins(kind) ==> LastWrite(s'.client.log, Coil(p)) == LastWrite(s.client.log, Coil(p))
    ensures Agrees(s', id, kind)
  {
    if kind.WODigital? {
      assert kind.pin in Pins(kind);
    } else if kind.WOShutter? {
      assert kind.io.varUp in Pins(kind) && kind.io.varDown in Pins(kind);
    }
  }

  /** Between `s` and `s'` nothing but output `id` was concerned. */
  ghost predicate OnlyConcerns(s: State, s': State, id: Id)
  {
    && s'.values.Keys == s.values.Keys
    && (forall j :: j != id && j in s.values && j in s'.values ==> s'.values[j] == s.values[j])
    && (forall j :: j != id ==> (j in s.tasks <==> j in s'.tasks))
    && (forall j :: j != id && j in s.tasks && j in s'.tasks ==> s'.tasks[j] == s.tasks[j])
  }

  lemma PinsDiffer(outputs: Outputs, i: Id, j: Id, p: Var, q: Var)
    requires Disjoint(outputs) && i in outputs && j in outputs && i != j && p in Pins(outputs[i]) && q in Pins(outputs[j])
    requires Reachable(Coil(p))
    ensures Coil(p) != Coil(q)
  {
  }

  /** A turn about output `id` alone leaves the others in agreement. */
  lemma OthersAgree(outputs: Outputs, s: State, s': State, id: Id, j: Id)
    requires Disjoint(outputs) && id in outputs && j in outputs && j != id
    requires j in s.values && Agrees(s, j, outputs[j]) && OnlyConcerns(s, s', id) && PinsReachable(outputs[id])
    requires Untouched(s.client, s'.client, set p | p in Pins(outputs[id]) :: Coil(p))
    ensures Agrees(s', j, outputs[j])
  {
    hide Coil, LastWrite, Disjoint;
    forall q | q in Pins(outputs[j])
      ensures LastWrite(s'.client.log, Coil(q)) == LastWrite(s.client.log, Coil(q))
    {
      forall p | p in Pins(outputs[id])
        ensures Coil(p) != Coil(q)
      {
        PinsDiffer(outputs, id, j, p, q);
      }
    }
    AgreesFrame(s, s', j, outputs[j]);
  }

  /** A turn that settles the output it concerns leaves the controller as a loop head should be. */
  lemma SettledAtHead(outputs: Outputs, s: State, s': State, id: Id)
    requires Disjoint(outputs) && id in outputs && AtHead(outputs, s) && OnlyConcerns(s, s', id) && PinsReachable(outputs[id])
    requires Untouched(s.client, s'.client, set p | p in Pins(outputs[id]) :: Coil(p))
    requires Agrees(s', id, outputs[id])
    requires s'.fires + |s'.tasks| <= s'.starts
    ensures AtHead(outputs, s')
  {
    forall j | j in outputs
      ensures Agrees(s', j, outputs[j])
    {
      if j != id {
        OthersAgree(outputs, s, s', id, j);
      }
    }
    assert s'.tasks.Keys <= s.tasks.Keys + {id};
  }

  ghost predicate Settled(outputs: Outputs, s: State)
  {
    !s.client.failed && LogFine(outputs, s.client) && AtHead(outputs, s)
  }

  lemma DigitalCommand(outputs: Outputs, s: State, id: Id, b: bool, envs: seq<Env>)
    requires Disjoint(outputs) && Settled(outputs, s) && id in outputs && outputs[id].WODigital?
    requires |envs| >= 2
    ensures Fine(outputs, Drain(s.(todo := [SetVar(outputs[id].pin, b, Commanded), UpdateState(id, Bool(b))]), envs))
  {
    hide Coil, LogFine, LastWrite, Disjoint, AtHead, Drain;
    var s0 := s.(todo := [SetVar(outputs[id].pin, b, Commanded), UpdateState(id, Bool(b))]);
    if Reachable(Coil(outputs[id].pin)) {
      DigitalWriteIsRespectful(outputs, s.client, id, b, Commanded);
    }
    SetVarStep(outputs, s0, envs[0]);
    DrainStep(s0, envs);
    var s1 := Step(s0, envs[0]);
    if !s1.client.failed {
      DigitalWritten(outputs, s, s1, id, b, envs[1..]);
    }
  }

  /** The end of a digital command, once the coil is set. */
  lemma DigitalWritten(outputs: Outputs, s: State, s1: State, id: Id, b: bool, envs: seq<Env>)
    requires Disjoint(outputs) && Settled(outputs, s) && id in outputs && outputs[id].WODigital?
    requires !s1.client.failed && LogFine(outputs, s1.client)
    requires s1 == s.(client := s1.client, todo := [UpdateState(id, Bool(b))])
    requires Untouched(s.client, s1.client, {Coil(outputs[id].pin)}) && Reachable(Coil(outputs[id].pin))
    requires LastWrite(s1.client.log, Coil(outputs[id].pin)).Some?
             && LastWrite(s1.client.log, Coil(outputs[id].pin)).value.value == b
    requires |envs| >= 1
    ensures Fine(outputs, Drain(s1, envs))
  {
    hide Coil, LogFine, LastWrite, Disjoint, Drain;
    DrainStep(s1, envs);
    var s2 := Step(s1, envs[0]);
    assert s2 == Update(s.(todo := [], client := s1.client), id, Bool(b));
    DrainIdle(s2, envs[1..]);
    assert Agrees(s, id, outputs[id]);
    assert (set p | p in Pins(outputs[id]) :: Coil(p)) == {Coil(outputs[id].pin)};
    SettledAtHead(outputs, s, s2, id);
  }

  lemma ShutterCoils(io: UpDown)
    ensures (set p | p in Pins(WOShutter(io)) :: Coil(p)) == {Coil(io.varUp), Coil(io.varDown)}
  {
    hide Coil;
    assert forall p :: p in Pins(WOShutter(io)) <==> p == io.varUp || p == io.varDown;
  }

  /** The last two operations of a command, once the coils are set: one on the tasks, one on the value. */
  lemma LastTwoSteps(s: State, taskOp: Op, id: Id, value: IOValue, envs: seq<Env>)
    requires s.todo == [taskOp, UpdateState(id, value)] && (taskOp.RemoveTask? || taskOp.StartTask?) && !s.client.failed
    requires |envs| >= 2
    ensures Drain(s, envs) == Update(Exec(s.(todo := []), taskOp, envs[0]), id, value)
  {
    DrainStep(s, envs);
    var s1 := Step(s, envs[0]);
    assert s1 == Exec(s.(todo := [UpdateState(id, value)]), taskOp, envs[0]);
    DrainStep(s1, envs[1..]);
    assert Step(s1, envs[1]).todo == [];
  }

  lemma CoilsDiffer(outputs: Outputs, id: Id)
    requires Disjoint(outputs) && id in outputs && outputs[id].WOShutter? && PinsReachable(outputs[id])
    ensures Coil(outputs[id].io.varUp) != Coil(outputs[id].io.varDown)
  {
  }

  lemma StopCommand(outputs: Outputs, s: State, id: Id, envs: seq<Env>)
    requires Disjoint(outputs) && Settled(outputs, s) && id in outputs && outputs[id].WOShutter?
    requires |envs| >= 4
    ensures Fine(outputs, Drain(s.(todo := StopPlan(id, outputs[id].io)), envs))
  {
    hide Coil, Interlocked, FullTravel, Spaced, Tracks, LastWrite, Disjoint, AtHead, Drain;
    var io := outputs[id].io;
    var s0 := s.(todo := StopPlan(id, io));
    var s2 := StopSteps(outputs, s0, id, Commanded, envs);
    if !Ended(outputs, Drain(s0, envs)) {
      MoveStopped(outputs, s, s2, id, envs[2..]);
    }
  }

  /** The end of a stop command, once the motor is off. */
  lemma MoveStopped(outputs: Outputs, s: State, s2: State, id: Id, envs: seq<Env>)
    requires Disjoint(outputs) && Settled(outputs, s) && id in outputs && outputs[id].WOShutter?
    requires !s2.client.failed && LogFine(outputs, s2.client)
    requires s2 == s.(client := s2.client, todo := [RemoveTask(id), UpdateState(id, Shutter(Up))])
    requires Untouched(s.client, s2.client, {Coil(outputs[id].io.varUp), Coil(outputs[id].io.varDown)}) && PinsReachable(outputs[id])
    requires Rests(s2.client.log, outputs[id].io)
    requires |envs| >= 2
    ensures Fine(outputs, Drain(s2, envs))
  {
    hide Coil, LogFine, LastWrite, Disjoint, Drain, Untouched, Rests, Moves, Pins, PinsReachable;
    LastTwoSteps(s2, RemoveTask(id), id, Shutter(Up), envs);
    var s4 := Drain(s2, envs);
    assert s4.client == s2.client;
    ShutterCoils(outputs[id].io);
    SubsetSize(s4.tasks.Keys, s.tasks.Keys);
    assert ShutterAgrees(s4, id, outputs[id].io);
    SettledAtHead(outputs, s, s4, id);
  }

  lemma SubsetSize<T>(a: set<T>, b: set<T>)
    requires a <= b
    ensures |a| <= |b|
  {
    assert b == a + (b - a);
  }

  lemma MoveCommand(outputs: Outputs, s: State, id: Id, command: ShutterState, envs: seq<Env>)
    requires Disjoint(outputs) && Settled(outputs, s) && id in outputs && outputs[id].WOShutter?
    requires |envs| >= 5
    ensures Fine(outputs, Drain(s.(todo := MovePlan(id, outputs[id].io, command)), envs))
  {
    hide Coil, LogFine, LastWrite, Disjoint, AtHead, Drain;
    var io := outputs[id].io;
    var s0 := s.(todo := MovePlan(id, io, command));
    var s2 := StopSteps(outputs, s0, id, Commanded, envs);
    if !Ended(outputs, Drain(s0, envs)) {
      var up := command in {Up, MovingUp};
      EnergiseMotor(outputs, s, s2, id, up, envs[2..]);
    }
  }

  /** The motor is switched on after a stop. */
  lemma EnergiseMotor(outputs: Outputs, s: State, s2: State, id: Id, up: bool, envs: seq<Env>)
    requires Disjoint(outputs) && Settled(outputs, s) && id in outputs && outputs[id].WOShutter?
    requires !s2.client.failed && LogFine(outputs, s2.client)
    requires s2 == s.(client := s2.client,
                      todo := [SetVar(Motor(outputs[id].io, up), true, Commanded)] + StartOps(id, outputs[id].io, up))
    requires Untouched(s.client, s2.client, {Coil(outputs[id].io.varUp), Coil(outputs[id].io.varDown)}) && PinsReachable(outputs[id])
    requires Rests(s2.client.log, outputs[id].io)
    requires |envs| >= 3
    ensures Fine(outputs, Drain(s2, envs))
  {
    hide Coil, LogFine, LastWrite, Disjoint, AtHead, Drain;
    var io := outputs[id].io;
    CoilsDiffer(outputs, id);
    assert Motor(io, up) in Pins(outputs[id]);
    ShutterWriteIsRespectful(outputs, s2.client, id, Coil(Motor(io, up)), true, Commanded);
    SetVarStep(outputs, s2, envs[0]);
    DrainStep(s2, envs);
    var s3 := Step(s2, envs[0]);
    if !s3.client.failed {
      MoveStarted(outputs, s, s3, id, up, envs[1..]);
    }
  }

  function Motor(io: UpDown, up: bool): Var
  {
    if up then io.varUp else io.varDown
  }

  function StartOps(id: Id, io: UpDown, up: bool): seq<Op>
  {
    [StartTask(id, io.time, Shutter(if up then Up else Down)), UpdateState(id, Shutter(if up then MovingUp else MovingDown))]
  }

  /** The end of a move command, once the motor is on. */
  lemma MoveStarted(outputs: Outputs, s: State, s3: State, id: Id, up: bool, envs: seq<Env>)
    requires Disjoint(outputs) && Settled(outputs, s) && id in outputs && outputs[id].WOShutter?
    requires !s3.client.failed && LogFine(outputs, s3.client)
    requires s3 == s.(client := s3.client, todo := StartOps(id, outputs[id].io, up))
    requires Untouched(s.client, s3.client, {Coil(outputs[id].io.varUp), Coil(outputs[id].io.varDown)}) && PinsReachable(outputs[id])
    requires Moves(s3.client.log, Coil(Motor(outputs[id].io, up)), Coil(Motor(outputs[id].io, !up)))
    requires LastWrite(s3.client.log, Coil(Motor(outputs[id].io, up))).value.done <= s3.client.clock
    requires |envs| >= 2
    ensures Fine(outputs, Drain(s3, envs))
  {
    hide Coil, LogFine, LastWrite, Disjoint, Drain, Agrees;
    var io := outputs[id].io;
    LastTwoSteps(s3, s3.todo[0], id, s3.todo[1].state, envs);
    var s5 := Drain(s3, envs);
    TimePasses(outputs, s3.client, s5.client.clock);
    ShutterCoils(io);
    MovingAgrees(s5, id, io, up);
    assert s5.tasks.Keys == s.tasks.Keys + {id};
    SettledAtHead(outputs, s, s5, id);
  }

  /** A shutter whose motor, value and pending deadline say the same. */
  lemma MovingAgrees(s: State, id: Id, io: UpDown, up: bool)
    requires Moves(s.client.log, Coil(Motor(io, up)), Coil(Motor(io, !up)))
    requires id in s.values && s.values[id] == Some(Shutter(if up then MovingUp else MovingDown))
    requires id in s.tasks && s.tasks[id].target == Shutter(if up then Up else Down)
    requires LastWrite(s.client.log, Coil(Motor(io, up))).value.done + io.time <= s.tasks[id].deadline
    ensures Agrees(s, id, WOShutter(io))
  {
    hide Coil, LastWrite;
  }

  lemma TimePasses(outputs: Outputs, c: Client, now: Instant)
    requires LogFine(outputs, c) && c.clock <= now
    ensures LogFine(outputs, c.(clock := now))
  {
  }

  /** Whatever command is received at a loop head, the turn it begins is sound. */
  lemma CommandIsSound(outputs: Outputs, s: State, cmd: IODataAction)
    requires Disjoint(outputs) && Settled(outputs, s) && s.todo == []
    ensures Sound(outputs, Receive(outputs, s, cmd))
  {
    hide Coil, Interlocked, FullTravel, Spaced, Tracks, LastWrite, Disjoint;
    var s0 := Receive(outputs, s, cmd);
    forall envs: seq<Env> | |envs| >= |s0.todo|
      ensures Fine(outputs, Drain(s0, envs))
    {
      if s0.todo == [] {
        assert s0 == s;
      } else {
        var id := cmd.id;
        var newValue := NewValue(s.values[id], cmd.action).value;
        match outputs[id] {
          case WODigital(pin) =>
            DigitalCommand(outputs, s, id, newValue.value.b, envs);
          case WOShutter(io) =>
            match ShutterCommand(s.values[id], newValue) {
              case Some(command) => MoveCommand(outputs, s, id, command, envs);
              case None => StopCommand(outputs, s, id, envs);
            }
        }
      }
    }
  }

  // ----- timer turns -----

  predicate Due(tasks: map<Id, Task>, id: Id, now: Instant)
  {
    id in tasks && tasks[id].deadline <= now
  }

  /** Between `h` and `s` output `id` kept its value, and its coils were not written. */
  ghost predicate Unmoved(h: State, s: State, id: Id, kind: OutputKind)
  {
    && id in h.values && id in s.values && s.values[id] == h.values[id]
    && forall p :: p in Pins(kind) ==> LastWrite(s.client.log, Coil(p)) == LastWrite(h.client.log, Coil(p))
  }

  /** The timer has stopped shutter `id` and given it the value its task asked for. */
  ghost predicate Arrived(h: State, s: State, id: Id, kind: OutputKind)
  {
    && id in h.tasks && id in s.values && kind.WOShutter?
    && s.values[id] == Some(h.tasks[id].target)
    && h.tasks[id].target in {Shutter(Up), Shutter(Down)}
    && Rests(s.client.log, kind.io)
  }

  /** What a timer turn at `now`, begun in `h`, has done to the outputs that are no longer in `rest`. */
  ghost predicate Expiring(outputs: Outputs, h: State, s: State, now: Instant, rest: seq<Id>)
  {
    forall id :: id in outputs ==>
      if Due(h.tasks, id, now) && id !in rest then Arrived(h, s, id, outputs[id]) else Unmoved(h, s, id, outputs[id])
  }

  ghost predicate TimerTurn(outputs: Outputs, h: State, s: State, now: Instant, rest: seq<Id>)
  {
    && !s.client.failed && LogFine(outputs, s.client) && now <= s.client.clock
    && s.tasks == h.tasks && s.values.Keys == h.values.Keys && s.fires == h.fires + 1 && s.starts == h.starts
    && Expiring(outputs, h, s, now, rest)
  }

  /** A shutter with a due task is moving, and has travelled in full. */
  lemma DueHasTravelled(outputs: Outputs, h: State, s: State, id: Id, now: Instant)
    requires AtHead(outputs, h) && Due(h.tasks, id, now) && now <= s.client.clock && id in outputs
    requires Unmoved(h, s, id, outputs[id])
    ensures outputs[id].WOShutter? && h.tasks[id].target in {Shutter(Up), Shutter(Down)}
    ensures Travelled(s.client, outputs[id].io, Coil(outputs[id].io.varUp))
    ensures Travelled(s.client, outputs[id].io, Coil(outputs[id].io.varDown))
  {
    hide Coil, LastWrite;
    assert Agrees(h, id, outputs[id]);
    var io := outputs[id].io;
    assert io.varUp in Pins(outputs[id]) && io.varDown in Pins(outputs[id]);
  }

  /** One due shutter of a timer turn. */
  lemma ExpireOne(outputs: Outputs, h: State, s: State, now: Instant, rest: seq<Id>, envs: seq<Env>) returns (s': State)
    requires Disjoint(outputs) && AtHead(outputs, h) && rest != [] && rest[0] !in rest[1..] && rest[0] in outputs
    requires TimerTurn(outputs, h, s, now, rest) && Due(h.tasks, rest[0], now)
    requires s.todo == TimerPlan(outputs, h.tasks, rest, now) && |envs| >= |s.todo|
    ensures Ended(outputs, Drain(s, envs))
            || (TimerTurn(outputs, h, s', now, rest[1..])
                && s'.todo == TimerPlan(outputs, h.tasks, rest[1..], now)
                && |s.todo| == 3 + |s'.todo|
                && Drain(s, envs) == Drain(s', envs[3..]))
  {
    hide Coil, LogFine, LastWrite, Disjoint, Drain, AtHead, Expiring;
    var id := rest[0];
    assert Unmoved(h, s, id, outputs[id]) by { Unfold(outputs, h, s, now, rest, id); }
    DueHasTravelled(outputs, h, s, id, now);
    var io := outputs[id].io;
    assert s.todo[..2] == StopShutter(io, Expired);
    var s2 := StopSteps(outputs, s, id, Expired, envs);
    s' := s2;
    if !Ended(outputs, Drain(s, envs)) {
      DrainStep(s2, envs[2..]);
      s' := Step(s2, envs[2]);
      assert s2.todo == [UpdateState(id, h.tasks[id].target)] + TimerPlan(outputs, h.tasks, rest[1..], now);
      assert envs[2..][1..] == envs[3..];
      ArrivalKept(outputs, h, s, s', now, rest);
    }
  }

  lemma Unfold(outputs: Outputs, h: State, s: State, now: Instant, rest: seq<Id>, id: Id)
    requires Expiring(outputs, h, s, now, rest) && id in outputs
    ensures if Due(h.tasks, id, now) && id !in rest then Arrived(h, s, id, outputs[id]) else Unmoved(h, s, id, outputs[id])
  {
  }

  lemma ArrivalKept(outputs: Outputs, h: State, s: State, s': State, now: Instant, rest: seq<Id>)
    requires Disjoint(outputs) && rest != [] && rest[0] !in rest[1..] && rest[0] in outputs && outputs[rest[0]].WOShutter?
    requires Due(h.tasks, rest[0], now) && h.tasks[rest[0]].target in {Shutter(Up), Shutter(Down)}
    requires Expiring(outputs, h, s, now, rest) && rest[0] in s.values
    requires s'.values == s.values[rest[0] := Some(h.tasks[rest[0]].target)]
    requires Untouched(s.client, s'.client, {Coil(outputs[rest[0]].io.varUp), Coil(outputs[rest[0]].io.varDown)})
    requires PinsReachable(outputs[rest[0]])
    requires Rests(s'.client.log, outputs[rest[0]].io)
    ensures Expiring(outputs, h, s', now, rest[1..])
  {
    hide Coil, LastWrite, Disjoint;
    var id := rest[0];
    forall j | j in outputs
      ensures if Due(h.tasks, j, now) && j !in rest[1..] then Arrived(h, s', j, outputs[j]) else Unmoved(h, s', j, outputs[j])
    {
      if j != id {
        assert j in rest <==> j in rest[1..];
        ShutterCoilsElsewhere(outputs, s, s', id, j);
        if outputs[j].WOShutter? {
          assert outputs[j].io.varUp in Pins(outputs[j]) && outputs[j].io.varDown in Pins(outputs[j]);
        }
      }
    }
  }

  /** Writes to the coils of shutter `id` leave the coils of output `j` alone. */
  lemma ShutterCoilsElsewhere(outputs: Outputs, s: State, s': State, id: Id, j: Id)
    requires Disjoint(outputs) && id in outputs && j in outputs && j != id && outputs[id].WOShutter? && PinsReachable(outputs[id])
    requires Untouched(s.client, s'.client, {Coil(outputs[id].io.varUp), Coil(outputs[id].io.varDown)})
    ensures forall q :: q in Pins(outputs[j]) ==> LastWrite(s'.client.log, Coil(q)) == LastWrite(s.client.log, Coil(q))
  {
    hide Coil, LastWrite, Disjoint;
    forall q | q in Pins(outputs[j])
      ensures Coil(q) !in {Coil(outputs[id].io.varUp), Coil(outputs[id].io.varDown)}
    {
      assert outputs[id].io.varUp in Pins(outputs[id]) && outputs[id].io.varDown in Pins(outputs[id]);
      PinsDiffer(outputs, id, j, outputs[id].io.varUp, q);
      PinsDiffer(outputs, id, j, outputs[id].io.varDown, q);
    }
  }

  /** The whole effect of a timer turn at `now`: exactly the due tasks are gone, exactly their shutters have arrived. */
  ghost predicate TimerOutcome(outputs: Outputs, h: State, s: State, now: Instant)
  {
    s.tasks == Later(h.tasks, now) && Expiring(outputs, h, s, now, [])
  }

  lemma {:induction false} TimerTurnEnds(outputs: Outputs, h: State, s: State, now: Instant, rest: seq<Id>, envs: seq<Env>)
    requires Disjoint(outputs) && AtHead(outputs, h) && Enumerates(rest, set id | id in rest)
    requires forall id :: id in rest ==> id in h.tasks
    requires exists id :: Due(h.tasks, id, now)
    requires TimerTurn(outputs, h, s, now, rest)
    requires s.todo == TimerPlan(outputs, h.tasks, rest, now) && |envs| >= |s.todo|
    ensures Fine(outputs, Drain(s, envs))
    ensures !Drain(s, envs).client.failed ==> TimerOutcome(outputs, h, Drain(s, envs), now)
    decreases |rest|
  {
    hide Coil, LogFine, LastWrite, Disjoint, Drain, Expiring, AtHead, TimerOutcome;
    if rest == [] {
      DrainStep(s, envs);
      var s' := Step(s, envs[0]);
      assert s' == s.(todo := [], tasks := Later(h.tasks, now));
      DrainIdle(s', envs[1..]);
      TimerTurnSettles(outputs, h, s, s', now);
    } else {
      assert rest[0] !in rest[1..];
      assert Enumerates(rest[1..], set id | id in rest[1..]);
      if Due(h.tasks, rest[0], now) {
        KeysAtHead(outputs, h);
        var s' := ExpireOne(outputs, h, s, now, rest, envs);
        if !Ended(outputs, Drain(s, envs)) {
          TimerTurnEnds(outputs, h, s', now, rest[1..], envs[3..]);
        }
      } else {
        assert ExpirePlan(outputs, h.tasks, rest[0], now) == [];
        assert s.todo == TimerPlan(outputs, h.tasks, rest[1..], now);
        SkipOne(outputs, h, s, now, rest);
        TimerTurnEnds(outputs, h, s, now, rest[1..], envs);
      }
    }
  }

  lemma KeysAtHead(outputs: Outputs, s: State)
    requires AtHead(outputs, s)
    ensures s.values.Keys == outputs.Keys && s.tasks.Keys <= outputs.Keys
  {
  }

  lemma {:induction false} DrainIgnoresRest(s: State, envs: seq<Env>, more: seq<Env>)
    requires |envs| >= |s.todo|
    ensures Drain(s, envs + more) == Drain(s, envs)
    decreases |s.todo|
  {
    if s.todo != [] {
      assert (envs + more)[1..] == envs[1..] + more;
      DrainIgnoresRest(Step(s, envs[0]), envs[1..], more);
    }
  }

  lemma DrainIdle(s: State, envs: seq<Env>)
    requires s.todo == []
    ensures Drain(s, envs) == s
  {
  }

  lemma SkipOne(outputs: Outputs, h: State, s: State, now: Instant, rest: seq<Id>)
    requires rest != [] && !Due(h.tasks, rest[0], now) && Expiring(outputs, h, s, now, rest)
    ensures Expiring(outputs, h, s, now, rest[1..])
  {
    assert forall id :: id != rest[0] ==> (id in rest <==> id in rest[1..]);
  }

  lemma TimerTurnSettles(outputs: Outputs, h: State, s: State, s': State, now: Instant)
    requires AtHead(outputs, h) && TimerTurn(outputs, h, s, now, [])
    requires exists id :: Due(h.tasks, id, now)
    requires s' == s.(todo := [], tasks := Later(h.tasks, now))
    ensures AtHead(outputs, s') && TimerOutcome(outputs, h, s', now)
  {
    hide Coil, LogFine, LastWrite, Agrees, Expiring;
    forall id | id in outputs
      ensures Agrees(s', id, outputs[id])
    {
      SettlesOne(outputs, h, s, s', now, id);
    }
    SameExpiring(outputs, h, s, s', now);
    LaterIsSmaller(h.tasks, now);
  }

  lemma SameExpiring(outputs: Outputs, h: State, s: State, s': State, now: Instant)
    requires Expiring(outputs, h, s, now, []) && s'.values == s.values && s'.client == s.client
    ensures Expiring(outputs, h, s', now, [])
  {
    hide Coil, LastWrite;
  }

  lemma LaterIsSmaller(tasks: map<Id, Task>, now: Instant)
    requires exists id :: Due(tasks, id, now)
    ensures |Later(tasks, now)| < |tasks|
  {
    var due :| Due(tasks, due, now);
    assert Later(tasks, now).Keys <= tasks.Keys - {due};
    SubsetSize(Later(tasks, now).Keys, tasks.Keys - {due});
  }

  lemma SettlesOne(outputs: Outputs, h: State, s: State, s': State, now: Instant, id: Id)
    requires AtHead(outputs, h) && Expiring(outputs, h, s, now, []) && id in outputs
    requires s' == s.(todo := [], tasks := Later(h.tasks, now))
    ensures Agrees(s', id, outputs[id])
  {
    hide Coil, LastWrite;
    Unfold(outputs, h, s, now, [], id);
    assert Agrees(h, id, outputs[id]);
    if !Due(h.tasks, id, now) {
      AgreesFrame(h, s', id, outputs[id]);
    }
  }

  lemma NothingExpired(outputs: Outputs, h: State, s: State, now: Instant, order: seq<Id>)
    requires AtHead(outputs, h) && s.values == h.values && s.client.log == h.client.log
    requires Enumerates(order, h.tasks.Keys)
    ensures Expiring(outputs, h, s, now, order)
  {
    hide Coil, LastWrite, Agrees;
  }

  /** A timer turn is sound, stops precisely what is due, and removes at least one task. */
  lemma TimerIsSound(outputs: Outputs, s: State, order: seq<Id>, now: Instant)
    requires Disjoint(outputs) && Settled(outputs, s)
    requires TimerReady(s, now) && Enumerates(order, s.tasks.Keys)
    ensures Sound(outputs, Fire(outputs, s, order, now))
    ensures forall envs: seq<Env> :: |envs| >= |Fire(outputs, s, order, now).todo| ==>
              var s' := Drain(Fire(outputs, s, order, now), envs);
              !s'.client.failed ==> TimerOutcome(outputs, s, s', now)
    ensures |Later(s.tasks, now)| < |s.tasks|
  {
    hide Coil, LogFine, LastWrite, Disjoint, Drain, Expiring, AtHead, TimerOutcome, TimerPlan;
    var s0 := Fire(outputs, s, order, now);
    var due :| due in s.tasks && s.tasks[due].deadline <= now;
    assert Due(s.tasks, due, now);
    LaterIsSmaller(s.tasks, now);
    TimePasses(outputs, s.client, now);
    NothingExpired(outputs, s, s0, now, order);
    assert Enumerates(order, set id | id in order);
    forall envs: seq<Env> | |envs| >= |s0.todo|
      ensures Fine(outputs, Drain(s0, envs))
      ensures !Drain(s0, envs).client.failed ==> TimerOutcome(outputs, s, Drain(s0, envs), now)
    {
      TimerTurnEnds(outputs, s, s0, now, order, envs);
    }
  }

  // ----- initialisation -----

  /** What initialisation has established when the outputs in `rest` are still to come. */
  ghost predicate Booting(outputs: Outputs, s: State, rest: seq<Id>)
  {
    && !s.client.failed && LogFine(outputs, s.client)
    && s.values.Keys == outputs.Keys && s.tasks == map[] && s.fires == 0 && s.starts == 0
    && forall id :: id in outputs ==>
         if id in rest then s.values[id].None? && Unwritten(s.client.log, outputs[id]) else Agrees(s, id, outputs[id])
  }

  ghost predicate Unwritten(log: seq<Write>, kind: OutputKind)
  {
    forall p :: p in Pins(kind) ==> LastWrite(log, Coil(p)).None?
  }

  lemma BootingFrame(outputs: Outputs, s: State, s': State, rest: seq<Id>, j: Id)
    requires Booting(outputs, s, rest) && rest != [] && j in outputs && j != rest[0]
    requires s'.tasks == s.tasks && j in s'.values && s'.values[j] == s.values[j]
    requires forall q :: q in Pins(outputs[j]) ==> LastWrite(s'.client.log, Coil(q)) == LastWrite(s.client.log, Coil(q))
    ensures if j in rest[1..] then s'.values[j].None? && Unwritten(s'.client.log, outputs[j]) else Agrees(s', j, outputs[j])
  {
    hide Coil, LastWrite, LogFine;
    assert j in rest <==> j in rest[1..];
    if j !in rest {
      AgreesFrame(s, s', j, outputs[j]);
    }
  }

  lemma ReadKeepsLogFine(outputs: Outputs, c: Client, e: Env)
    requires LogFine(outputs, c) && !c.failed
    ensures LogFine(outputs, ReadInputs(c, e)) && LogFine(outputs, c.(failed := true))
  {
  }

  lemma BootDigital(outputs: Outputs, s: State, rest: seq<Id>, envs: seq<Env>) returns (s': State)
    requires rest != [] && rest[0] in outputs && outputs[rest[0]].WODigital? && rest[0] !in rest[1..]
    requires Booting(outputs, s, rest) && s.todo == BootPlan(outputs, rest) && |envs| >= |s.todo|
    ensures Ended(outputs, Drain(s, envs))
            || (s'.todo == BootPlan(outputs, rest[1..]) && Booting(outputs, s', rest[1..])
                && |s.todo| == 1 + |s'.todo| && Drain(s, envs) == Drain(s', envs[1..]))
  {
    hide Coil, LastWrite, LogFine, Drain;
    var id := rest[0];
    DrainStep(s, envs);
    s' := Step(s, envs[0]);
    ReadKeepsLogFine(outputs, s.client, envs[0]);
    if !s'.client.failed {
      forall j | j in outputs && j != id
        ensures if j in rest[1..] then s'.values[j].None? && Unwritten(s'.client.log, outputs[j])
                else Agrees(s', j, outputs[j])
      {
        BootingFrame(outputs, s, s', rest, j);
      }
      assert outputs[id].pin in Pins(outputs[id]);
      assert Agrees(s', id, outputs[id]);
    }
  }

  lemma BootShutter(outputs: Outputs, s: State, rest: seq<Id>, envs: seq<Env>) returns (s': State)
    requires Disjoint(outputs) && rest != [] && rest[0] in outputs && outputs[rest[0]].WOShutter? && rest[0] !in rest[1..]
    requires Booting(outputs, s, rest) && s.todo == BootPlan(outputs, rest) && |envs| >= |s.todo|
    ensures Ended(outputs, Drain(s, envs))
            || (s'.todo == BootPlan(outputs, rest[1..]) && Booting(outputs, s', rest[1..])
                && |s.todo| == 3 + |s'.todo| && Drain(s, envs) == Drain(s', envs[3..]))
  {
    hide Coil, LastWrite, LogFine, Drain, Disjoint, Agrees;
    var id := rest[0];
    var io := outputs[id].io;
    assert s.todo[..2] == StopShutter(io, Boot);
    var s2 := StopSteps(outputs, s, id, Boot, envs);
    s' := s2;
    if !Ended(outputs, Drain(s, envs)) {
      DrainStep(s2, envs[2..]);
      s' := Step(s2, envs[2]);
      assert s2.todo == [Announce(IOData(id, Shutter(Up)))] + BootPlan(outputs, rest[1..]);
      assert envs[2..][1..] == envs[3..];
      forall j | j in outputs && j != id
        ensures if j in rest[1..] then s'.values[j].None? && Unwritten(s'.client.log, outputs[j])
                else Agrees(s', j, outputs[j])
      {
        ShutterCoilsElsewhere(outputs, s, s', id, j);
        BootingFrame(outputs, s, s', rest, j);
      }
      assert Agrees(s', id, outputs[id]) by { BootedShutter(s', id, outputs[id]); }
    }
  }

  lemma BootedShutter(s: State, id: Id, kind: OutputKind)
    requires kind.WOShutter? && id in s.values && s.values[id].None? && id !in s.tasks && Rests(s.client.log, kind.io)
    ensures Agrees(s, id, kind)
  {
  }

  lemma {:induction false} BootEnds(outputs: Outputs, s: State, rest: seq<Id>, envs: seq<Env>)
    requires Disjoint(outputs) && Enumerates(rest, set id | id in rest) && forall id :: id in rest ==> id in outputs
    requires Booting(outputs, s, rest) && s.todo == BootPlan(outputs, rest) && |envs| >= |s.todo|
    ensures Fine(outputs, Drain(s, envs))
    decreases |rest|
  {
    hide Coil, LogFine, LastWrite, Disjoint, Drain, Agrees;
    if rest == [] {
      DrainIdle(s, envs);
    } else {
      assert Enumerates(rest[1..], set id | id in rest[1..]);
      match outputs[rest[0]] {
        case WODigital(_) =>
          var s' := BootDigital(outputs, s, rest, envs);
          if !Ended(outputs, Drain(s, envs)) {
            BootEnds(outputs, s', rest[1..], envs[1..]);
          }
        case WOShutter(_) =>
          var s' := BootShutter(outputs, s, rest, envs);
          if !Ended(outputs, Drain(s, envs)) {
            BootEnds(outputs, s', rest[1..], envs[3..]);
          }
        case OtherKind =>
          BootOther(outputs, s, rest);
          BootEnds(outputs, s, rest[1..], envs);
      }
    }
  }

  lemma BootOther(outputs: Outputs, s: State, rest: seq<Id>)
    requires rest != [] && rest[0] in outputs && outputs[rest[0]].OtherKind? && Booting(outputs, s, rest)
    requires s.todo == BootPlan(outputs, rest)
    ensures Booting(outputs, s, rest[1..]) && s.todo == BootPlan(outputs, rest[1..])
  {
    hide Coil, LogFine, LastWrite;
    assert BootPlan(outputs, rest) == [] + BootPlan(outputs, rest[1..]);
    forall j | j in outputs
      ensures if j in rest[1..] then s.values[j].None? && Unwritten(s.client.log, outputs[j]) else Agrees(s, j, outputs[j])
    {
      if j != rest[0] {
        BootingFrame(outputs, s, s, rest, j);
      }
    }
  }

  lemma NothingIsFine(outputs: Outputs, now: Instant)
    ensures LogFine(outputs, Client(now, map[], [], false))
  {
    var log: seq<Write> := [];
    assert forall n :: 0 <= n <= |log| ==> log[..n] == [];
  }

  lemma InitialBoots(outputs: Outputs, order: seq<Id>, now: Instant)
    requires Enumerates(order, outputs.Keys)
    ensures Booting(outputs, Initial(outputs, order, now), order)
  {
    hide Coil, LogFine, BootPlan;
    NothingIsFine(outputs, now);
  }

  /** The initialisation is sound, in whatever order it visits the outputs. */
  lemma BootIsSound(outputs: Outputs, order: seq<Id>, now: Instant)
    requires Disjoint(outputs) && Enumerates(order, outputs.Keys)
    ensures Sound(outputs, Initial(outputs, order, now))
  {
    hide Coil, Disjoint, Drain, Booting, Fine, BootPlan;
    var s := Initial(outputs, order, now);
    InitialBoots(outputs, order, now);
    assert Enumerates(order, set id | id in order);
    forall envs: seq<Env> | |envs| >= |s.todo|
      ensures Fine(outputs, Drain(s, envs))
    {
      BootEnds(outputs, s, order, envs);
    }
  }

  // ----- runs -----

  /** Every event keeps a run sound. */
  lemma EventKeepsSound(outputs: Outputs, s: State, ev: Event)
    requires Disjoint(outputs) && Sound(outputs, s) && Enabled(s, ev)
    ensures Sound(outputs, Apply(outputs, s, ev))
  {
    hide Coil, Disjoint, LogFine, AtHead, Exec;
    match ev
    case Operate(e) =>
      forall envs: seq<Env> | |envs| >= |Step(s, e).todo|
        ensures Fine(outputs, Drain(Step(s, e), envs))
      {
        var more := seq(|s.todo|, _ => e);
        var all := [e] + (envs + more);
        assert all[0] == e && all[1..] == envs + more;
        DrainStep(s, all);
        DrainIgnoresRest(Step(s, e), envs, more);
      }
    case Command(cmd) =>
      HeadIsSettled(outputs, s);
      CommandIsSound(outputs, s, cmd);
    case Timer(order, now) =>
      HeadIsSettled(outputs, s);
      TimerIsSound(outputs, s, order, now);
    case KeepAlive(e) =>
      HeadIsSettled(outputs, s);
      ReadKeepsLogFine(outputs, s.client, e);
      KeepAliveKeepsHead(outputs, s, e);
  }

  lemma KeepAliveKeepsHead(outputs: Outputs, s: State, e: Env)
    requires AtHead(outputs, s)
    ensures AtHead(outputs, s.(client := ReadInputs(s.client, e)))
  {
    hide Coil, LastWrite;
    forall id | id in outputs
      ensures Agrees(s.(client := ReadInputs(s.client, e)), id, outputs[id])
    {
      AgreesFrame(s, s.(client := ReadInputs(s.client, e)), id, outputs[id]);
    }
  }

  lemma SoundEnds(outputs: Outputs, s: State, envs: seq<Env>)
    requires Sound(outputs, s) && |envs| >= |s.todo|
    ensures Fine(outputs, Drain(s, envs))
  {
  }

  /** A sound state at a loop head is settled. */
  lemma HeadIsSettled(outputs: Outputs, s: State)
    requires Sound(outputs, s) && s.todo == []
    ensures Fine(outputs, s)
  {
    assert Drain(s, []) == s;
  }

  /** Every state of every run is sound. */
  lemma {:induction false} RunIsSound(outputs: Outputs, s0: State, events: seq<Event>, s: State)
    requires Disjoint(outputs) && Sound(outputs, s0) && Runs(outputs, s0, events, s)
    ensures Sound(outputs, s)
    decreases |events|
  {
    hide Coil, Disjoint, Sound, Apply;
    if events != [] {
      EventKeepsSound(outputs, s0, events[0]);
      RunIsSound(outputs, Apply(outputs, s0, events[0]), events[1..], s);
    }
  }

  lemma StepExtendsLog(s: State, e: Env)
    requires s.todo != []
    ensures s.client.log <= Step(s, e).client.log
  {
    hide Coil, Pause;
  }

  /** The log of a state is a prefix of the log in which its turn ends. */
  lemma {:induction false} DrainExtendsLog(s: State, envs: seq<Env>)
    requires |envs| >= |s.todo|
    ensures s.client.log <= Drain(s, envs).client.log
    decreases |s.todo|
  {
    hide Exec;
    if s.todo != [] {
      StepExtendsLog(s, envs[0]);
      DrainExtendsLog(Step(s, envs[0]), envs[1..]);
    }
  }

  /** What a sound state has done so far was safe, in the middle of a turn too. */
  lemma SoundIsSafe(outputs: Outputs, s: State)
    requires Sound(outputs, s)
    ensures Spaced(s.client.log) && Interlocked(outputs, s.client.log) && FullTravel(outputs, s.client.log)
    ensures s.todo == [] && !s.client.failed ==> AtHead(outputs, s)
  {
    hide Coil, LastWrite;
    var e := Env(0, 0, 0, 0, true, true, false);
    var envs := seq(|s.todo|, _ => e);
    var end := Drain(s, envs);
    assert Fine(outputs, end);
    DrainExtendsLog(s, envs);
    PrefixIsFine(outputs, s.client.log, end.client.log);
    if s.todo == [] {
      DrainIdle(s, envs);
    }
  }

  /** The safety of the whole life of a controller, for every order of initialisation, every sequence of commands, timer turns and
      keep-alives, every latency and every failure: relays are spaced at every point. If no two pins name one coil, motors are
      interlocked and travels full at every point, and at a loop head values, coils and tasks agree unless the run has failed. */
  lemma ControllerIsSafe(outputs: Outputs, order: seq<Id>, now: Instant, events: seq<Event>, s: State)
    requires Enumerates(order, outputs.Keys)
    requires Runs(outputs, Initial(outputs, order, now), events, s)
    ensures Spaced(s.client.log)
    ensures Disjoint(outputs) ==> Interlocked(outputs, s.client.log) && FullTravel(outputs, s.client.log)
    ensures Disjoint(outputs) && s.todo == [] && !s.client.failed ==> AtHead(outputs, s)
  {
    hide Coil, Disjoint, Runs, Enumerates, Sound;
    Relays.RelaysAreProtected(outputs, order, now, events, s);
    if Disjoint(outputs) {
      BootIsSound(outputs, order, now);
      RunIsSound(outputs, Initial(outputs, order, now), events, s);
      SoundIsSafe(outputs, s);
    }
  }

  lemma PrefixIsFine(outputs: Outputs, log: seq<Write>, log': seq<Write>)
    requires log <= log' && Spaced(log') && Interlocked(outputs, log') && FullTravel(outputs, log')
    ensures Spaced(log) && Interlocked(outputs, log) && FullTravel(outputs, log)
  {
    hide Coil, LastWrite;
    assert forall n :: 0 <= n <= |log| ==> log[..n] == log'[..n];
    forall id, k | id in outputs && outputs[id].WOShutter? && 0 <= k < |log| && EndsMove(log, k, outputs[id].io)
      ensures LastWrite(log[..k], log[k].address).value.done + outputs[id].io.time <= log[k].begin
    {
      assert log[..k] == log'[..k];
      assert EndsMove(log', k, outputs[id].io);
    }
  }

  /** At a loop head the three views of a shutter determine each other, so a pending task always belongs to a shutter of
      the configuration that moves towards its target. */
  lemma HeadShows(outputs: Outputs, s: State, id: Id)
    requires AtHead(outputs, s)
    requires (id in outputs && outputs[id].WOShutter?) || id in s.tasks
    ensures id in outputs && outputs[id].WOShutter? && id in s.values
    ensures var up, down := Coil(outputs[id].io.varUp), Coil(outputs[id].io.varDown);
            && (s.values[id] == Some(Shutter(MovingUp)) <==> Moves(s.client.log, up, down))
            && (s.values[id] == Some(Shutter(MovingDown)) <==> Moves(s.client.log, down, up))
            && (id !in s.tasks <==> Rests(s.client.log, outputs[id].io))
            && (id in s.tasks && s.tasks[id].target == Shutter(Up) <==> Moves(s.client.log, up, down))
            && (id in s.tasks && s.tasks[id].target == Shutter(Down) <==> Moves(s.client.log, down, up))
  {
    hide Coil, LastWrite;
    assert Agrees(s, id, outputs[id]);
  }
}
