/** Exactly which wirings the motor interlock holds for. */
module WagoInterlock {
  import opened Basics
  import opened Coils
  import opened IoValues
  import opened Modbus
  import opened WagoController
  import opened WagoControllerSafety

  function CoilsOf(kind: OutputKind): set<Address>
  {
    set p | p in Pins(kind) :: Coil(p)
  }

  /** Another output may share both coils of a shutter if it is a shutter on the same two coils, else it shares neither. */
  predicate SharesSafely(io: UpDown, kind: OutputKind)
  {
    || CoilsOf(kind) !! CoilsOf(WOShutter(io))
    || (kind.WOShutter? && CoilsOf(kind) == CoilsOf(WOShutter(io)))
  }

  ghost predicate SafeWiring(outputs: Outputs)
  {
    forall id :: id in outputs && outputs[id].WOShutter? ==>
      && Coil(outputs[id].io.varUp) != Coil(outputs[id].io.varDown)
      && forall j :: j in outputs && j != id ==> SharesSafely(outputs[id].io, outputs[j])
  }

  // ----- a safe wiring is interlocked -----

  /** A write that clashes with no shutter keeps the interlock; a success is the last write to its coil. */
  lemma WriteStep(outputs: Outputs, s: State, e: Env)
    requires s.todo != [] && s.todo[0].SetVar? && Interlocked(outputs, s.client.log)
    requires NoClash(outputs, s.client.log, Coil(s.todo[0].pin), s.todo[0].value)
    ensures var s', op := Step(s, e), s.todo[0];
            && Interlocked(outputs, s'.client.log)
            && (s'.client.failed ==> s'.todo == [])
            && (!s'.client.failed ==>
                && s' == s.(todo := s.todo[1..], client := s'.client)
                && LastWrite(s'.client.log, Coil(op.pin)).Some?
                && LastWrite(s'.client.log, Coil(op.pin)).value.value == op.value
                && forall a :: a != Coil(op.pin) ==> LastWrite(s'.client.log, a) == LastWrite(s.client.log, a))
  {
    hide Interlocked, NoClash, Coil;
    var op := s.todo[0];
    if CoilAddress(op.pin).Some? && (e.ok || e.effective) {
      var a := Coil(op.pin);
      assert CoilAddress(op.pin) == Some(a);
      var log' := WriteSingleCoil(s.client, a, op.value, op.reason, e).log;
      var w := log'[|s.client.log|];
      WriteKeepsInterlock(outputs, s.client.log, w);
      LastWriteAppend(s.client.log, w);
      assert log' == s.client.log + [w];
    }
  }

  lemma OffNeverClashes(outputs: Outputs, log: seq<Write>, a: Address)
    ensures NoClash(outputs, log, a, false)
  {
  }

  /** A turn that switches nothing on keeps the interlock. */
  lemma {:induction false} OffTurnKeepsInterlock(outputs: Outputs, s: State, envs: seq<Env>)
    requires Interlocked(outputs, s.client.log) && |envs| >= |s.todo|
    requires forall op :: op in s.todo ==> op.SetVar? ==> !op.value
    ensures Interlocked(outputs, Drain(s, envs).client.log)
    decreases |s.todo|
  {
    hide Interlocked, NoClash, Coil, LastWrite;
    if s.todo != [] {
      var s' := Step(s, envs[0]);
      if s.todo[0].SetVar? {
        OffNeverClashes(outputs, s.client.log, Coil(s.todo[0].pin));
        WriteStep(outputs, s, envs[0]);
      } else {
        assert s'.client.log == s.client.log by { OtherStepsWriteNothing(s, envs[0]); }
      }
      assert forall op :: op in s'.todo ==> op in s.todo;
      OffTurnKeepsInterlock(outputs, s', envs[1..]);
    }
  }

  lemma OtherStepsWriteNothing(s: State, e: Env)
    requires s.todo != [] && !s.todo[0].SetVar?
    ensures Step(s, e).client.log == s.client.log
  {
  }

  /** After a stop, switching one coil of a safely wired shutter on clashes with nothing. */
  lemma MotorDoesNotClash(outputs: Outputs, log: seq<Write>, id: Id, up: bool)
    requires SafeWiring(outputs) && id in outputs && outputs[id].WOShutter? && Rests(log, outputs[id].io)
    ensures NoClash(outputs, log, Coil(Motor(outputs[id].io, up)), true)
  {
    hide LastWrite, Coil;
    var io := outputs[id].io;
    var a := Coil(Motor(io, up));
    OwnCoils(io);
    forall j | j in outputs && outputs[j].WOShutter? && a in {Coil(outputs[j].io.varUp), Coil(outputs[j].io.varDown)}
      ensures OtherOff(log, outputs[j].io, a)
    {
      OwnCoils(outputs[j].io);
      if j != id {
        assert SharesSafely(outputs[j].io, outputs[id]);
        assert a in CoilsOf(outputs[id]) && a in CoilsOf(WOShutter(outputs[j].io));
      }
    }
  }

  lemma OwnCoils(io: UpDown)
    ensures CoilsOf(WOShutter(io)) == {Coil(io.varUp), Coil(io.varDown)}
  {
    hide Coil;
    ShutterCoils(io);
  }

  lemma DigitalCoil(pin: Var)
    ensures CoilsOf(WODigital(pin)) == {Coil(pin)}
  {
    hide Coil;
  }

  lemma NoCoils()
    ensures CoilsOf(OtherKind) == {}
  {
  }

  lemma DigitalDoesNotClash(outputs: Outputs, log: seq<Write>, id: Id, value: bool)
    requires SafeWiring(outputs) && id in outputs && outputs[id].WODigital?
    ensures NoClash(outputs, log, Coil(outputs[id].pin), value)
  {
    hide LastWrite, Coil;
    forall j | j in outputs && outputs[j].WOShutter?
      ensures Coil(outputs[id].pin) !in {Coil(outputs[j].io.varUp), Coil(outputs[j].io.varDown)}
    {
      OwnCoils(outputs[j].io);
      assert SharesSafely(outputs[j].io, outputs[id]);
      assert outputs[id].pin in Pins(outputs[id]);
      assert Coil(outputs[id].pin) in CoilsOf(outputs[id]);
    }
  }

  /** Stopping a shutter, whatever the wiring: either the run ends on the way, or both coils rest. */
  lemma StopTurn(outputs: Outputs, s: State, io: UpDown, reason: Reason, envs: seq<Env>) returns (s2: State)
    requires Interlocked(outputs, s.client.log) && |envs| >= |s.todo| >= 2 && s.todo[..2] == StopShutter(io, reason)
    ensures (Drain(s, envs).client.failed && Interlocked(outputs, Drain(s, envs).client.log))
            || (!s2.client.failed && s2 == s.(todo := s.todo[2..], client := s2.client)
                && Interlocked(outputs, s2.client.log) && Rests(s2.client.log, io)
                && (forall a :: a !in {Coil(io.varUp), Coil(io.varDown)} ==> LastWrite(s2.client.log, a) == LastWrite(s.client.log, a))
                && Drain(s, envs) == Drain(s2, envs[2..]))
  {
    hide Interlocked, NoClash, Coil, LastWrite, Drain;
    assert s.todo[0] == s.todo[..2][0] && s.todo[1] == s.todo[..2][1];
    DrainStep(s, envs);
    OffNeverClashes(outputs, s.client.log, Coil(io.varDown));
    WriteStep(outputs, s, envs[0]);
    var s1 := Step(s, envs[0]);
    s2 := s1;
    if !s1.client.failed {
      DrainStep(s1, envs[1..]);
      OffNeverClashes(outputs, s1.client.log, Coil(io.varUp));
      WriteStep(outputs, s1, envs[1]);
      s2 := Step(s1, envs[1]);
      assert envs[1..][1..] == envs[2..];
    }
  }

  lemma MoveTurnKeepsInterlock(outputs: Outputs, s: State, id: Id, command: ShutterState, envs: seq<Env>)
    requires SafeWiring(outputs) && Interlocked(outputs, s.client.log)
    requires id in outputs && outputs[id].WOShutter? && |envs| >= 5
    ensures Interlocked(outputs, Drain(s.(todo := MovePlan(id, outputs[id].io, command)), envs).client.log)
  {
    hide Interlocked, NoClash, Coil, LastWrite, Drain, SafeWiring;
    var io := outputs[id].io;
    var s0 := s.(todo := MovePlan(id, io, command));
    assert s0.todo[..2] == StopShutter(io, Commanded);
    var s2 := StopTurn(outputs, s0, io, Commanded, envs);
    if !(Drain(s0, envs).client.failed && Interlocked(outputs, Drain(s0, envs).client.log)) {
      MotorDoesNotClash(outputs, s2.client.log, id, command in {Up, MovingUp});
      WriteStep(outputs, s2, envs[2]);
      DrainStep(s2, envs[2..]);
      OffTurnKeepsInterlock(outputs, Step(s2, envs[2]), envs[2..][1..]);
    }
  }

  /** Whatever the surroundings do, the turn in progress keeps the interlock. */
  ghost predicate StaysInterlocked(outputs: Outputs, s: State)
  {
    && (s.client.failed ==> s.todo == [])
    && forall envs: seq<Env> :: |envs| >= |s.todo| ==> Interlocked(outputs, Drain(s, envs).client.log)
  }

  lemma NowInterlocked(outputs: Outputs, s: State)
    requires StaysInterlocked(outputs, s)
    ensures Interlocked(outputs, s.client.log)
  {
    hide Coil, LastWrite;
    var envs := seq(|s.todo|, _ => Env(0, 0, 0, 0, true, true, false));
    DrainExtendsLog(s, envs);
    var end := Drain(s, envs).client.log;
    assert forall n :: 0 <= n <= |s.client.log| ==> s.client.log[..n] == end[..n];
  }

  lemma DigitalTurnKeepsInterlock(outputs: Outputs, s: State, id: Id, b: bool, envs: seq<Env>)
    requires SafeWiring(outputs) && Interlocked(outputs, s.client.log)
    requires id in outputs && outputs[id].WODigital? && |envs| >= 2
    ensures Interlocked(outputs,
                        Drain(s.(todo := [SetVar(outputs[id].pin, b, Commanded), UpdateState(id, Bool(b))]), envs).client.log)
  {
    hide Interlocked, NoClash, Coil, LastWrite, Drain, SafeWiring;
    var s0 := s.(todo := [SetVar(outputs[id].pin, b, Commanded), UpdateState(id, Bool(b))]);
    DigitalDoesNotClash(outputs, s.client.log, id, b);
    WriteStep(outputs, s0, envs[0]);
    DrainStep(s0, envs);
    OffTurnKeepsInterlock(outputs, Step(s0, envs[0]), envs[1..]);
  }

  lemma CommandKeepsInterlock(outputs: Outputs, s: State, cmd: IODataAction)
    requires SafeWiring(outputs) && Interlocked(outputs, s.client.log) && !s.client.failed
    ensures StaysInterlocked(outputs, Receive(outputs, s, cmd))
  {
    hide Interlocked, Coil, LastWrite, Drain, SafeWiring, MovePlan;
    var s0 := Receive(outputs, s, cmd);
    forall envs: seq<Env> | |envs| >= |s0.todo|
      ensures Interlocked(outputs, Drain(s0, envs).client.log)
    {
      if s0.todo == [] {
        DrainIdle(s0, envs);
      } else {
        var newValue := NewValue(s.values[cmd.id], cmd.action).value;
        match outputs[cmd.id] {
          case WODigital(pin) =>
            DigitalTurnKeepsInterlock(outputs, s, cmd.id, newValue.value.b, envs);
          case WOShutter(io) =>
            match ShutterCommand(s.values[cmd.id], newValue) {
              case Some(command) =>
                CommandPlanSize(outputs, s, cmd);
                MovePlanSize(cmd.id, io, command);
                MoveTurnKeepsInterlock(outputs, s, cmd.id, command, envs);
              case None =>
                OffTurnKeepsInterlock(outputs, s0, envs);
            }
        }
      }
    }
  }

  lemma MovePlanSize(id: Id, io: UpDown, command: ShutterState)
    ensures |MovePlan(id, io, command)| == 5
  {
  }

  lemma {:induction false} TimerPlanIsOff(outputs: Outputs, tasks: map<Id, Task>, order: seq<Id>, now: Instant)
    ensures forall op :: op in TimerPlan(outputs, tasks, order, now) ==> op.SetVar? ==> !op.value
  {
    if order != [] {
      TimerPlanIsOff(outputs, tasks, order[1..], now);
    }
  }

  lemma {:induction false} BootPlanIsOff(outputs: Outputs, order: seq<Id>)
    ensures forall op :: op in BootPlan(outputs, order) ==> op.SetVar? ==> !op.value
  {
    if order != [] {
      BootPlanIsOff(outputs, order[1..]);
    }
  }

  lemma OffTurnStaysInterlocked(outputs: Outputs, s: State)
    requires Interlocked(outputs, s.client.log) && !s.client.failed
    requires forall op :: op in s.todo ==> op.SetVar? ==> !op.value
    ensures StaysInterlocked(outputs, s)
  {
    hide Interlocked, Coil, LastWrite, Drain;
    forall envs: seq<Env> | |envs| >= |s.todo|
      ensures Interlocked(outputs, Drain(s, envs).client.log)
    {
      OffTurnKeepsInterlock(outputs, s, envs);
    }
  }

  lemma EventStaysInterlocked(outputs: Outputs, s: State, ev: Event)
    requires SafeWiring(outputs) && StaysInterlocked(outputs, s) && Enabled(s, ev)
    ensures StaysInterlocked(outputs, Apply(outputs, s, ev))
  {
    hide Interlocked, Coil, LastWrite, SafeWiring, Exec;
    NowInterlocked(outputs, s);
    match ev
    case Operate(e) =>
      forall envs: seq<Env> | |envs| >= |Step(s, e).todo|
        ensures Interlocked(outputs, Drain(Step(s, e), envs).client.log)
      {
        var more := seq(|s.todo|, _ => e);
        var all := [e] + (envs + more);
        assert all[0] == e && all[1..] == envs + more;
        DrainStep(s, all);
        DrainIgnoresRest(Step(s, e), envs, more);
      }
    case Command(cmd) =>
      CommandKeepsInterlock(outputs, s, cmd);
    case Timer(order, now) =>
      TimerPlanIsOff(outputs, s.tasks, order, now);
      OffTurnStaysInterlocked(outputs, Fire(outputs, s, order, now));
    case KeepAlive(e) =>
      forall envs: seq<Env>
        ensures Interlocked(outputs, Drain(Apply(outputs, s, ev), envs).client.log)
      {
        DrainIdle(Apply(outputs, s, ev), envs);
      }
  }

  lemma {:induction false} SafeRunIsInterlocked(outputs: Outputs, s0: State, events: seq<Event>, s: State)
    requires SafeWiring(outputs) && StaysInterlocked(outputs, s0) && Runs(outputs, s0, events, s)
    ensures Interlocked(outputs, s.client.log)
    decreases |events|
  {
    hide SafeWiring, StaysInterlocked, Interlocked, Apply;
    if events == [] {
      NowInterlocked(outputs, s);
    } else {
      EventStaysInterlocked(outputs, s0, events[0]);
      SafeRunIsInterlocked(outputs, Apply(outputs, s0, events[0]), events[1..], s);
    }
  }

  lemma NothingIsInterlocked(outputs: Outputs)
    ensures Interlocked(outputs, [])
  {
    var none: seq<Write> := [];
    assert forall n :: 0 <= n <= |none| ==> none[..n] == [];
  }

  /** Every run of a safely wired controller is interlocked. */
  lemma SafeWiringSuffices(outputs: Outputs, order: seq<Id>, now: Instant, events: seq<Event>, s: State)
    requires SafeWiring(outputs) && Runs(outputs, Initial(outputs, order, now), events, s)
    ensures Interlocked(outputs, s.client.log)
  {
    hide SafeWiring, StaysInterlocked, Interlocked, Runs;
    NothingIsInterlocked(outputs);
    BootPlanIsOff(outputs, order);
    OffTurnStaysInterlocked(outputs, Initial(outputs, order, now));
    SafeRunIsInterlocked(outputs, Initial(outputs, order, now), events, s);
  }

  // ----- an unsafe wiring is not -----

  /** The initialisation of the output finds an address for each of its requests. */
  predicate Starts(kind: OutputKind)
  {
    match kind
    case WODigital(pin) => InputAddress(pin).Some?
    case WOShutter(io) => CoilAddress(io.varUp).Some? && CoilAddress(io.varDown).Some?
    case OtherKind => true
  }

  /** All shutters can be written and all digital states read: what the initialisation needs to get to its end. */
  predicate Bootable(outputs: Outputs)
  {
    forall id :: id in outputs ==> Starts(outputs[id])
  }

  /** All digital outputs can be written as well. */
  predicate Addressable(outputs: Outputs)
  {
    Bootable(outputs) && forall id :: id in outputs && outputs[id].WODigital? ==> CoilAddress(outputs[id].pin).Some?
  }

  const SMOOTH := Env(0, 0, 0, 0, true, true, false)

  function Smoothly(n: nat): seq<Env>
  {
    seq(n, _ => SMOOTH)
  }

  ghost predicate OpsAddressable(ops: seq<Op>)
  {
    forall op :: op in ops ==> (op.SetVar? ==> CoilAddress(op.pin).Some?) && (op.ReadVar? ==> InputAddress(op.pin).Some?)
  }

  /** When all goes well a turn ends without failure, on the same outputs. */
  lemma {:induction false} SmoothTurn(s: State, envs: seq<Env>)
    requires |envs| >= |s.todo| && (forall e :: e in envs ==> e == SMOOTH) && !s.client.failed && OpsAddressable(s.todo)
    requires forall op :: op in s.todo ==> (op.ReadVar? ==> op.id in s.values) && (op.UpdateState? ==> op.id in s.values)
    ensures !Drain(s, envs).client.failed && Drain(s, envs).values.Keys == s.values.Keys
    decreases |s.todo|
  {
    hide WriteSingleCoil, CoilAddress, InputAddress;
    if s.todo != [] {
      assert envs[0] in envs && s.todo[0] in s.todo;
      SmoothStep(s, envs[0]);
      var s' := Step(s, envs[0]);
      assert forall op :: op in s'.todo ==> op in s.todo;
      assert forall e :: e in envs[1..] ==> e in envs;
      SmoothTurn(s', envs[1..]);
    }
  }

  lemma SmoothStep(s: State, e: Env)
    requires e == SMOOTH && s.todo != [] && !s.client.failed
    requires (s.todo[0].SetVar? ==> CoilAddress(s.todo[0].pin).Some?) && (s.todo[0].ReadVar? ==> InputAddress(s.todo[0].pin).Some?)
    requires (s.todo[0].ReadVar? ==> s.todo[0].id in s.values) && (s.todo[0].UpdateState? ==> s.todo[0].id in s.values)
    ensures !Step(s, e).client.failed && Step(s, e).todo == s.todo[1..] && Step(s, e).values.Keys == s.values.Keys
  {
  }

  lemma {:induction false} BootPlanAddressable(outputs: Outputs, order: seq<Id>)
    requires Bootable(outputs)
    ensures OpsAddressable(BootPlan(outputs, order))
    ensures forall op :: op in BootPlan(outputs, order) ==> !op.UpdateState? && (op.ReadVar? ==> op.id in outputs)
  {
    hide CoilAddress, InputAddress;
    if order != [] {
      BootPlanAddressable(outputs, order[1..]);
      BootOutputAddressable(outputs, order[0]);
      assert BootPlan(outputs, order) == BootOutput(outputs, order[0]) + BootPlan(outputs, order[1..]);
    }
  }

  lemma BootOutputAddressable(outputs: Outputs, id: Id)
    requires Bootable(outputs)
    ensures OpsAddressable(BootOutput(outputs, id))
    ensures forall op :: op in BootOutput(outputs, id) ==> !op.UpdateState? && (op.ReadVar? ==> op.id in outputs)
  {
    hide CoilAddress, InputAddress, Pins;
    if id in outputs {
      }
  }

  /** The coil was written just now. */
  predicate JustWritten(c: Client, a: Address)
  {
    && LastWrite(c.log, a).Some? && LastWrite(c.log, a).value.done == c.clock
    && a in c.last && c.last[a] == c.clock
  }

  /** What a successful write does to the log. */
  lemma SmoothWrite(s: State)
    requires s.todo != [] && s.todo[0].SetVar? && CoilAddress(s.todo[0].pin).Some? && !s.client.failed
    ensures var s', op := Step(s, SMOOTH), s.todo[0];
            && !s'.client.failed
            && s' == s.(todo := s.todo[1..], client := s'.client)
            && LastWrite(s'.client.log, Coil(op.pin)).Some?
            && LastWrite(s'.client.log, Coil(op.pin)).value.value == op.value
            && JustWritten(s'.client, Coil(op.pin))
            && forall a :: a != Coil(op.pin) ==> LastWrite(s'.client.log, a) == LastWrite(s.client.log, a)
  {
    hide Coil;
    var op := s.todo[0];
    var a := Coil(op.pin);
    assert CoilAddress(op.pin) == Some(a);
    var log' := WriteSingleCoil(s.client, a, op.value, op.reason, SMOOTH).log;
    LastWriteAppend(s.client.log, log'[|s.client.log|]);
    assert log' == s.client.log + [log'[|s.client.log|]];
  }

  /** The controller waits for a command, and has not failed. */
  ghost predicate Waiting(outputs: Outputs, s: State)
  {
    s.todo == [] && !s.client.failed && s.values.Keys == outputs.Keys
  }

  lemma SmoothThree(s: State, first: Var, second: Var, third: Var, rest: seq<Op>, envs: seq<Env>) returns (s': State)
    requires s.todo == [SetVar(first, false, Commanded), SetVar(second, false, Commanded), SetVar(third, true, Commanded)] + rest
    requires CoilAddress(first).Some? && CoilAddress(second).Some? && CoilAddress(third).Some? && !s.client.failed
    requires envs == Smoothly(|s.todo|)
    ensures !s'.client.failed && s' == s.(todo := rest, client := s'.client)
    ensures On(s'.client.log, Coil(third)) && JustWritten(s'.client, Coil(third))
    ensures forall a :: a !in {Coil(first), Coil(second), Coil(third)} ==> LastWrite(s'.client.log, a) == LastWrite(s.client.log, a)
    ensures Drain(s, envs) == Drain(s', envs[3..])
  {
    hide Coil, LastWrite, CoilAddress, Drain, Step;
    DrainStep(s, envs);
    SmoothWrite(s);
    var s1 := Step(s, SMOOTH);
    DrainStep(s1, envs[1..]);
    SmoothWrite(s1);
    var s2 := Step(s1, SMOOTH);
    DrainStep(s2, envs[1..][1..]);
    SmoothWrite(s2);
    s' := Step(s2, SMOOTH);
    assert envs[1..][1..][1..] == envs[3..];
  }

  /** Only output `id` may have another value or another task in `s'` than in `s`. */
  ghost predicate OthersKept(s: State, s': State, id: Id)
  {
    && (forall j :: j != id && j in s.values ==> j in s'.values && s'.values[j] == s.values[j])
    && (forall j :: j != id && j in s.tasks ==> j in s'.tasks && s'.tasks[j] == s.tasks[j])
  }

  /** A shutter can be made to move either way: its motor is on at the end of the turn, and foreign coils are as before. */
  lemma SmoothMove(outputs: Outputs, s: State, id: Id, up: bool) returns (events: seq<Event>, s': State)
    requires Bootable(outputs) && Waiting(outputs, s) && id in outputs && outputs[id].WOShutter?
    ensures Runs(outputs, s, events, s') && Waiting(outputs, s') && OthersKept(s, s', id)
    ensures On(s'.client.log, Coil(Motor(outputs[id].io, up))) && JustWritten(s'.client, Coil(Motor(outputs[id].io, up)))
    ensures id in s'.tasks && s'.tasks[id].deadline == s'.client.clock + outputs[id].io.time
    ensures forall a :: a !in CoilsOf(outputs[id]) ==> LastWrite(s'.client.log, a) == LastWrite(s.client.log, a)
  {
    hide Coil, LastWrite, CoilAddress, Drain, Runs, CoilsOf;
    var io := outputs[id].io;
    var cmd := IODataAction(id, SetValue(Shutter(if up then MovingUp else MovingDown)));
    OwnCoils(io);
    var s0 := Receive(outputs, s, cmd);
    assert s0.todo == MovePlan(id, io, if up then MovingUp else MovingDown);
    var envs := Smoothly(5);
    var rest := StartOps(id, io, up);
    var s3 := SmoothThree(s0, io.varDown, io.varUp, Motor(io, up), rest, envs);
    LastTwoSteps(s3, rest[0], id, rest[1].state, envs[3..]);
    s' := Drain(s0, envs);
    events := DrainIsRun(outputs, s0, envs);
    events := CommandRun(outputs, s, cmd, events, s');
  }

  lemma CommandRun(outputs: Outputs, s: State, cmd: IODataAction, rest: seq<Event>, s': State) returns (events: seq<Event>)
    requires s.todo == [] && !s.client.failed && Runs(outputs, Receive(outputs, s, cmd), rest, s')
    ensures Runs(outputs, s, events, s')
  {
    events := [Command(cmd)] + rest;
    assert events[1..] == rest;
  }

  /** A digital output can be switched to either state. */
  lemma SmoothDigital(outputs: Outputs, s: State, id: Id, b: bool) returns (events: seq<Event>, s': State)
    requires Waiting(outputs, s) && id in outputs && outputs[id].WODigital? && CoilAddress(outputs[id].pin).Some?
    ensures Runs(outputs, s, events, s') && Waiting(outputs, s') && OthersKept(s, s', id)
    ensures if b then On(s'.client.log, Coil(outputs[id].pin)) else Off(s'.client.log, Coil(outputs[id].pin))
    ensures JustWritten(s'.client, Coil(outputs[id].pin))
    ensures forall a :: a != Coil(outputs[id].pin) ==> LastWrite(s'.client.log, a) == LastWrite(s.client.log, a)
  {
    hide Coil, LastWrite, CoilAddress;
    var cmd := IODataAction(id, SetValue(Bool(b)));
    var s0 := Receive(outputs, s, cmd);
    assert s0.todo == [SetVar(outputs[id].pin, b, Commanded), UpdateState(id, Bool(b))];
    var envs := Smoothly(2);
    DrainStep(s0, envs);
    SmoothWrite(s0);
    var s1 := Step(s0, SMOOTH);
    DrainStep(s1, envs[1..]);
    s' := Drain(s0, envs);
    assert s' == Step(s1, SMOOTH);
    events := DrainIsRun(outputs, s0, envs);
    events := [Command(cmd)] + events;
  }

  /** A controller whose pins are all addressable can be brought to wait for commands. */
  lemma SmoothBoot(outputs: Outputs) returns (order: seq<Id>, events: seq<Event>, s: State)
    requires Bootable(outputs)
    ensures Enumerates(order, outputs.Keys) && Runs(outputs, Initial(outputs, order, 0), events, s) && Waiting(outputs, s)
  {
    hide CoilAddress, InputAddress, Bootable, Drain;
    order := Enumeration(outputs.Keys);
    var s0 := Initial(outputs, order, 0);
    BootPlanAddressable(outputs, order);
    var envs := Smoothly(|s0.todo|);
    SmoothTurn(s0, envs);
    s := Drain(s0, envs);
    events := DrainIsRun(outputs, s0, envs);
  }

  lemma BothOnBreaks(outputs: Outputs, log: seq<Write>, id: Id)
    requires id in outputs && outputs[id].WOShutter? && BothOn(log, outputs[id].io)
    ensures !Interlocked(outputs, log)
  {
    assert log[..|log|] == log;
  }

  /** One output takes a coil of the shutter that the shutter's own commands leave alone: both coils go on. */
  lemma SharedCoilBreaks(outputs: Outputs, s0: State, id: Id, j: Id) returns (events: seq<Event>, s: State)
    requires Bootable(outputs) && Waiting(outputs, s0)
    requires id in outputs && outputs[id].WOShutter? && Coil(outputs[id].io.varUp) != Coil(outputs[id].io.varDown)
    requires j in outputs && !SharesSafely(outputs[id].io, outputs[j])
    ensures Runs(outputs, s0, events, s) && BothOn(s.client.log, outputs[id].io)
  {
    hide Coil, LastWrite, Runs, Bootable, Waiting, CoilsOf;
    var io := outputs[id].io;
    OwnCoils(io);
    var shared :| shared in CoilsOf(outputs[j]) && shared in CoilsOf(WOShutter(io));
    var second, s1 := SmoothMove(outputs, s0, id, shared != Coil(io.varUp));
    var third;
    if outputs[j].WODigital? {
      DigitalCoil(outputs[j].pin);
      ShutterStarts(outputs, id);
      SameCoilSameAddress(outputs[j].pin, if shared == Coil(io.varUp) then io.varUp else io.varDown);
      third, s := SmoothDigital(outputs, s1, j, true);
    } else {
      assert CoilsOf(OtherKind) == {} by { NoCoils(); }
      OwnCoils(outputs[j].io);
      third, s := SmoothMove(outputs, s1, j, shared == Coil(outputs[j].io.varUp));
    }
    RunsConcat(outputs, s0, second, s1, third, s);
    events := second + third;
  }

  lemma ShutterStarts(outputs: Outputs, id: Id)
    requires Bootable(outputs) && id in outputs && outputs[id].WOShutter?
    ensures CoilAddress(outputs[id].io.varUp).Some? && CoilAddress(outputs[id].io.varDown).Some?
  {
  }

  lemma SameCoilSameAddress(v: Var, w: Var)
    requires Coil(v) == Coil(w)
    ensures CoilAddress(v) == CoilAddress(w)
  {
  }

  lemma AliasedCoilsBreak(outputs: Outputs, s0: State, id: Id) returns (events: seq<Event>, s: State)
    requires Bootable(outputs) && Waiting(outputs, s0)
    requires id in outputs && outputs[id].WOShutter? && Coil(outputs[id].io.varUp) == Coil(outputs[id].io.varDown)
    ensures Runs(outputs, s0, events, s) && BothOn(s.client.log, outputs[id].io)
  {
    hide Coil, LastWrite, Runs, Bootable, Waiting;
    events, s := SmoothMove(outputs, s0, id, true);
  }

  /** For an unsafe wiring there are commands that switch both coils of some shutter on. */
  lemma UnsafeWiringBreaks(outputs: Outputs) returns (order: seq<Id>, events: seq<Event>, s: State)
    requires Bootable(outputs) && !SafeWiring(outputs)
    ensures Enumerates(order, outputs.Keys) && Runs(outputs, Initial(outputs, order, 0), events, s)
    ensures !Interlocked(outputs, s.client.log)
  {
    hide Coil, LastWrite, Enumerates, Runs, Interlocked, Bootable, Waiting, SharesSafely, Initial, BothOn;
    var s0, first, more;
    order, first, s0 := SmoothBoot(outputs);
    var id :| id in outputs && outputs[id].WOShutter?
              && (Coil(outputs[id].io.varUp) == Coil(outputs[id].io.varDown)
                  || exists j :: j in outputs && j != id && !SharesSafely(outputs[id].io, outputs[j]));
    if Coil(outputs[id].io.varUp) == Coil(outputs[id].io.varDown) {
      more, s := AliasedCoilsBreak(outputs, s0, id);
    } else {
      var j :| j in outputs && j != id && !SharesSafely(outputs[id].io, outputs[j]);
      more, s := SharedCoilBreaks(outputs, s0, id, j);
    }
    BothOnBreaks(outputs, s.client.log, id);
    RunsConcat(outputs, Initial(outputs, order, 0), first, s0, more, s);
    events := first + more;
  }

  // ----- a controller that cannot start switches nothing on -----

  /** The operation fails for want of an address. */
  predicate Unaddressable(op: Op)
  {
    (op.SetVar? && CoilAddress(op.pin).None?) || (op.ReadVar? && InputAddress(op.pin).None?)
  }

  /** The turn in progress switches nothing on, and the run will end before the turn does. */
  ghost predicate Doomed(outputs: Outputs, s: State)
  {
    && Interlocked(outputs, s.client.log)
    && (forall op :: op in s.todo ==> op.SetVar? ==> !op.value)
    && (!s.client.failed ==> exists op :: op in s.todo && Unaddressable(op))
  }

  lemma UnaddressableFails(s: State, e: Env)
    requires s.todo != [] && Unaddressable(s.todo[0])
    ensures Step(s, e).client.failed
  {
    hide CoilAddress, InputAddress;
  }

  lemma StepKeepsDoomed(outputs: Outputs, s: State, e: Env)
    requires Doomed(outputs, s) && s.todo != [] && !s.client.failed
    ensures Doomed(outputs, Step(s, e))
  {
    hide Interlocked, NoClash, Coil, CoilAddress, InputAddress, LastWrite, Unaddressable;
    var s' := Step(s, e);
    if s.todo[0].SetVar? {
      OffNeverClashes(outputs, s.client.log, Coil(s.todo[0].pin));
      WriteStep(outputs, s, e);
    } else {
      OtherStepsWriteNothing(s, e);
    }
    assert forall op :: op in s'.todo ==> op in s.todo;
    if !s'.client.failed {
      var op :| op in s.todo && Unaddressable(op);
      if op == s.todo[0] {
        UnaddressableFails(s, e);
      }
      assert s.todo == [s.todo[0]] + s'.todo by { StepTakesOne(s, e); }
    }
  }

  lemma StepTakesOne(s: State, e: Env)
    requires s.todo != [] && !Step(s, e).client.failed
    ensures Step(s, e).todo == s.todo[1..]
  {
  }

  lemma {:induction false} DoomedRun(outputs: Outputs, s0: State, events: seq<Event>, s: State)
    requires Doomed(outputs, s0) && Runs(outputs, s0, events, s)
    ensures Doomed(outputs, s)
    decreases |events|
  {
    hide Interlocked, Unaddressable, Step;
    if events != [] {
      assert events[0].Operate?;
      StepKeepsDoomed(outputs, s0, events[0].env);
      DoomedRun(outputs, Apply(outputs, s0, events[0]), events[1..], s);
    }
  }

  lemma {:induction false} BootPlanHas(outputs: Outputs, order: seq<Id>, id: Id, op: Op)
    requires id in order && op in BootOutput(outputs, id)
    ensures op in BootPlan(outputs, order)
  {
    hide BootOutput;
    assert BootPlan(outputs, order) == BootOutput(outputs, order[0]) + BootPlan(outputs, order[1..]);
    if id != order[0] {
      BootPlanHas(outputs, order[1..], id, op);
    }
  }

  lemma StopperOf(outputs: Outputs, id: Id) returns (op: Op)
    requires id in outputs && !Starts(outputs[id])
    ensures op in BootOutput(outputs, id) && Unaddressable(op)
  {
    hide CoilAddress, InputAddress;
    match outputs[id] {
      case WODigital(pin) => op := ReadVar(id, pin);
      case WOShutter(io) => op := SetVar(if CoilAddress(io.varDown).None? then io.varDown else io.varUp, false, Boot);
    }
  }

  /** A controller whose initialisation cannot get to its end is interlocked in every run, however it is wired: it never gets to
      its loop. */
  lemma UnbootableIsInterlocked(outputs: Outputs, order: seq<Id>, now: Instant, events: seq<Event>, s: State)
    requires !Bootable(outputs) && Enumerates(order, outputs.Keys) && Runs(outputs, Initial(outputs, order, now), events, s)
    ensures Interlocked(outputs, s.client.log)
    ensures s.client.failed || s.todo != []
  {
    hide Interlocked, Runs, Unaddressable, Bootable, BootPlan;
    UnbootableIsDoomed(outputs, order, now);
    DoomedRun(outputs, Initial(outputs, order, now), events, s);
  }

  lemma UnbootableIsDoomed(outputs: Outputs, order: seq<Id>, now: Instant)
    requires !Bootable(outputs) && Enumerates(order, outputs.Keys)
    ensures Doomed(outputs, Initial(outputs, order, now))
  {
    hide Interlocked, Starts, Unaddressable, BootOutput;
    NothingIsInterlocked(outputs);
    BootPlanIsOff(outputs, order);
    var id :| id in outputs && !Starts(outputs[id]);
    var op := StopperOf(outputs, id);
    BootPlanHas(outputs, order, id, op);
  }

  // ----- exactly -----

  /** The motor interlock, exactly, for every configuration: it holds in every run if and only if the wiring is safe, or the
      initialisation stops at a variable without an address. */
  lemma InterlockIffSafeWiring(outputs: Outputs)
    ensures SafeWiring(outputs) || !Bootable(outputs) <==>
            forall order, now, events, s ::
              Enumerates(order, outputs.Keys) && Runs(outputs, Initial(outputs, order, now), events, s) ==>
              Interlocked(outputs, s.client.log)
  {
    hide Runs, Interlocked, SafeWiring, Enumerates, Bootable;
    if SafeWiring(outputs) || !Bootable(outputs) {
      forall order, now, events, s | Enumerates(order, outputs.Keys) && Runs(outputs, Initial(outputs, order, now), events, s)
        ensures Interlocked(outputs, s.client.log)
      {
        if SafeWiring(outputs) {
          SafeWiringSuffices(outputs, order, now, events, s);
        } else {
          UnbootableIsInterlocked(outputs, order, now, events, s);
        }
      }
    } else {
      var order, events, s := UnsafeWiringBreaks(outputs);
    }
  }
}
