/** The output controller as the source writes it: a Modbus client whose methods update its fields, and a loop that updates
    local values and pending tasks in place. Each method is proved to do what the machine of module WagoController does. */
module WagoControllerRun {
  import opened Basics
  import opened Coils
  import opened IoValues
  import opened Modbus
  import opened WagoController
  import opened WagoControllerLife
  import opened WagoControllerSafety
  import opened WagoControllerOwners
  import opened WagoInterlock
  import opened WagoTravel

  /** `modbus_client.rs`. `clock` stands for the system clock, `log` for what the controller received. */
  class ModbusClient {
    var clock: Instant
    var lastCoilUpdateInstant: map<Address, Instant>
    ghost var log: seq<Write>
    ghost var failed: bool

    ghost function View(): Client
      reads this
    {
      Client(clock, lastCoilUpdateInstant, log, failed)
    }

    constructor (now: Instant)
      ensures View() == Client(now, map[], [], false)
    {
      clock, lastCoilUpdateInstant, log, failed := now, map[], [], false;
    }

    method Sleep(duration: int, oversleep: nat)
      requires duration >= 0
      modifies this`clock
      ensures clock == old(clock) + duration + oversleep
    {
      clock := clock + duration + oversleep;
    }

    method WriteSingleCoil(address: Address, value: bool, ghost reason: Reason, env: Env) returns (r: Outcome)
      requires !failed
      modifies this
      ensures View() == Modbus.WriteSingleCoil(old(View()), address, value, reason, env)
      ensures (r.Fail? <==> failed) && (r.Fail? <==> !env.ok)
      ensures if env.ok || env.effective then
                && |log| == |old(log)| + 1 && log[..|old(log)|] == old(log)
                && log[|old(log)|].address == address && log[|old(log)|].value == value && log[|old(log)|].reason == reason
              else log == old(log)
      ensures env.ok ==> lastCoilUpdateInstant == old(lastCoilUpdateInstant)[address := clock]
      ensures !env.ok ==> lastCoilUpdateInstant == old(lastCoilUpdateInstant)
      ensures old(Spaced(log) && Tracks(View())) ==> Spaced(log) && Tracks(View())
    {
      hide Spaced, Tracks;
      ghost var before := View();
      clock := clock + env.idle;
      ghost var asked := clock;
      if address in lastCoilUpdateInstant {
        var instant := lastCoilUpdateInstant[address];
        var deltaNow := if clock < instant then 0 else clock - instant;
        if deltaNow < MIN_DURATION_BETWEEN_WRITE {
          Sleep(MIN_DURATION_BETWEEN_WRITE - deltaNow, env.oversleep);
        }
      }
      ghost var begin := clock;
      clock := clock + env.latency;
      if env.ok || env.effective {
        log := log + [Write(address, value, begin, clock, Pause(before, address, asked), reason)];
      }
      clock := clock + env.trail;
      if env.ok {
        lastCoilUpdateInstant := lastCoilUpdateInstant[address := clock];
        r := Pass;
      } else {
        failed := true;
        r := Fail;
      }
      if Spaced(before.log) && Tracks(before) {
        WriteKeepsSpacing(before, address, value, reason, env);
      }
    }

    method ReadDiscreteInput(address: Address, env: Env) returns (r: Outcome, bit: bool)
      requires !failed
      modifies this`clock, this`failed
      ensures View() == ReadInputs(old(View()), env)
      ensures (r.Fail? <==> failed) && (r.Fail? <==> !env.ok) && clock == old(clock) + env.idle + env.latency
      ensures bit == env.bit
    {
      clock := clock + env.idle + env.latency;
      bit := env.bit;
      failed := !env.ok;
      r := if env.ok then Pass else Fail;
    }
  }

  /** One turn of the loop, as the surroundings decide it: a command arrives, the least deadline passes, or the keep-alive
      interval does. The i-th request of the turn meets the surroundings `envs(i)`. */
  datatype Turn =
    | CommandArrives(cmd: IODataAction, envs: nat -> Env)
    | DeadlinePasses(oversleep: nat, envs: nat -> Env)
    | KeepAliveIsDue(env: Env)

  method MinDeadline(tasks: map<Id, Task>) returns (deadline: Instant)
    requires tasks != map[]
    ensures exists id :: id in tasks && tasks[id].deadline == deadline
    ensures forall id :: id in tasks ==> deadline <= tasks[id].deadline
  {
    var order := Visit(tasks.Keys);
    assert order != [] by {
      var id :| id in tasks;
      assert id in order;
    }
    var least := order[0];
    for i := 1 to |order|
      invariant least in tasks
      invariant forall j :: 0 <= j < i ==> tasks[least].deadline <= tasks[order[j]].deadline
    {
      if tasks[order[i]].deadline < tasks[least].deadline {
        least := order[i];
      }
    }
    deadline := tasks[least].deadline;
  }

  /** A write that a turn begins with, and what is left of the turn after it. */
  lemma WriteFirst(s: State, op: Op, rest: seq<Op>, envs: seq<Env>)
    requires s.todo == [] && op.SetVar? && |envs| >= 1 + |rest|
    ensures var s' := Exec(s, op, envs[0]);
            Drain(s.(todo := [op] + rest), envs) == if s'.client.failed then s' else Drain(s'.(todo := rest), envs[1..])
  {
    hide CoilAddress, Modbus.WriteSingleCoil, Drain;
    var s0 := s.(todo := [op] + rest);
    assert s0.todo[1..] == rest;
    DrainStep(s0, envs);
  }

  /** One more write in the log: of this value, at the address of the variable with bit 12 set. */
  ghost predicate Wrote(before: seq<Write>, after: seq<Write>, pin: Var, value: bool, reason: Reason)
  {
    && |after| == |before| + 1 && after[..|before|] == before
    && after[|before|].address.raw & 0x1000 == 0x1000
    && after[|before|].address.raw & 0xFFFF_EFFF == pin & 0xFFFF_EFFF
    && after[|before|].value == value && after[|before|].reason == reason
  }

  /** Two more writes: first the down variable off, then the up variable. */
  ghost predicate WroteStop(before: seq<Write>, after: seq<Write>, io: UpDown, reason: Reason)
  {
    && |after| == |before| + 2 && after[..|before|] == before
    && Wrote(before, after[..|before| + 1], io.varDown, false, reason)
    && Wrote(after[..|before| + 1], after, io.varUp, false, reason)
  }

  lemma StopWritten(before: seq<Write>, middle: seq<Write>, after: seq<Write>, io: UpDown, reason: Reason)
    requires Wrote(before, middle, io.varDown, false, reason) && Wrote(middle, after, io.varUp, false, reason)
    ensures WroteStop(before, after, io, reason)
  {
    assert after[..|before| + 1] == middle;
    assert after[..|before|] == middle[..|before|];
  }

  function Latest(a: Instant, b: Instant): Instant
  {
    if a < b then b else a
  }

  lemma StopIsTwo(before: seq<Write>, after: seq<Write>, io: UpDown, reason: Reason)
    requires WroteStop(before, after, io, reason)
    ensures |after| == |before| + 2
  {
  }

  lemma TurnIsRun(outputs: Outputs, s: State, ev: Event, rest: seq<Event>, s': State) returns (events: seq<Event>)
    requires Enabled(s, ev) && Runs(outputs, Apply(outputs, s, ev), rest, s')
    ensures Runs(outputs, s, events, s')
  {
    events := [ev] + rest;
    assert events[1..] == rest;
  }

  /** `wago_modbus_controller.rs` */
  class WagoModbusController {
    const outputs: Outputs
    const client: ModbusClient
    var outputMap: map<Id, Option<IOValue>>
    var waitTask: map<Id, Task>
    var feedback: seq<IOData>
    ghost var starts: nat
    ghost var fires: nat

    ghost function View(): State
      reads this, client
    {
      State(outputMap, waitTask, client.View(), feedback, [], starts, fires)
    }

    /** The controller is at a loop head. If no two pins name one coil, all it keeps agrees. */
    ghost predicate Valid()
      reads this, client
    {
      !client.failed && outputMap.Keys == outputs.Keys && (Disjoint(outputs) ==> Settled(outputs, View()))
    }

    constructor (outputs: Outputs, now: Instant)
      ensures fresh(client) && this.outputs == outputs && View() == Initial(outputs, [], now).(todo := [])
    {
      this.outputs := outputs;
      client := new ModbusClient(now);
      outputMap := map id | id in outputs :: None;
      waitTask, feedback, starts, fires := map[], [], 0, 0;
    }

    method SetVar(pin: Var, value: bool, ghost reason: Reason, env: Env) returns (r: Outcome)
      requires !client.failed
      modifies client
      ensures View() == Exec(old(View()), Op.SetVar(pin, value, reason), env)
      ensures (r.Fail? <==> client.failed) && (r.Fail? <==> pin >= 0x1_0000 || !env.ok)
      ensures r.Pass? ==> Wrote(old(client.log), client.log, pin, value, reason)
    {
      AddressableIffSixteenBits(pin);
      CoilSetsBitTwelve(pin);
      var address := CoilAddress(pin);
      if address.None? {
        client.failed := true;
        return Fail;
      }
      :- client.WriteSingleCoil(address.value, value, reason, env);
      r := Pass;
    }

    method StopShutter(io: UpDown, ghost reason: Reason, ghost rest: seq<Op>, envs: seq<Env>) returns (r: Outcome)
      requires !client.failed && |envs| >= 2 + |rest|
      modifies client
      ensures r.Fail? <==> client.failed
      ensures View() == old(View()).(client := client.View())
      ensures r.Pass? ==> WroteStop(old(client.log), client.log, io, reason)
      ensures Drain(old(View()).(todo := WagoController.StopShutter(io, reason) + rest), envs)
              == if r.Fail? then View() else Drain(View().(todo := rest), envs[2..])
    {
      hide CoilAddress, Modbus.WriteSingleCoil, Drain, Wrote, WroteStop;
      ghost var before := client.log;
      ghost var down, up := Op.SetVar(io.varDown, false, reason), Op.SetVar(io.varUp, false, reason);
      assert WagoController.StopShutter(io, reason) + rest == [down] + ([up] + rest);
      WriteFirst(View(), down, [up] + rest, envs);
      :- SetVar(io.varDown, false, reason, envs[0]);
      ghost var middle := client.log;
      WriteFirst(View(), up, rest, envs[1..]);
      assert envs[1..][1..] == envs[2..];
      :- SetVar(io.varUp, false, reason, envs[1]);
      StopWritten(before, middle, client.log, io, reason);
      r := Pass;
    }

    method UpdateState(id: Id, value: IOValue)
      modifies this`outputMap, this`feedback
      ensures View() == Update(old(View()), id, value)
      ensures outputMap == old(outputMap)[id := Some(value)] && feedback == old(feedback) + [IOData(id, value)]
    {
      outputMap := outputMap[id := Some(value)];
      feedback := feedback + [IOData(id, value)];
    }

    /** The initialisation before the loop. */
    method Initialise(order: seq<Id>, envs: seq<Env>) returns (r: Outcome)
      requires Enumerates(order, outputs.Keys) && |envs| >= |BootPlan(outputs, order)|
      requires View() == Initial(outputs, [], client.clock).(todo := [])
      modifies this, client
      ensures View() == Drain(Initial(outputs, order, old(client.clock)), envs)
      ensures r.Fail? <==> client.failed
      ensures r.Pass? ==> Valid()
    {
      hide Coil, Sound, LogFine, AtHead, Disjoint, Drain, BootOutput;
      ghost var start := Initial(outputs, order, client.clock);
      assert start == View().(todo := BootPlan(outputs, order));
      if Disjoint(outputs) {
        BootIsSound(outputs, order, client.clock);
      }
      r := BootOutputs(order, envs);
      FineEnd(start, envs);
    }

    method BootOutputs(order: seq<Id>, envs: seq<Env>) returns (r: Outcome)
      requires !client.failed && outputMap.Keys == outputs.Keys && |envs| >= |BootPlan(outputs, order)|
      requires forall id :: id in order ==> id in outputs
      modifies this, client
      ensures View() == Drain(old(View()).(todo := BootPlan(outputs, order)), envs)
      ensures r.Fail? <==> client.failed
      ensures outputMap.Keys == outputs.Keys
    {
      hide Coil, Drain, BootOutput;
      ghost var start := View().(todo := BootPlan(outputs, order));
      var k := 0;
      assert order[0..] == order && envs[0..] == envs;
      for i := 0 to |order|
        invariant !client.failed && outputMap.Keys == outputs.Keys
        invariant 0 <= k <= |envs| && |envs| - k >= |BootPlan(outputs, order[i..])|
        invariant Drain(start, envs) == Drain(View().(todo := BootPlan(outputs, order[i..])), envs[k..])
      {
        assert order[i..][0] == order[i] && order[i..][1..] == order[i + 1..];
        var n;
        r, n := BootOne(order[i], BootPlan(outputs, order[i + 1..]), envs[k..]);
        if r.Fail? {
          return;
        }
        assert envs[k..][n..] == envs[k + n..];
        k := k + n;
      }
      r := Pass;
      assert order[|order|..] == [];
      DrainIdle(View(), envs[k..]);
    }

    method BootOne(id: Id, ghost rest: seq<Op>, envs: seq<Env>) returns (r: Outcome, n: nat)
      requires !client.failed && id in outputs && outputMap.Keys == outputs.Keys
      requires |envs| >= |BootOutput(outputs, id) + rest|
      modifies this, client
      ensures outputMap.Keys == outputs.Keys
      ensures r.Fail? <==> client.failed
      ensures n == |BootOutput(outputs, id)|
      ensures Drain(old(View()).(todo := BootOutput(outputs, id) + rest), envs)
              == if r.Fail? then View() else Drain(View().(todo := rest), envs[n..])
    {
      hide Coil, Spaced, Tracks, Drain;
      match outputs[id] {
        case WODigital(pin) =>
          n := 1;
          ghost var s0 := View().(todo := [ReadVar(id, pin)] + rest);
          DrainStep(s0, envs);
          var address := InputAddress(pin);
          if address.None? {
            client.failed := true;
            return Fail, n;
          }
          var r', bit := client.ReadDiscreteInput(address.value, envs[0]);
          if r'.Fail? {
            return Fail, n;
          }
          UpdateState(id, Bool(bit));
        case WOShutter(io) =>
          n := 3;
          ghost var announce := [Announce(IOData(id, Shutter(Up)))] + rest;
          assert WagoController.StopShutter(io, Boot) + announce == BootOutput(outputs, id) + rest;
          r := StopShutter(io, Boot, announce, envs);
          if r.Fail? {
            return;
          }
          DrainStep(View().(todo := announce), envs[2..]);
          feedback := feedback + [IOData(id, Shutter(Up))];
          assert envs[2..][1..] == envs[3..];
        case OtherKind =>
          n := 0;
          assert BootOutput(outputs, id) + rest == rest && envs[0..] == envs;
      }
      r := Pass;
    }

    /** A turn that began sound and did not fail ends in a valid controller. */
    lemma FineEnd(start: State, envs: seq<Env>)
      requires Disjoint(outputs) ==> Sound(outputs, start)
      requires |envs| >= |start.todo| && View() == Drain(start, envs)
      ensures Disjoint(outputs) && !client.failed ==> Settled(outputs, View())
    {
      hide Disjoint, LogFine, AtHead;
      if Disjoint(outputs) {
        SoundEnds(outputs, start, envs);
      }
    }

    /** The command branch. */
    method HandleCommand(ioData: IODataAction, envs: seq<Env>) returns (r: Outcome)
      requires Valid() && |envs| >= |CommandPlan(outputs, View(), ioData)|
      modifies this, client
      ensures View() == Drain(Receive(outputs, old(View()), ioData), envs)
      ensures r.Fail? <==> client.failed
      ensures r.Pass? ==> Valid()
    {
      hide Coil, Sound, LogFine, Disjoint, Drain, CommandPlan;
      ghost var start := Receive(outputs, View(), ioData);
      if Disjoint(outputs) {
        CommandIsSound(outputs, View(), ioData);
      }
      r := DoCommand(ioData, envs);
      FineEnd(start, envs);
    }

    method DoCommand(ioData: IODataAction, envs: seq<Env>) returns (r: Outcome)
      requires !client.failed && outputMap.Keys == outputs.Keys && |envs| >= |CommandPlan(outputs, View(), ioData)|
      modifies this, client
      ensures View() == Drain(Receive(outputs, old(View()), ioData), envs)
      ensures r.Fail? <==> client.failed
      ensures outputMap.Keys == outputs.Keys
    {
      hide Coil, Drain, MovePlan, StopPlan;
      DrainIdle(View(), envs);
      var id := ioData.id;
      if id !in outputMap {
        return Pass;
      }
      var currentValue := outputMap[id];
      var newValue: Option<IOValue>;
      match ioData.action {
        case SetValue(v) =>
          newValue := Some(v);
        case Toggle =>
          if currentValue.None? {
            return Pass;
          }
          newValue := ToggleValue(currentValue.value);
          if newValue.None? {
            return Pass;
          }
        case Stop =>
          newValue := None;
      }
      match outputs[id] {
        case WODigital(pin) =>
          if newValue.Some? && newValue.value.Bool? {
            r := SwitchDigital(id, pin, newValue.value.b, envs);
          } else {
            r := Pass;
          }
        case WOShutter(io) =>
          var command := ShutterCommand(currentValue, newValue);
          if command.Some? {
            r := MoveShutter(id, io, command.value, envs);
          } else {
            r := HaltShutter(id, io, envs);
          }
        case OtherKind =>
          r := Pass;
      }
    }

    method SwitchDigital(id: Id, pin: Var, value: bool, envs: seq<Env>) returns (r: Outcome)
      requires !client.failed && id in outputMap && |envs| >= 2
      modifies this, client
      ensures View() == Drain(old(View()).(todo := [Op.SetVar(pin, value, Commanded), Op.UpdateState(id, Bool(value))]), envs)
      ensures r.Fail? <==> client.failed
      ensures outputMap.Keys == old(outputMap).Keys
      ensures r.Pass? ==>
                && Wrote(old(client.log), client.log, pin, value, Commanded) && waitTask == old(waitTask)
                && outputMap == old(outputMap)[id := Some(Bool(value))] && feedback == old(feedback) + [IOData(id, Bool(value))]
    {
      hide Coil, Drain, Spaced, Tracks, Wrote;
      ghost var s0 := View().(todo := [Op.SetVar(pin, value, Commanded), Op.UpdateState(id, Bool(value))]);
      DrainStep(s0, envs);
      :- SetVar(pin, value, Commanded, envs[0]);
      ghost var s1 := View().(todo := [Op.UpdateState(id, Bool(value))]);
      DrainStep(s1, envs[1..]);
      DrainIdle(Step(s1, envs[1]), envs[1..][1..]);
      UpdateState(id, Bool(value));
      r := Pass;
    }

    method MoveShutter(id: Id, io: UpDown, command: ShutterState, envs: seq<Env>) returns (r: Outcome)
      requires !client.failed && id in outputMap && |envs| >= |MovePlan(id, io, command)|
      modifies this, client
      ensures View() == Drain(old(View()).(todo := MovePlan(id, io, command)), envs)
      ensures r.Fail? <==> client.failed
      ensures outputMap.Keys == old(outputMap).Keys
      ensures r.Pass? ==>
                var up := command.Up? || command.MovingUp?;
                && |client.log| == |old(client.log)| + 3
                && WroteStop(old(client.log), client.log[..|old(client.log)| + 2], io, Commanded)
                && Wrote(client.log[..|old(client.log)| + 2], client.log, if up then io.varUp else io.varDown, true, Commanded)
                && waitTask == old(waitTask)[id := Task(client.clock + io.time, Shutter(if up then Up else Down))]
                && outputMap == old(outputMap)[id := Some(Shutter(if up then MovingUp else MovingDown))]
                && feedback == old(feedback) + [IOData(id, Shutter(if up then MovingUp else MovingDown))]
    {
      hide CoilAddress, Drain, Modbus.WriteSingleCoil, WroteStop;
      var (pin, next, target) :=
        if command in {Up, MovingUp} then (io.varUp, MovingUp, Up) else (io.varDown, MovingDown, Down);
      ghost var start := [StartTask(id, io.time, Shutter(target)), Op.UpdateState(id, Shutter(next))];
      ghost var rest := [Op.SetVar(pin, true, Commanded)] + start;
      assert MovePlan(id, io, command) == WagoController.StopShutter(io, Commanded) + rest;
      :- StopShutter(io, Commanded, rest, envs);
      ghost var stopped := client.log;
      assert |stopped| == |old(client.log)| + 2 by { StopIsTwo(old(client.log), stopped, io, Commanded); }
      WriteFirst(View(), rest[0], start, envs[2..]);
      :- SetVar(pin, true, Commanded, envs[2]);
      assert client.log[..|old(client.log)| + 2] == stopped;
      assert envs[2..][1..] == envs[3..];
      LastTwoSteps(View().(todo := start), start[0], id, Shutter(next), envs[3..]);
      client.clock := client.clock + envs[3].idle;
      waitTask := waitTask[id := Task(client.clock + io.time, Shutter(target))];
      starts := starts + 1;
      UpdateState(id, Shutter(next));
      r := Pass;
    }

    method HaltShutter(id: Id, io: UpDown, envs: seq<Env>) returns (r: Outcome)
      requires !client.failed && id in outputMap && |envs| >= |StopPlan(id, io)|
      modifies this, client
      ensures View() == Drain(old(View()).(todo := StopPlan(id, io)), envs)
      ensures r.Fail? <==> client.failed
      ensures outputMap.Keys == old(outputMap).Keys
      ensures r.Pass? ==>
                && WroteStop(old(client.log), client.log, io, Commanded)
                && waitTask == old(waitTask) - {id}
                && outputMap == old(outputMap)[id := Some(Shutter(Up))]
                && feedback == old(feedback) + [IOData(id, Shutter(Up))]
    {
      hide Coil, Drain, Spaced, Tracks, WroteStop;
      ghost var finish := [RemoveTask(id), Op.UpdateState(id, Shutter(Up))];
      assert StopPlan(id, io) == WagoController.StopShutter(io, Commanded) + finish;
      :- StopShutter(io, Commanded, finish, envs);
      LastTwoSteps(View().(todo := finish), finish[0], id, Shutter(Up), envs[2..]);
      waitTask := waitTask - {id};
      UpdateState(id, Shutter(Up));
      r := Pass;
    }

    /** The timer branch: sleep until the least deadline, then stop what is due at the instant sampled. */
    method HandleTimer(oversleep: nat, envOf: nat -> Env)
      returns (r: Outcome, ghost order: seq<Id>, ghost now: Instant, ghost envs: seq<Env>)
      requires Valid() && waitTask != map[]
      modifies this, client
      ensures TimerReady(old(View()), now) && Enumerates(order, old(waitTask).Keys)
      ensures exists id :: id in old(waitTask)
                && (forall j :: j in old(waitTask) ==> old(waitTask)[id].deadline <= old(waitTask)[j].deadline)
                && now == Latest(old(client.clock), old(waitTask)[id].deadline) + oversleep
      ensures |envs| >= |Fire(outputs, old(View()), order, now).todo|
      ensures View() == Drain(Fire(outputs, old(View()), order, now), envs)
      ensures r.Fail? <==> client.failed
      ensures r.Pass? ==> Valid() && waitTask == Later(old(waitTask), now) && |waitTask| < |old(waitTask)|
      ensures r.Pass? && Disjoint(outputs) ==> TimerOutcome(outputs, old(View()), View(), now)
    {
      hide Coil, LogFine, Disjoint, TimerOutcome, Drain, TimerPlan, AtHead, Sound, Later;
      ghost var before := View();
      var deadline := MinDeadline(waitTask);
      client.Sleep(if client.clock < deadline then deadline - client.clock else 0, oversleep);
      now := client.clock;
      var visited := Visit(waitTask.Keys);
      var supply := seq(3 * |visited| + 1, i requires 0 <= i => envOf(i));
      order, envs := visited, supply;
      TimerPlanSize(outputs, waitTask, order, now);
      if Disjoint(outputs) {
        TimerIsSound(outputs, before, order, now);
      }
      assert exists id :: Due(waitTask, id, now) by {
        var id :| id in waitTask && waitTask[id].deadline == deadline;
        assert Due(waitTask, id, now);
      }
      LaterIsSmaller(waitTask, now);
      fires := fires + 1;
      assert View().(todo := TimerPlan(outputs, waitTask, order, now)) == Fire(outputs, before, order, now);
      r := Expire(visited, supply);
      FineEnd(Fire(outputs, before, order, now), envs);
    }

    method Expire(order: seq<Id>, envs: seq<Env>) returns (r: Outcome)
      requires !client.failed && outputMap.Keys == outputs.Keys && Enumerates(order, waitTask.Keys)
      requires |envs| >= |TimerPlan(outputs, waitTask, order, client.clock)|
      modifies this, client
      ensures View() == Drain(old(View()).(todo := TimerPlan(outputs, old(waitTask), order, old(client.clock))), envs)
      ensures r.Fail? <==> client.failed
      ensures outputMap.Keys == outputs.Keys && (r.Pass? ==> waitTask == Later(old(waitTask), old(client.clock)))
    {
      hide Coil, Drain, ExpirePlan;
      var now := client.clock;
      ghost var start := View().(todo := TimerPlan(outputs, waitTask, order, now));
      var k := 0;
      assert order[0..] == order && envs[0..] == envs;
      for i := 0 to |order|
        invariant !client.failed && waitTask == old(waitTask) && outputMap.Keys == outputs.Keys
        invariant 0 <= k <= |envs| && |envs| - k >= |TimerPlan(outputs, waitTask, order[i..], now)|
        invariant Drain(start, envs) == Drain(View().(todo := TimerPlan(outputs, waitTask, order[i..], now)), envs[k..])
      {
        assert order[i..][0] == order[i] && order[i..][1..] == order[i + 1..];
        var n;
        r, n := ExpireOne(order[i], now, TimerPlan(outputs, waitTask, order[i + 1..], now), envs[k..]);
        if r.Fail? {
          return;
        }
        assert envs[k..][n..] == envs[k + n..];
        k := k + n;
      }
      assert order[|order|..] == [];
      ghost var s1 := View().(todo := [RetainTasks(now)]);
      DrainStep(s1, envs[k..]);
      DrainIdle(Step(s1, envs[k]), envs[k..][1..]);
      waitTask := Later(waitTask, now);
      r := Pass;
    }

    method ExpireOne(id: Id, now: Instant, ghost rest: seq<Op>, envs: seq<Env>) returns (r: Outcome, n: nat)
      requires !client.failed && id in waitTask && outputMap.Keys == outputs.Keys
      requires |envs| >= |ExpirePlan(outputs, waitTask, id, now) + rest|
      modifies client, this`outputMap, this`feedback
      ensures outputMap.Keys == outputs.Keys
      ensures r.Fail? <==> client.failed
      ensures n == |ExpirePlan(outputs, waitTask, id, now)|
      ensures Drain(old(View()).(todo := ExpirePlan(outputs, waitTask, id, now) + rest), envs)
              == if r.Fail? then View() else Drain(View().(todo := rest), envs[n..])
    {
      hide Coil, Spaced, Tracks, Drain;
      var task := waitTask[id];
      if task.deadline <= now && id in outputMap && outputs[id].WOShutter? {
        n := 3;
        var io := outputs[id].io;
        ghost var update := [Op.UpdateState(id, task.target)] + rest;
        assert WagoController.StopShutter(io, Expired) + update == ExpirePlan(outputs, waitTask, id, now) + rest;
        r := StopShutter(io, Expired, update, envs);
        if r.Fail? {
          return;
        }
        DrainStep(View().(todo := update), envs[2..]);
        UpdateState(id, task.target);
        assert envs[2..][1..] == envs[3..];
      } else {
        n := 0;
        assert ExpirePlan(outputs, waitTask, id, now) + rest == rest && envs[0..] == envs;
      }
      r := Pass;
    }

    method KeepAlive(env: Env) returns (r: Outcome)
      requires Valid()
      modifies client
      ensures View() == Apply(outputs, old(View()), Event.KeepAlive(env))
      ensures (r.Fail? <==> client.failed) && (r.Fail? <==> !env.ok) && client.clock == old(client.clock) + env.idle + env.latency
      ensures client.log == old(client.log) && client.lastCoilUpdateInstant == old(client.lastCoilUpdateInstant)
      ensures outputMap == old(outputMap) && waitTask == old(waitTask) && feedback == old(feedback)
      ensures r.Pass? ==> Valid()
    {
      hide Coil, LogFine, AtHead, Disjoint;
      if Disjoint(outputs) {
        ReadKeepsLogFine(outputs, client.View(), env);
        KeepAliveKeepsHead(outputs, View(), env);
      }
      var r', _ := client.ReadDiscreteInput(Address(0), env);
      r := r';
    }

    /** One turn of the loop. A deadline is waited for only when there is a task. */
    method TakeTurn(turn: Turn) returns (r: Outcome, ghost events: seq<Event>)
      requires Valid()
      modifies this, client
      ensures Runs(outputs, old(View()), events, View())
      ensures r.Fail? <==> client.failed
      ensures r.Pass? ==> Valid()
    {
      hide Coil, LogFine, AtHead, Disjoint, Drain, Enumerates, TimerPlan, CommandPlan, TimerOutcome, TimerReady;
      ghost var before := View();
      events := [];
      match turn {
        case CommandArrives(cmd, envOf) =>
          var envs := seq(5, i requires 0 <= i => envOf(i));
          CommandPlanSize(outputs, before, cmd);
          events := DrainIsRun(outputs, Receive(outputs, before, cmd), envs);
          events := TurnIsRun(outputs, before, Command(cmd), events, Drain(Receive(outputs, before, cmd), envs));
          r := HandleCommand(cmd, envs);
        case DeadlinePasses(oversleep, envOf) =>
          if waitTask == map[] {
            return Pass, [];
          }
          ghost var order, now, envs;
          r, order, now, envs := HandleTimer(oversleep, envOf);
          events := DrainIsRun(outputs, Fire(outputs, before, order, now), envs);
          events := TurnIsRun(outputs, before, Timer(order, now), events, View());
        case KeepAliveIsDue(env) =>
          r := KeepAlive(env);
          events := TurnIsRun(outputs, before, Event.KeepAlive(env), [], View());
      }
    }

    /** The whole life of the controller. What it does is a run of the machine, so all that holds of every run holds here: relays
        are protected, timer turns paid for and coils that are on owned, however it is wired; motors are interlocked and travels
        full where the wiring allows it; and with no two pins on one coil, values, coils and tasks agree. */
    method Run(order: seq<Id>, bootEnvs: nat -> Env, turns: seq<Turn>) returns (r: Outcome)
      requires Enumerates(order, outputs.Keys)
      requires View() == Initial(outputs, [], client.clock).(todo := [])
      modifies this, client
      ensures exists events :: Runs(outputs, Initial(outputs, order, old(client.clock)), events, View())
      ensures Spaced(client.log) && fires <= starts
      ensures SafeWiring(outputs) || !Bootable(outputs) ==> Interlocked(outputs, client.log)
      ensures TravelSafe(outputs) || !Bootable(outputs) ==> FullTravel(outputs, client.log)
      ensures r.Pass? ==> Owned(outputs, View())
      ensures Disjoint(outputs) && r.Pass? ==> AtHead(outputs, View())
    {
      hide Coil, Spaced, Tracks, LogFine, AtHead, Disjoint, Drain, Enumerates, Interlocked, FullTravel, SafeWiring,
        Bootable, TravelSafe, Owned;
      ghost var start := Initial(outputs, order, client.clock);
      var supply := seq(3 * |order|, i requires 0 <= i => bootEnvs(i));
      BootPlanSize(outputs, order);
      ghost var events := DrainIsRun(outputs, start, supply);
      r := Initialise(order, supply);
      for i := 0 to |turns|
        invariant Runs(outputs, start, events, View())
        invariant r.Fail? <==> client.failed
        invariant r.Pass? ==> Valid()
      {
        if r.Pass? {
          ghost var before, more := View(), [];
          r, more := TakeTurn(turns[i]);
          RunsConcat(outputs, start, events, before, more, View());
          events := events + more;
        }
      }
      EveryRunIsSafe(outputs, order, old(client.clock), events, View());
    }
  }
}
