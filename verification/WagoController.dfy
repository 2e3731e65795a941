/** The WAGO Modbus output controller (`wago_modbus_controller.rs`, `task.rs`) as a machine on values.

    A turn of the source's `select!` loop - and the initialisation before it - is a list of operations, `todo`, fixed
    when the turn begins. Every operation is one step, so everything that can happen at an `await` can happen between
    two of them. A failed request ends the run: `client.failed` is set and nothing is left to do. */
module WagoController {
  import opened Basics
  import opened Coils
  import opened IoValues
  import opened Modbus

  datatype UpDown = UpDown(varUp: Var, varDown: Var, time: nat)

  datatype OutputKind = WODigital(pin: Var) | WOShutter(io: UpDown) | OtherKind

  type Outputs = map<Id, OutputKind>

  datatype Task = Task(deadline: Instant, target: IOValue)

  datatype Op =
    | ReadVar(id: Id, pin: Var)
    | SetVar(pin: Var, value: bool, reason: Reason)
    | Announce(data: IOData)
    | UpdateState(id: Id, state: IOValue)
    | StartTask(id: Id, duration: nat, target: IOValue)
    | RemoveTask(id: Id)
    | RetainTasks(now: Instant)

  /** `starts` counts the moves started, `fires` the turns taken by the timer branch. */
  datatype State = State(
    values: map<Id, Option<IOValue>>,
    tasks: map<Id, Task>,
    client: Client,
    feedback: seq<IOData>,
    todo: seq<Op>,
    starts: nat,
    fires: nat)

  // ----- operations -----

  function Update(s: State, id: Id, value: IOValue): State
  {
    s.(values := s.values[id := Some(value)], feedback := s.feedback + [IOData(id, value)])
  }

  function Exec(s: State, op: Op, e: Env): State
  {
    match op
    case ReadVar(id, pin) =>
      if InputAddress(pin).None? then s.(client := s.client.(failed := true))
      else
        var s' := s.(client := ReadInputs(s.client, e));
        if e.ok then Update(s', id, Bool(e.bit)) else s'
    case SetVar(pin, value, reason) =>
      (match CoilAddress(pin)
       case None => s.(client := s.client.(failed := true))
       case Some(a) => s.(client := WriteSingleCoil(s.client, a, value, reason, e)))
    case Announce(data) => s.(feedback := s.feedback + [data])
    case UpdateState(id, value) => Update(s, id, value)
    case StartTask(id, duration, target) =>
      var now := s.client.clock + e.idle;
      s.(tasks := s.tasks[id := Task(now + duration, target)],
         client := s.client.(clock := now),
         starts := s.starts + 1)
    case RemoveTask(id) => s.(tasks := s.tasks - {id})
    case RetainTasks(now) => s.(tasks := Later(s.tasks, now))
  }

  /** The tasks that a timer turn at `now` leaves in place. */
  function Later(tasks: map<Id, Task>, now: Instant): map<Id, Task>
  {
    map id | id in tasks && tasks[id].deadline > now :: tasks[id]
  }

  function Step(s: State, e: Env): (s': State)
    requires s.todo != []
    ensures |s'.todo| < |s.todo|
  {
    var s' := Exec(s.(todo := s.todo[1..]), s.todo[0], e);
    if s'.client.failed then s'.(todo := []) else s'
  }

  /** Runs the turn in progress to its end. */
  function Drain(s: State, envs: seq<Env>): (s': State)
    requires |envs| >= |s.todo|
    ensures s'.todo == []
    decreases |s.todo|
  {
    if s.todo == [] then s else Drain(Step(s, envs[0]), envs[1..])
  }

  // ----- initialisation -----

  function StopShutter(io: UpDown, reason: Reason): seq<Op>
  {
    [SetVar(io.varDown, false, reason), SetVar(io.varUp, false, reason)]
  }

  function BootOutput(outputs: Outputs, id: Id): seq<Op>
  {
    if id !in outputs then []
    else match outputs[id]
      case WODigital(pin) => [ReadVar(id, pin)]
      case WOShutter(io) => StopShutter(io, Boot) + [Announce(IOData(id, Shutter(Up)))]
      case OtherKind => []
  }

  function BootPlan(outputs: Outputs, order: seq<Id>): seq<Op>
  {
    if order == [] then [] else BootOutput(outputs, order[0]) + BootPlan(outputs, order[1..])
  }

  /** The controller as it starts at time `now`; `order` is the order in which its output map happens to be visited. */
  function Initial(outputs: Outputs, order: seq<Id>, now: Instant): State
  {
    State(map id | id in outputs :: None, map[], Client(now, map[], [], false), [], BootPlan(outputs, order), 0, 0)
  }

  // ----- command branch -----

  datatype Decision = Skip | Act(value: Option<IOValue>)

  function NewValue(current: Option<IOValue>, action: IOAction): Decision
  {
    match action
    case SetValue(v) => Act(Some(v))
    case Toggle =>
      if current.None? then Skip
      else (match ToggleValue(current.value)
            case Some(v) => Act(Some(v))
            case None => Skip)
    case Stop => Act(None)
  }

  /** The move a shutter is asked for, or None for a stop. Asking for the way it already moves is a stop. */
  function ShutterCommand(current: Option<IOValue>, newValue: Option<IOValue>): Option<ShutterState>
  {
    match newValue
    case Some(Shutter(state)) =>
      if (state == Up && current == Some(Shutter(MovingUp))) || (state == Down && current == Some(Shutter(MovingDown)))
      then None
      else Some(state)
    case _ => None
  }

  function MovePlan(id: Id, io: UpDown, command: ShutterState): seq<Op>
  {
    var (pin, next, target) :=
      if command in {Up, MovingUp} then (io.varUp, MovingUp, Up) else (io.varDown, MovingDown, Down);
    StopShutter(io, Commanded)
    + [SetVar(pin, true, Commanded), StartTask(id, io.time, Shutter(target)), UpdateState(id, Shutter(next))]
  }

  function StopPlan(id: Id, io: UpDown): seq<Op>
  {
    StopShutter(io, Commanded) + [RemoveTask(id), UpdateState(id, Shutter(Up))]
  }

  function CommandPlan(outputs: Outputs, s: State, cmd: IODataAction): seq<Op>
  {
    if cmd.id !in outputs || cmd.id !in s.values then []
    else
      var current := s.values[cmd.id];
      match NewValue(current, cmd.action)
      case Skip => []
      case Act(newValue) =>
        match outputs[cmd.id]
        case WODigital(pin) =>
          if newValue.Some? && newValue.value.Bool? then
            [SetVar(pin, newValue.value.b, Commanded), UpdateState(cmd.id, newValue.value)]
          else []
        case WOShutter(io) =>
          (match ShutterCommand(current, newValue)
           case Some(command) => MovePlan(cmd.id, io, command)
           case None => StopPlan(cmd.id, io))
        case OtherKind => []
  }

  function Receive(outputs: Outputs, s: State, cmd: IODataAction): State
  {
    s.(todo := CommandPlan(outputs, s, cmd))
  }

  // ----- timer branch -----

  /** The operations for one task of the timer branch. A task for anything but a shutter only draws a warning. */
  function ExpirePlan(outputs: Outputs, tasks: map<Id, Task>, id: Id, now: Instant): seq<Op>
  {
    if id in tasks && tasks[id].deadline <= now && id in outputs && outputs[id].WOShutter? then
      StopShutter(outputs[id].io, Expired) + [UpdateState(id, tasks[id].target)]
    else []
  }

  function TimerPlan(outputs: Outputs, tasks: map<Id, Task>, order: seq<Id>, now: Instant): seq<Op>
  {
    if order == [] then [RetainTasks(now)]
    else ExpirePlan(outputs, tasks, order[0], now) + TimerPlan(outputs, tasks, order[1..], now)
  }

  /** The timer branch is ready at `now`: there are tasks, and the least deadline has passed. */
  ghost predicate TimerReady(s: State, now: Instant)
  {
    s.client.clock <= now && exists id :: id in s.tasks && s.tasks[id].deadline <= now
  }

  /** A timer turn that samples `now`; `order` is the order in which the tasks happen to be visited. */
  function Fire(outputs: Outputs, s: State, order: seq<Id>, now: Instant): State
  {
    s.(client := s.client.(clock := now), todo := TimerPlan(outputs, s.tasks, order, now), fires := s.fires + 1)
  }

  // ----- runs -----

  datatype Event =
    | Operate(env: Env)
    | Command(cmd: IODataAction)
    | Timer(order: seq<Id>, now: Instant)
    | KeepAlive(env: Env)

  ghost predicate Enabled(s: State, ev: Event)
  {
    && !s.client.failed
    && match ev
       case Operate(_) => s.todo != []
       case Command(_) => s.todo == []
       case Timer(order, now) => s.todo == [] && TimerReady(s, now) && Enumerates(order, s.tasks.Keys)
       case KeepAlive(_) => s.todo == []
  }

  function Apply(outputs: Outputs, s: State, ev: Event): State
    requires ev.Operate? ==> s.todo != []
  {
    match ev
    case Operate(e) => Step(s, e)
    case Command(cmd) => Receive(outputs, s, cmd)
    case Timer(order, now) => Fire(outputs, s, order, now)
    case KeepAlive(e) => s.(client := ReadInputs(s.client, e))
  }

  /** `s` is reached from `s0` by the events of a run. */
  ghost predicate Runs(outputs: Outputs, s0: State, events: seq<Event>, s: State)
    decreases |events|
  {
    if events == [] then s == s0
    else Enabled(s0, events[0]) && Runs(outputs, Apply(outputs, s0, events[0]), events[1..], s)
  }

  lemma {:induction false} RunsConcat(outputs: Outputs, s0: State, first: seq<Event>, s1: State, second: seq<Event>, s2: State)
    requires Runs(outputs, s0, first, s1) && Runs(outputs, s1, second, s2)
    ensures Runs(outputs, s0, first + second, s2)
    decreases |first|
  {
    if first == [] {
      assert first + second == second;
    } else {
      assert (first + second)[0] == first[0] && (first + second)[1..] == first[1..] + second;
      RunsConcat(outputs, Apply(outputs, s0, first[0]), first[1..], s1, second, s2);
    }
  }

  /** Running a turn to its end is a run of single operations, and of nothing else. */
  lemma {:induction false} DrainIsRun(outputs: Outputs, s: State, envs: seq<Env>) returns (events: seq<Event>)
    requires |envs| >= |s.todo| && (s.client.failed ==> s.todo == [])
    ensures Runs(outputs, s, events, Drain(s, envs))
    ensures forall ev :: ev in events ==> ev.Operate?
    decreases |s.todo|
  {
    events := [];
    if s.todo != [] {
      var rest := DrainIsRun(outputs, Step(s, envs[0]), envs[1..]);
      events := [Operate(envs[0])] + rest;
      assert events[1..] == rest;
    }
  }

  lemma CommandPlanSize(outputs: Outputs, s: State, cmd: IODataAction)
    ensures |CommandPlan(outputs, s, cmd)| <= 5
  {
  }

  lemma {:induction false} TimerPlanSize(outputs: Outputs, tasks: map<Id, Task>, order: seq<Id>, now: Instant)
    ensures |TimerPlan(outputs, tasks, order, now)| <= 3 * |order| + 1
  {
    if order != [] {
      TimerPlanSize(outputs, tasks, order[1..], now);
    }
  }

  lemma {:induction false} BootPlanSize(outputs: Outputs, order: seq<Id>)
    ensures |BootPlan(outputs, order)| <= 3 * |order|
  {
    if order != [] {
      BootPlanSize(outputs, order[1..]);
    }
  }
}
