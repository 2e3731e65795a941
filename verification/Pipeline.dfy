/** The running system: rules engine, dispatcher and output controllers, joined by bounded queues and the feedback broadcast.

    A queue is a log with a cursor; so is the broadcast, which never blocks its senders but ends a receiver that falls too far
    behind. A step is what one task does between two awaits. A failed request or a lagging receiver ends the program: the
    system is `down` and takes no further step. */
module Pipeline {
  import opened Basics
  import opened Channels
  import opened IoValues
  import opened RulesEngine
  import Config
  import HomeSnapshot
  import Modbus
  import W = WagoController

  datatype IOCmd = Action(cmd: IODataAction) | GetAllData

  /** The fixed part: the rooms, the rule index, the ids of the shared output map, the dispatcher's map from ids to controllers,
      the outputs of each controller, the capacity of the queues, and how far a broadcast receiver may lag. */
  datatype Home = Home(
    rooms: seq<Config.Room>,
    index: map<Id, seq<Rule>>,
    outputIds: set<Id>,
    route: map<Id, nat>,
    controllers: seq<W.Outputs>,
    capacity: nat,
    lagBound: nat)

  datatype Node = Node(state: W.State, queue: Channel<IODataAction>)

  /** An answer to a request for the home data: `at` commands had been taken before the request, `heard` feedback messages
      folded in. */
  datatype Answer = Answer(home: seq<HomeSnapshot.RoomData>, at: nat, heard: nat)

  datatype Sys = Sys(
    engine: Engine,
    input: Channel<IOCmd>,
    output: Channel<IODataAction>,
    holding: Option<IODataAction>,
    nodes: seq<Node>,
    feedback: Channel<IOData>,
    answers: seq<Answer>,
    down: bool)

  datatype Step =
    // from outside
    | SubmitInput(request: IOCmd)
    | SubmitOutput(cmd: IODataAction)
    | Sense(data: IOData)
    // of the program, whenever its interval has passed
    | KeepAlive(k: nat, env: Modbus.Env)
    // of the program, when there is something to do
    | Take
    | Rules(step: EngineStep)
    | Hear
    | Route
    | Deliver
    | Controller(k: nat, ev: W.Event)

  /** The program takes the step by itself. */
  predicate Internal(step: Step)
  {
    !(step.SubmitInput? || step.SubmitOutput? || step.Sense?)
  }

  /** A step of the program that gets something done: any but a keep-alive. */
  predicate Works(step: Step)
  {
    Internal(step) && !step.KeepAlive?
  }

  ghost predicate WellFormed(home: Home)
  {
    && home.capacity > 0
    && home.index.Keys !! home.outputIds
    && (forall input :: input in Config.Inputs(home.rooms) ==> input.id in home.index)
    && (forall output :: output in Config.Outputs(home.rooms) ==> output.id in home.outputIds)
    && (forall id :: id in home.route ==> home.route[id] < |home.controllers| && id in home.controllers[home.route[id]])
    && (forall k, id :: 0 <= k < |home.controllers| && id in home.controllers[k] ==>
        id in home.outputIds && id in home.route && home.route[id] == k)
  }

  function StartEngine(home: Home): Engine
  {
    Engine(map id | id in home.index :: None, map id | id in home.outputIds :: None, Idle)
  }

  function Initial(home: Home, orders: seq<seq<Id>>, now: Instant): Sys
    requires |orders| == |home.controllers|
  {
    Sys(StartEngine(home), Channel([], 0), Channel([], 0), None,
        seq(|orders|, k requires 0 <= k < |orders| => Node(W.Initial(home.controllers[k], orders[k], now), Channel([], 0))),
        Channel([], 0), [], false)
  }

  ghost predicate ChannelsValid(home: Home, s: Sys)
  {
    && s.input.Valid() && s.output.Valid() && s.feedback.Valid()
    && |s.nodes| == |home.controllers|
    && forall k :: 0 <= k < |s.nodes| ==> s.nodes[k].queue.Valid()
  }

  ghost predicate Enabled(home: Home, s: Sys, step: Step)
    requires ChannelsValid(home, s)
  {
    && !s.down
    && match step
       case SubmitInput(_) => s.input.HasRoom(home.capacity)
       case SubmitOutput(_) => s.output.HasRoom(home.capacity)
       case Sense(data) => data.id in home.index
       case KeepAlive(k, env) => k < |s.nodes| && W.Enabled(s.nodes[k].state, W.KeepAlive(env))
       case Take => s.engine.work.Idle? && s.input.Pending() != []
       case Rules(es) => !es.Feedback? && CanStep(s.engine, es) && (es.SendCommand? ==> s.output.HasRoom(home.capacity))
       case Hear => s.feedback.Pending() != []
       case Route => s.holding.None? && s.output.Pending() != []
       case Deliver =>
         && s.holding.Some? && s.holding.value.id in home.route && home.route[s.holding.value.id] < |s.nodes|
         && s.nodes[home.route[s.holding.value.id]].queue.HasRoom(home.capacity)
       case Controller(k, ev) =>
         && k < |s.nodes| && !ev.KeepAlive? && W.Enabled(s.nodes[k].state, ev)
         && (ev.Command? ==> s.nodes[k].queue.Pending() != [] && ev.cmd == s.nodes[k].queue.Pending()[0])
  }

  function TakeRequest(home: Home, s: Sys): Sys
    requires s.input.Valid() && s.input.Pending() != []
  {
    var s' := s.(input := s.input.Next());
    match s.input.Pending()[0]
    case Action(cmd) => s'.(engine := Begin(home.index, s.engine, cmd))
    case GetAllData =>
      s'.(answers := s.answers + [Answer(HomeSnapshot.MakeRooms(home.rooms, s.engine.inputs, s.engine.outputs),
                                         s.input.read, s.feedback.read)])
  }

  /** Controller `k` takes a step of its own; what it reports goes to everybody. */
  function Control(home: Home, s: Sys, k: nat, ev: W.Event): Sys
    requires k < |s.nodes| && k < |home.controllers|
    requires ev.Operate? ==> s.nodes[k].state.todo != []
  {
    var node := s.nodes[k];
    var state := W.Apply(home.controllers[k], node.state, ev);
    var queue := if ev.Command? then node.queue.Next() else node.queue;
    var told := if |node.state.feedback| <= |state.feedback| then state.feedback[|node.state.feedback|..] else [];
    s.(nodes := s.nodes[k := Node(state, queue)],
       feedback := s.feedback.(log := s.feedback.log + told),
       down := state.client.failed)
  }

  function Apply(home: Home, s: Sys, step: Step): Sys
    requires ChannelsValid(home, s) && Enabled(home, s, step)
  {
    match step
    case SubmitInput(request) => s.(input := s.input.Put(request))
    case SubmitOutput(cmd) => s.(output := s.output.Put(cmd))
    case Sense(data) => s.(feedback := s.feedback.Put(data))
    case KeepAlive(k, env) => Control(home, s, k, W.KeepAlive(env))
    case Take => TakeRequest(home, s)
    case Rules(es) =>
      s.(engine := TakeStep(s.engine, es),
         output := if es.SendCommand? then s.output.Put(s.engine.work.cmd) else s.output)
    case Hear =>
      if |s.feedback.Pending()| > home.lagBound then s.(down := true)
      else s.(engine := Fold(s.engine, s.feedback.Pending()[0]), feedback := s.feedback.Next())
    case Route =>
      var cmd := s.output.Pending()[0];
      s.(output := s.output.Next(), holding := if cmd.id in home.route then Some(cmd) else None)
    case Deliver =>
      var k := home.route[s.holding.value.id];
      s.(holding := None, nodes := s.nodes[k := s.nodes[k].(queue := s.nodes[k].queue.Put(s.holding.value))])
    case Controller(k, ev) => Control(home, s, k, ev)
  }

  lemma StepKeepsChannels(home: Home, s: Sys, step: Step)
    requires ChannelsValid(home, s) && Enabled(home, s, step)
    ensures ChannelsValid(home, Apply(home, s, step))
  {
  }

  /** `s` is reached from `s0` by the steps of a run. */
  ghost predicate Runs(home: Home, s0: Sys, steps: seq<Step>, s: Sys)
    requires ChannelsValid(home, s0)
    decreases |steps|
  {
    if steps == [] then s == s0
    else
      && Enabled(home, s0, steps[0])
      && (StepKeepsChannels(home, s0, steps[0]); Runs(home, Apply(home, s0, steps[0]), steps[1..], s))
  }
}
