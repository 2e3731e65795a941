/** What a command comes to: the state of the commanded output at the end of the turn, and of the others. */
module WagoControllerCommands {
  import opened Basics
  import opened Coils
  import opened IoValues
  import opened Modbus
  import opened WagoController
  import opened WagoControllerSafety

  /** The state in which a command leaves a shutter, or None when the command is ignored. Anything that is not a shutter value
      stops it; so does asking for the way it already moves. A stopped shutter counts as up, whichever way it went. */
  function NextShutterState(current: Option<IOValue>, action: IOAction): Option<ShutterState>
  {
    match action
    case Stop => Some(Up)
    case Toggle =>
      if current.None? || !current.value.Shutter? then None
      else Some(if Upward(current.value.state) then MovingDown else MovingUp)
    case SetValue(v) =>
      if !v.Shutter? then Some(Up)
      else if v.state.MovingUp? || v.state.MovingDown? then Some(v.state)
      else if v.state.Up? then Some(if current == Some(Shutter(MovingUp)) then Up else MovingUp)
      else Some(if current == Some(Shutter(MovingDown)) then Up else MovingDown)
  }

  /** What the command table comes to. A stop, and a value that no shutter has, stop the motor. Asking for a side starts a move to
      that side, unless the shutter already moves there: then it stops. Asking for a direction starts the move in any case. A toggle
      starts a move to the side opposite to where the shutter is or goes, and is ignored while that is unknown. */
  lemma TableMeans(current: Option<IOValue>, action: IOAction)
    requires current.None? || current.value.Shutter?
    ensures NextShutterState(current, action).None? <==> action.Toggle? && current.None?
    ensures action.Stop? || (action.SetValue? && !action.value.Shutter?) ==> NextShutterState(current, action) == Some(Up)
    ensures action.SetValue? && action.value.Shutter? ==>
              var next, asked := NextShutterState(current, action).value, action.value.state;
              if next.MovingUp? || next.MovingDown? then Upward(next) <==> Upward(asked)
              else next.Up? && (current == Some(Shutter(MovingUp)) || current == Some(Shutter(MovingDown)))
                   && asked == (if current.value.state.MovingUp? then Up else Down)
    ensures action.SetValue? && action.value.Shutter? && current.Some?
            && ((action.value.state.Up? && current.value.state.MovingUp?)
                || (action.value.state.Down? && current.value.state.MovingDown?)) ==>
              NextShutterState(current, action) == Some(Up)
    ensures action.Toggle? && current.Some? ==>
              var next := NextShutterState(current, action).value;
              (next.MovingUp? || next.MovingDown?) && (Upward(next) <==> !Upward(current.value.state))
  {
  }

  /** A digital output takes booleans and toggles, and ignores everything else. */
  lemma DigitalTableMeans(current: bool, action: IOAction)
    ensures NextDigital(current, action) == Some(!current) <==> action.Toggle? || action == SetValue(Bool(!current))
    ensures NextDigital(current, action) == Some(current) <==> action == SetValue(Bool(current))
    ensures NextDigital(current, action).None? <==> action.Stop? || (action.SetValue? && !action.value.Bool?)
  {
  }

  /** The value in which a command leaves a digital output, or None when the command is ignored. */
  function NextDigital(current: bool, action: IOAction): Option<bool>
  {
    match action
    case Toggle => Some(!current)
    case SetValue(Bool(b)) => Some(b)
    case _ => None
  }

  /** The values after the updates among the operations of a turn. */
  function AfterUpdates(values: map<Id, Option<IOValue>>, ops: seq<Op>): map<Id, Option<IOValue>>
    decreases |ops|
  {
    if ops == [] then values
    else AfterUpdates(if ops[0].UpdateState? then values[ops[0].id := Some(ops[0].state)] else values, ops[1..])
  }

  /** One operation of a turn updates the value it says, or none. */
  lemma StepUpdates(s: State, e: Env)
    requires s.todo != [] && !s.todo[0].ReadVar? && !Step(s, e).client.failed
    ensures Step(s, e).todo == s.todo[1..]
    ensures Step(s, e).values
            == if s.todo[0].UpdateState? then s.values[s.todo[0].id := Some(s.todo[0].state)] else s.values
  {
    hide WriteSingleCoil;
  }

  lemma {:induction false} DrainUpdates(s: State, envs: seq<Env>)
    requires |envs| >= |s.todo| && forall op :: op in s.todo ==> !op.ReadVar?
    requires !Drain(s, envs).client.failed
    ensures Drain(s, envs).values == AfterUpdates(s.values, s.todo)
    decreases |s.todo|
  {
    hide Step;
    if s.todo != [] {
      DrainStep(s, envs);
      if !Step(s, envs[0]).client.failed {
        assert !s.todo[0].ReadVar?;
        StepUpdates(s, envs[0]);
        assert forall op :: op in s.todo[1..] ==> op in s.todo;
        DrainUpdates(Step(s, envs[0]), envs[1..]);
      }
    }
  }

  /** Only the last operation of a command updates a value. */
  lemma {:induction false} OnlyLastUpdates(values: map<Id, Option<IOValue>>, ops: seq<Op>, id: Id, v: IOValue)
    requires ops != [] && ops[|ops| - 1] == UpdateState(id, v)
    requires forall i :: 0 <= i < |ops| - 1 ==> !ops[i].UpdateState?
    ensures AfterUpdates(values, ops) == values[id := Some(v)]
  {
    if |ops| > 1 {
      OnlyLastUpdates(values, ops[1..], id, v);
    }
  }

  /** The command is obeyed: a turn that does not fail leaves the commanded output in the state asked for - coils and pending
      task included, since the controller is at a loop head again - and all other outputs with the values they had. */
  lemma CommandIsObeyed(outputs: Outputs, s: State, cmd: IODataAction, envs: seq<Env>)
    requires Disjoint(outputs) && Settled(outputs, s) && s.todo == [] && |envs| >= |CommandPlan(outputs, s, cmd)|
    requires !Drain(Receive(outputs, s, cmd), envs).client.failed
    ensures AtHead(outputs, Drain(Receive(outputs, s, cmd), envs))
    ensures var values' := Drain(Receive(outputs, s, cmd), envs).values;
            if cmd.id !in outputs || outputs[cmd.id].OtherKind? then values' == s.values
            else if outputs[cmd.id].WOShutter? then
              var next := NextShutterState(s.values[cmd.id], cmd.action);
              values' == if next.None? then s.values else s.values[cmd.id := Some(Shutter(next.value))]
            else
              && s.values[cmd.id].Some? && s.values[cmd.id].value.Bool?
              && var next := NextDigital(s.values[cmd.id].value.b, cmd.action);
                 values' == if next.None? then s.values else s.values[cmd.id := Some(Bool(next.value))]
  {
    hide Coil, LogFine, Disjoint, Drain, Sound, AfterUpdates, LastWrite, CommandPlan, NextShutterState, NextDigital, Agrees;
    var s0 := Receive(outputs, s, cmd);
    CommandIsSound(outputs, s, cmd);
    assert Fine(outputs, Drain(s0, envs)) by { SoundEnds(outputs, s0, envs); }
    PlanMeaning(outputs, s, cmd);
    if s0.todo == [] {
      DrainIdle(s0, envs);
    } else {
      PlanUpdatesLast(outputs, s, cmd);
      DrainUpdates(s0, envs);
      var last := s0.todo[|s0.todo| - 1];
      OnlyLastUpdates(s.values, s0.todo, last.id, last.state);
    }
  }

  /** What the plan of a command updates the value to. */
  lemma PlanMeaning(outputs: Outputs, s: State, cmd: IODataAction)
    requires AtHead(outputs, s)
    ensures var plan := CommandPlan(outputs, s, cmd);
            if cmd.id !in outputs || outputs[cmd.id].OtherKind? then plan == []
            else if outputs[cmd.id].WOShutter? then
              var next := NextShutterState(s.values[cmd.id], cmd.action);
              if next.None? then plan == []
              else plan != [] && plan[|plan| - 1] == UpdateState(cmd.id, Shutter(next.value))
            else
              && s.values[cmd.id].Some? && s.values[cmd.id].value.Bool?
              && var next := NextDigital(s.values[cmd.id].value.b, cmd.action);
                 if next.None? then plan == []
                 else plan != [] && plan[|plan| - 1] == UpdateState(cmd.id, Bool(next.value))
  {
    hide CommandPlan, NextShutterState, NextDigital, Coil, LastWrite;
    if cmd.id !in outputs || outputs[cmd.id].OtherKind? {
      NoPlan(outputs, s, cmd);
    } else if outputs[cmd.id].WOShutter? {
      ShutterPlanMeaning(outputs, s, cmd);
    } else {
      assert Agrees(s, cmd.id, outputs[cmd.id]);
      DigitalPlanMeaning(outputs, s, cmd);
    }
  }

  lemma NoPlan(outputs: Outputs, s: State, cmd: IODataAction)
    requires cmd.id !in outputs || outputs[cmd.id].OtherKind?
    ensures CommandPlan(outputs, s, cmd) == []
  {
  }

  lemma ShutterPlanMeaning(outputs: Outputs, s: State, cmd: IODataAction)
    requires cmd.id in outputs && outputs[cmd.id].WOShutter? && cmd.id in s.values
    requires s.values[cmd.id].None? || s.values[cmd.id].value.Shutter?
    ensures var plan, next := CommandPlan(outputs, s, cmd), NextShutterState(s.values[cmd.id], cmd.action);
            if next.None? then plan == []
            else plan != [] && plan[|plan| - 1] == UpdateState(cmd.id, Shutter(next.value))
  {
  }

  lemma DigitalPlanMeaning(outputs: Outputs, s: State, cmd: IODataAction)
    requires cmd.id in outputs && outputs[cmd.id].WODigital? && cmd.id in s.values
    requires s.values[cmd.id].Some? && s.values[cmd.id].value.Bool?
    ensures var plan, next := CommandPlan(outputs, s, cmd), NextDigital(s.values[cmd.id].value.b, cmd.action);
            if next.None? then plan == []
            else plan != [] && plan[|plan| - 1] == UpdateState(cmd.id, Bool(next.value))
  {
  }

  lemma PlanUpdatesLast(outputs: Outputs, s: State, cmd: IODataAction)
    requires CommandPlan(outputs, s, cmd) != []
    ensures var plan := CommandPlan(outputs, s, cmd);
            && plan[|plan| - 1].UpdateState? && plan[|plan| - 1].id == cmd.id
            && (forall i :: 0 <= i < |plan| - 1 ==> !plan[i].UpdateState?)
            && (forall op :: op in plan ==> !op.ReadVar?)
  {
  }
}
