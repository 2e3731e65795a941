/** What the output controller reports: its local values are the last values it sent, from the end of the initialisation on. */
module WagoControllerFeedback {
  import opened Basics
  import opened IoValues
  import opened Modbus
  import opened FeedbackLog
  import opened WagoController

  /** The value that a reader of the feedback has for an output: a shutter without a local value was announced as up. */
  function Shown(value: Option<IOValue>): IOValue
  {
    if value.None? then Shutter(Up) else value.value
  }

  predicate Reports(op: Op, id: Id)
  {
    (op.ReadVar? && op.id == id) || (op.Announce? && op.data.id == id)
  }

  /** Output `id` is reported as it is, or, before its turn of the initialisation, not at all. */
  ghost predicate ReportedOrPending(s: State, id: Id, kind: OutputKind)
  {
    && id in s.values
    && if s.values[id].Some? then LastSent(s.feedback, id) == s.values[id]
       else
         && (LastSent(s.feedback, id).None? || (kind.WOShutter? && LastSent(s.feedback, id) == Some(Shutter(Up))))
         && (kind.OtherKind? || s.client.failed || LastSent(s.feedback, id).Some? || exists op :: op in s.todo && Reports(op, id))
  }

  /** An operation of the turn in progress is about an output of the right kind; announcements are for values not set yet. */
  ghost predicate OpFits(outputs: Outputs, s: State, op: Op)
  {
    match op
    case ReadVar(id, _) => id in outputs && outputs[id].WODigital?
    case UpdateState(id, _) => id in outputs
    case Announce(data) =>
      data.id in outputs && outputs[data.id].WOShutter? && data.value == Shutter(Up)
      && data.id in s.values && s.values[data.id].None?
    case _ => true
  }

  ghost predicate Mirrors(outputs: Outputs, s: State)
  {
    && s.values.Keys == outputs.Keys
    && (forall id :: id in outputs ==> ReportedOrPending(s, id, outputs[id]))
    && (forall op :: op in s.todo ==> OpFits(outputs, s, op))
    && (forall op, op' :: op in s.todo && op' in s.todo && op.Announce? ==> !op'.UpdateState?)
  }

  /** The messages that an operation adds to the feedback. */
  function Told(op: Op, e: Env): seq<IOData>
  {
    match op
    case ReadVar(id, pin) => if Coils.InputAddress(pin).Some? && e.ok then [IOData(id, Bool(e.bit))] else []
    case Announce(data) => [data]
    case UpdateState(id, value) => [IOData(id, value)]
    case _ => []
  }

  lemma StepTells(s: State, e: Env)
    requires s.todo != []
    ensures Step(s, e).feedback == s.feedback + Told(s.todo[0], e)
    ensures forall id :: id in s.values && s.values[id].Some? ==> id in Step(s, e).values && Step(s, e).values[id].Some?
  {
  }

  lemma StepKeepsMirror(outputs: Outputs, s: State, e: Env)
    requires Mirrors(outputs, s) && s.todo != [] && !s.client.failed
    ensures Mirrors(outputs, Step(s, e))
    ensures forall d :: d in Told(s.todo[0], e) ==> d.id in outputs
  {
    hide LastSent, Modbus.WriteSingleCoil, ReportedOrPending, OpFits;
    assert OpFits(outputs, s, s.todo[0]);
    StepAddsNoKeys(outputs, s, e);
    forall id | id in outputs
      ensures ReportedOrPending(Step(s, e), id, outputs[id])
    {
      StepKeepsReport(outputs, s, e, id);
    }
    forall op | op in Step(s, e).todo
      ensures op in s.todo && OpFits(outputs, Step(s, e), op)
    {
      StepKeepsFit(outputs, s, e, op);
    }
  }

  lemma StepAddsNoKeys(outputs: Outputs, s: State, e: Env)
    requires s.todo != [] && OpFits(outputs, s, s.todo[0]) && s.values.Keys == outputs.Keys
    ensures Step(s, e).values.Keys == outputs.Keys
    ensures forall d :: d in Told(s.todo[0], e) ==> d.id in outputs
  {
  }

  lemma StepKeepsFit(outputs: Outputs, s: State, e: Env, op: Op)
    requires s.todo != [] && op in Step(s, e).todo && OpFits(outputs, s, s.todo[0])
    requires op in s.todo ==> OpFits(outputs, s, op) && (op.Announce? ==> !s.todo[0].UpdateState?)
    ensures op in s.todo && OpFits(outputs, Step(s, e), op)
  {
    assert s.todo == [s.todo[0]] + s.todo[1..];
    assert op in s.todo[1..];
  }

  lemma StepKeepsReport(outputs: Outputs, s: State, e: Env, id: Id)
    requires Mirrors(outputs, s) && s.todo != [] && !s.client.failed && id in outputs
    ensures ReportedOrPending(Step(s, e), id, outputs[id])
  {
    hide LastSent, Step, Reports;
    var op, s' := s.todo[0], Step(s, e);
    assert OpFits(outputs, s, op) && ReportedOrPending(s, id, outputs[id]);
    StepReports(s, e, id);
    if !s'.client.failed && s.values[id].None? && LastSent(s.feedback, id).None? && !outputs[id].OtherKind? {
      var op' :| op' in s.todo && Reports(op', id);
      assert s.todo == [op] + s.todo[1..];
      assert op' == op || op' in s'.todo;
    }
  }

  /** What one operation does to the value and the last report of an output. */
  lemma StepReports(s: State, e: Env, id: Id)
    requires s.todo != [] && !s.client.failed && id in s.values
    ensures var op, s' := s.todo[0], Step(s, e);
            && id in s'.values
            && (s'.client.failed || s'.todo == s.todo[1..])
            && (if op.Announce? && op.data.id == id then
                  s'.values[id] == s.values[id] && LastSent(s'.feedback, id) == Some(op.data.value)
                else
                  || (s'.values[id] == s.values[id] && LastSent(s'.feedback, id) == LastSent(s.feedback, id))
                  || (s'.values[id].Some? && LastSent(s'.feedback, id) == s'.values[id]))
            && (!s'.client.failed && Reports(op, id) ==> LastSent(s'.feedback, id).Some?)
  {
    hide LastSent, Modbus.WriteSingleCoil;
    StepTells(s, e);
    var told := Told(s.todo[0], e);
    if told == [] {
      assert s.feedback + [] == s.feedback;
    } else {
      LastSentAppend(s.feedback, told[0]);
      assert told == [told[0]];
    }
  }

  lemma {:induction false} BootPlanReports(outputs: Outputs, order: seq<Id>)
    requires forall id :: id in order ==> id in outputs
    ensures forall id :: id in order && !outputs[id].OtherKind? ==> exists op :: op in BootPlan(outputs, order) && Reports(op, id)
    ensures forall op :: op in BootPlan(outputs, order) ==> op.SetVar? || op.ReadVar? || op.Announce?
    ensures forall op :: op in BootPlan(outputs, order) && op.ReadVar? ==> op.id in outputs && outputs[op.id].WODigital?
    ensures forall op :: op in BootPlan(outputs, order) && op.Announce? ==>
              op.data.id in outputs && outputs[op.data.id].WOShutter? && op.data.value == Shutter(Up)
  {
    if order != [] {
      BootPlanReports(outputs, order[1..]);
      var id := order[0];
      var plan := BootPlan(outputs, order);
      assert plan == BootOutput(outputs, id) + BootPlan(outputs, order[1..]);
      match outputs[id] {
        case WODigital(pin) => assert Reports(plan[0], id) && plan[0] in plan;
        case WOShutter(io) => assert Reports(plan[2], id) && plan[2] in plan;
        case OtherKind =>
      }
      forall j | j in order && j != id && !outputs[j].OtherKind?
        ensures exists op :: op in plan && Reports(op, j)
      {
        var op :| op in BootPlan(outputs, order[1..]) && Reports(op, j);
        assert op in plan;
      }
    }
  }

  lemma BootMirrors(outputs: Outputs, order: seq<Id>, now: Instant)
    requires Enumerates(order, outputs.Keys)
    ensures Mirrors(outputs, Initial(outputs, order, now))
  {
    BootPlanReports(outputs, order);
  }

  lemma {:induction false} TimerPlanFits(outputs: Outputs, s: State, order: seq<Id>, now: Instant)
    ensures forall op :: op in TimerPlan(outputs, s.tasks, order, now) ==> OpFits(outputs, s, op) && !op.Announce?
  {
    if order != [] {
      TimerPlanFits(outputs, s, order[1..], now);
    }
  }

  lemma TurnKeepsMirror(outputs: Outputs, s: State, ev: Event)
    requires Mirrors(outputs, s) && Enabled(s, ev) && !ev.Operate?
    ensures Mirrors(outputs, Apply(outputs, s, ev)) && Apply(outputs, s, ev).feedback == s.feedback
  {
    hide LastSent;
    var s' := Apply(outputs, s, ev);
    if ev.Timer? {
      TimerPlanFits(outputs, s, ev.order, ev.now);
    }
    forall id | id in outputs
      ensures ReportedOrPending(s', id, outputs[id])
    {
      assert ReportedOrPending(s, id, outputs[id]);
    }
  }

  /** At the end of every turn the feedback shows the local values, and it shows every output. */
  lemma HeadIsReported(outputs: Outputs, s: State, id: Id)
    requires Mirrors(outputs, s) && s.todo == [] && !s.client.failed && id in outputs && !outputs[id].OtherKind?
    ensures id in s.values && LastSent(s.feedback, id) == Some(Shown(s.values[id]))
    ensures s.values[id].None? ==> outputs[id].WOShutter?
  {
    assert ReportedOrPending(s, id, outputs[id]);
  }
}
