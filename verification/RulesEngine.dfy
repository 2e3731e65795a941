/** The rules engine (`rules_engine.rs`): one task takes commands and fires rules, another folds the feedback into the shared
    output map, and they take turns at every `await`. */
module RulesEngine {
  import opened Basics
  import opened IoValues

  datatype Operator = Equal | NotEqual | Greater | GreaterOrEqual | Lower | LowerOrEqual

  datatype Condition = Start | Standard(input: Id, operator: Operator, value: IOValue)

  datatype Rule = Rule(name: string, conditions: seq<Condition>, actions: seq<IODataAction>)

  predicate Satisfies(value: IOValue, operator: Operator, bound: IOValue)
  {
    match operator
    case Equal => value == bound
    case NotEqual => value != bound
    case Greater => PartialCompare(value, bound) == Some(Ordering.Greater)
    case GreaterOrEqual => PartialCompare(value, bound) in {Some(Ordering.Greater), Some(Ordering.Equal)}
    case Lower => PartialCompare(value, bound) == Some(Ordering.Less)
    case LowerOrEqual => PartialCompare(value, bound) in {Some(Ordering.Less), Some(Ordering.Equal)}
  }

  /** Between integers the operators are the integer relations. Nothing else is ordered, so there "at least" and "at most" fail
      even where "equal" holds. */
  lemma OperatorsOrderIntegersOnly(v: IOValue, w: IOValue)
    ensures v.Int? && w.Int? ==>
              && (Satisfies(v, Operator.Greater, w) <==> v.i > w.i) && (Satisfies(v, GreaterOrEqual, w) <==> v.i >= w.i)
              && (Satisfies(v, Lower, w) <==> v.i < w.i) && (Satisfies(v, LowerOrEqual, w) <==> v.i <= w.i)
    ensures !(v.Int? && w.Int?) ==>
              !Satisfies(v, Operator.Greater, w) && !Satisfies(v, GreaterOrEqual, w) && !Satisfies(v, Lower, w)
              && !Satisfies(v, LowerOrEqual, w)
    ensures Satisfies(v, Operator.Equal, w) <==> !Satisfies(v, NotEqual, w)
    ensures (Satisfies(v, GreaterOrEqual, w) <==> Satisfies(v, Operator.Greater, w) || Satisfies(v, Operator.Equal, w)) <==>
            v != w || v.Int?
  {
  }

  /** "Equal" is identity: each value equals itself, and what it relates is the same value, in either order. Between integers it is
      "at least" and "at most" together, so that exactly one of "greater", "equal" and "lower" holds. */
  lemma EqualIsIdentity(v: IOValue, w: IOValue)
    ensures Satisfies(v, Operator.Equal, v) && !Satisfies(v, NotEqual, v)
    ensures Satisfies(v, Operator.Equal, w) ==> v == w
    ensures Satisfies(v, Operator.Equal, w) <==> Satisfies(w, Operator.Equal, v)
    ensures v.Int? && w.Int? ==>
              && (Satisfies(v, Operator.Equal, w) <==> Satisfies(v, GreaterOrEqual, w) && Satisfies(v, LowerOrEqual, w))
              && (Satisfies(v, Operator.Greater, w) || Satisfies(v, Operator.Equal, w) || Satisfies(v, Lower, w))
              && !(Satisfies(v, Operator.Greater, w) && Satisfies(v, Operator.Equal, w))
              && !(Satisfies(v, Lower, w) && Satisfies(v, Operator.Equal, w))
              && !(Satisfies(v, Operator.Greater, w) && Satisfies(v, Lower, w))
  {
  }

  predicate ShouldExec(conditions: seq<Condition>, inputs: Values)
  {
    if conditions == [] then true
    else match conditions[0]
      case Start => ShouldExec(conditions[1..], inputs)
      case Standard(input, operator, bound) =>
        if input !in inputs || inputs[input].None? then false
        else Satisfies(inputs[input].value, operator, bound) && ShouldExec(conditions[1..], inputs)
  }

  /** A rule fires exactly when every standard condition names an input with a value that satisfies it. */
  lemma {:induction false} ShouldExecIffAllHold(conditions: seq<Condition>, inputs: Values)
    ensures ShouldExec(conditions, inputs) <==>
            forall i :: 0 <= i < |conditions| && conditions[i].Standard? ==>
              && conditions[i].input in inputs && inputs[conditions[i].input].Some?
              && Satisfies(inputs[conditions[i].input].value, conditions[i].operator, conditions[i].value)
  {
    if conditions != [] {
      ShouldExecIffAllHold(conditions[1..], inputs);
      assert forall i :: 0 < i < |conditions| ==> conditions[i] == conditions[1..][i - 1];
      assert forall i :: 0 <= i < |conditions[1..]| ==> conditions[1..][i] == conditions[i + 1];
    }
  }

  /** A rule with a single condition, in terms of what is stored for the input. */
  lemma SingleCondition(input: Id, bound: IOValue, inputs: Values)
    ensures ShouldExec([Standard(input, Operator.Equal, bound)], inputs) <==> input in inputs && inputs[input] == Some(bound)
    ensures ShouldExec([Standard(input, NotEqual, bound)], inputs) <==>
            input in inputs && inputs[input].Some? && inputs[input] != Some(bound)
    ensures ShouldExec([Start], inputs)
  {
    var equal, other := [Standard(input, Operator.Equal, bound)], [Standard(input, NotEqual, bound)];
    ShouldExecIffAllHold(equal, inputs);
    ShouldExecIffAllHold(other, inputs);
    ShouldExecIffAllHold([Start], inputs);
    assert equal[0].Standard? && other[0].Standard?;
  }

  // ----- the engine as a machine -----

  /** What the command task is doing: waiting for a command, between two awaits of the rule loops, or waiting for room to send
      `cmd`. `rules` are the rules still to look at, `actions` what is left of the current one. */
  datatype Work =
    | Idle
    | Firing(rules: seq<Rule>, actions: seq<IODataAction>)
    | Sending(cmd: IODataAction, rules: seq<Rule>, actions: seq<IODataAction>)

  datatype Engine = Engine(inputs: Values, outputs: Values, work: Work)

  /** `write_io_value` on the cell of an id, when there is one. */
  function WriteValue(values: Values, id: Id, value: IOValue): Values
  {
    if id in values then values[id := Some(value)] else values
  }

  predicate HasValue(values: Values, id: Id)
  {
    id in values && values[id].Some?
  }

  /** A command from the input queue: a value for an input, or something to pass on to the output queue. */
  function Begin(index: map<Id, seq<Rule>>, e: Engine, cmd: IODataAction): Engine
  {
    if cmd.id in index then
      if cmd.action.SetValue? then
        Engine(WriteValue(e.inputs, cmd.id, cmd.action.value), e.outputs, Firing(index[cmd.id], []))
      else e
    else e.(work := Sending(cmd, [], []))
  }

  /** The next rule: its actions if it fires, otherwise nothing. After the last rule the event is over. */
  function Evaluate(e: Engine): Engine
    requires e.work.Firing? && e.work.actions == []
  {
    if e.work.rules == [] then e.(work := Idle)
    else
      var rule := e.work.rules[0];
      e.(work := Firing(e.work.rules[1..], if ShouldExec(rule.conditions, e.inputs) then rule.actions else []))
  }

  /** The next action: dropped when its output has no value yet. */
  function Check(e: Engine): Engine
    requires e.work.Firing? && e.work.actions != []
  {
    var action := e.work.actions[0];
    if HasValue(e.outputs, action.id) then e.(work := Sending(action, e.work.rules, e.work.actions[1..]))
    else e.(work := Firing(e.work.rules, e.work.actions[1..]))
  }

  function Sent(e: Engine): Engine
    requires e.work.Sending?
  {
    e.(work := Firing(e.work.rules, e.work.actions))
  }

  /** One message of the feedback task. */
  function Fold(e: Engine, data: IOData): Engine
  {
    e.(outputs := WriteValue(e.outputs, data.id, data.value))
  }

  datatype EngineStep = EvaluateRule | CheckAction | SendCommand | Feedback(data: IOData)

  predicate CanStep(e: Engine, step: EngineStep)
  {
    match step
    case EvaluateRule => e.work.Firing? && e.work.actions == []
    case CheckAction => e.work.Firing? && e.work.actions != []
    case SendCommand => e.work.Sending?
    case Feedback(_) => true
  }

  function TakeStep(e: Engine, step: EngineStep): Engine
    requires CanStep(e, step)
  {
    match step
    case EvaluateRule => Evaluate(e)
    case CheckAction => Check(e)
    case SendCommand => Sent(e)
    case Feedback(data) => Fold(e, data)
  }

  /** The commands that a step puts on the output queue. */
  function Dispatched(e: Engine, step: EngineStep): seq<IODataAction>
    requires CanStep(e, step)
  {
    if step.SendCommand? then [e.work.cmd] else []
  }

  /** `e'` is reached from `e` by the steps, which dispatch `sent`. */
  ghost predicate EngineRuns(e: Engine, steps: seq<EngineStep>, sent: seq<IODataAction>, e': Engine)
    decreases |steps|
  {
    if steps == [] then e' == e && sent == []
    else
      && CanStep(e, steps[0])
      && Dispatched(e, steps[0]) <= sent
      && EngineRuns(TakeStep(e, steps[0]), steps[1..], sent[|Dispatched(e, steps[0])|..], e')
  }

  // ----- what one event dispatches -----

  /** The actions of the rules that fire on given inputs, in order. */
  function FiredActions(rules: seq<Rule>, inputs: Values): seq<IODataAction>
  {
    if rules == [] then []
    else if ShouldExec(rules[0].conditions, inputs) then rules[0].actions + FiredActions(rules[1..], inputs)
    else FiredActions(rules[1..], inputs)
  }

  /** The actions whose output has a value: what an uninterrupted run dispatches. */
  function Effective(actions: seq<IODataAction>, outputs: Values): seq<IODataAction>
  {
    if actions == [] then []
    else if HasValue(outputs, actions[0].id) then [actions[0]] + Effective(actions[1..], outputs)
    else Effective(actions[1..], outputs)
  }

  /** Firing goes rule by rule: a rule contributes its actions when all its conditions hold, and nothing otherwise. */
  lemma {:induction false} FiredActionsConcat(a: seq<Rule>, b: seq<Rule>, inputs: Values)
    ensures FiredActions(a + b, inputs) == FiredActions(a, inputs) + FiredActions(b, inputs)
  {
    if a == [] {
      assert a + b == b;
    } else {
      assert (a + b)[0] == a[0] && (a + b)[1..] == a[1..] + b;
      FiredActionsConcat(a[1..], b, inputs);
    }
  }

  lemma FiredActionsOfOne(rule: Rule, inputs: Values)
    ensures FiredActions([], inputs) == []
    ensures (forall i :: 0 <= i < |rule.conditions| && rule.conditions[i].Standard? ==>
               && rule.conditions[i].input in inputs && inputs[rule.conditions[i].input].Some?
               && Satisfies(inputs[rule.conditions[i].input].value, rule.conditions[i].operator, rule.conditions[i].value)) ==>
              FiredActions([rule], inputs) == rule.actions
    ensures (exists i :: 0 <= i < |rule.conditions| && rule.conditions[i].Standard?
               && !(rule.conditions[i].input in inputs && inputs[rule.conditions[i].input].Some?
                    && Satisfies(inputs[rule.conditions[i].input].value, rule.conditions[i].operator, rule.conditions[i].value))) ==>
              FiredActions([rule], inputs) == []
  {
    ShouldExecIffAllHold(rule.conditions, inputs);
    assert FiredActions([], inputs) == [];
    assert [rule][1..] == [];
  }

  /** The filter on actions goes action by action: one is dispatched exactly when its output has a cell with a value. */
  lemma {:induction false} EffectiveConcat(a: seq<IODataAction>, b: seq<IODataAction>, outputs: Values)
    ensures Effective(a + b, outputs) == Effective(a, outputs) + Effective(b, outputs)
  {
    if a == [] {
      assert a + b == b;
    } else {
      assert (a + b)[0] == a[0] && (a + b)[1..] == a[1..] + b;
      EffectiveConcat(a[1..], b, outputs);
    }
  }

  lemma EffectiveOfOne(action: IODataAction, outputs: Values)
    ensures Effective([], outputs) == []
    ensures Effective([action], outputs) == if action.id in outputs && outputs[action.id].Some? then [action] else []
  {
    assert [action][1..] == [];
  }

  /** Every output with a value in `before` has one in `after`. */
  ghost predicate NoLoss(before: Values, after: Values)
  {
    forall id :: HasValue(before, id) ==> HasValue(after, id)
  }

  /** The actions an engine has still to look at. */
  function Remaining(e: Engine): seq<IODataAction>
  {
    match e.work
    case Idle => []
    case Firing(rules, actions) => actions + FiredActions(rules, e.inputs)
    case Sending(_, rules, actions) => actions + FiredActions(rules, e.inputs)
  }

  /** What an engine would dispatch, uninterrupted, if the outputs were `outputs`: first what it is about to send. */
  function Expected(e: Engine, outputs: Values): seq<IODataAction>
  {
    if e.work.Sending? then [e.work.cmd] + Effective(Remaining(e), outputs) else Effective(Remaining(e), outputs)
  }

  lemma {:induction false} SubsequenceOfLonger<T>(a: seq<T>, b: seq<T>, x: T)
    requires Subsequence(a, b)
    ensures Subsequence(a, [x] + b)
  {
    assert ([x] + b)[1..] == b;
  }

  lemma SubsequenceBothLonger<T>(a: seq<T>, b: seq<T>, x: T)
    requires Subsequence(a, b)
    ensures Subsequence([x] + a, [x] + b)
  {
    assert ([x] + b)[1..] == b && ([x] + a)[1..] == a;
  }

  /** Feedback never takes a value away, and the command task does not touch the outputs. */
  lemma StepKeepsValues(e: Engine, step: EngineStep)
    requires CanStep(e, step)
    ensures NoLoss(e.outputs, TakeStep(e, step).outputs)
    ensures TakeStep(e, step).inputs == e.inputs
  {
  }

  lemma {:induction false} RunKeepsValues(e: Engine, steps: seq<EngineStep>, sent: seq<IODataAction>, e': Engine)
    requires EngineRuns(e, steps, sent, e')
    ensures NoLoss(e.outputs, e'.outputs) && e'.inputs == e.inputs
    decreases |steps|
  {
    if steps != [] {
      StepKeepsValues(e, steps[0]);
      RunKeepsValues(TakeStep(e, steps[0]), steps[1..], sent[|Dispatched(e, steps[0])|..], e');
    }
  }

  /** The more outputs have a value, the more is dispatched. */
  lemma {:induction false} EffectiveMonotone(actions: seq<IODataAction>, before: Values, after: Values, tail: seq<IODataAction>)
    requires NoLoss(before, after) && Subsequence(Effective(actions, after), tail)
    ensures Subsequence(Effective(actions, before), tail)
    decreases |tail|, |actions|
  {
    if actions != [] {
      var rest := actions[1..];
      if !HasValue(after, actions[0].id) {
        assert !HasValue(before, actions[0].id);
        EffectiveMonotone(rest, before, after, tail);
      } else if tail != [] {
        assert Effective(actions, after)[1..] == Effective(rest, after);
        if tail[0] == actions[0] && Subsequence(Effective(rest, after), tail[1..]) {
          EffectiveMonotone(rest, before, after, tail[1..]);
          if HasValue(before, actions[0].id) {
            SubsequenceBothLonger(Effective(rest, before), tail[1..], tail[0]);
          } else {
            SubsequenceOfLonger(Effective(rest, before), tail[1..], tail[0]);
          }
          assert [tail[0]] + tail[1..] == tail;
        } else {
          EffectiveMonotone(actions, before, after, tail[1..]);
          SubsequenceOfLonger(Effective(actions, before), tail[1..], tail[0]);
          assert [tail[0]] + tail[1..] == tail;
        }
      }
    }
  }

  /** `sent` lies between what `e` would dispatch with its own outputs and with `after`. */
  ghost predicate Bounded(e: Engine, sent: seq<IODataAction>, after: Values)
  {
    Subsequence(Expected(e, e.outputs), sent) && Subsequence(sent, Expected(e, after))
  }

  lemma BoundedBeforeEvaluate(e: Engine, sent: seq<IODataAction>, after: Values)
    requires e.work.Firing? && e.work.actions == [] && Bounded(Evaluate(e), sent, after)
    ensures Bounded(e, sent, after)
  {
    assert Remaining(Evaluate(e)) == Remaining(e);
  }

  lemma BoundedBeforeCheck(e: Engine, sent: seq<IODataAction>, after: Values)
    requires e.work.Firing? && e.work.actions != [] && Bounded(Check(e), sent, after) && NoLoss(e.outputs, after)
    ensures Bounded(e, sent, after)
  {
    var action := e.work.actions[0];
    assert Remaining(e)[0] == action;
    assert Remaining(e)[1..] == Remaining(Check(e));
    if !HasValue(e.outputs, action.id) && HasValue(after, action.id) {
      SubsequenceOfLonger(sent, Effective(Remaining(Check(e)), after), action);
    }
  }

  lemma BoundedBeforeSend(e: Engine, sent: seq<IODataAction>, after: Values)
    requires e.work.Sending? && Bounded(Sent(e), sent, after)
    ensures Bounded(e, [e.work.cmd] + sent, after)
  {
    SubsequenceBothLonger(Expected(Sent(e), e.outputs), sent, e.work.cmd);
    SubsequenceBothLonger(sent, Expected(Sent(e), after), e.work.cmd);
  }

  lemma BoundedBeforeFeedback(e: Engine, data: IOData, sent: seq<IODataAction>, after: Values)
    requires Bounded(Fold(e, data), sent, after)
    ensures Bounded(e, sent, after)
  {
    StepKeepsValues(e, Feedback(data));
    if e.work.Sending? {
      HeadThenTail(e.work.cmd, Remaining(e), e.outputs, Fold(e, data).outputs, sent);
    } else {
      EffectiveMonotone(Remaining(e), e.outputs, Fold(e, data).outputs, sent);
    }
  }

  /** From any point of an event to its end: what is dispatched lies between what the outputs as they are and the outputs as
      they become would let through. */
  lemma {:induction false} DispatchIsBounded(e: Engine, steps: seq<EngineStep>, sent: seq<IODataAction>, e': Engine)
    requires EngineRuns(e, steps, sent, e') && e'.work.Idle?
    ensures Bounded(e, sent, e'.outputs)
    decreases |steps|
  {
    hide Bounded, Fold, Check, Evaluate, Sent;
    if steps == [] {
      assert Bounded(e, sent, e'.outputs) by { NothingIsBounded(e, e'.outputs); }
    } else {
      var e1 := TakeStep(e, steps[0]);
      var sent1 := sent[|Dispatched(e, steps[0])|..];
      DispatchIsBounded(e1, steps[1..], sent1, e');
      match steps[0] {
        case EvaluateRule =>
          BoundedBeforeEvaluate(e, sent, e'.outputs);
        case CheckAction =>
          RunKeepsValues(e, steps, sent, e');
          BoundedBeforeCheck(e, sent, e'.outputs);
        case SendCommand =>
          assert sent == [e.work.cmd] + sent1;
          BoundedBeforeSend(e, sent1, e'.outputs);
        case Feedback(data) =>
          BoundedBeforeFeedback(e, data, sent, e'.outputs);
      }
    }
  }

  lemma NothingIsBounded(e: Engine, after: Values)
    requires e.work.Idle?
    ensures Bounded(e, [], after)
  {
  }

  lemma {:induction false} HeadThenTail(x: IODataAction, actions: seq<IODataAction>, before: Values, after: Values,
                                        sent: seq<IODataAction>)
    requires NoLoss(before, after) && Subsequence([x] + Effective(actions, after), sent)
    ensures Subsequence([x] + Effective(actions, before), sent)
    decreases |sent|
  {
    var a, b := [x] + Effective(actions, after), [x] + Effective(actions, before);
    assert a[1..] == Effective(actions, after) && b[1..] == Effective(actions, before);
    if a[0] == sent[0] && Subsequence(a[1..], sent[1..]) {
      EffectiveMonotone(actions, before, after, sent[1..]);
    } else {
      HeadThenTail(x, actions, before, after, sent[1..]);
    }
  }

  /** Interleaving does not matter much: whatever feedback is folded in while an input event is processed, all its rules see
      the inputs as the event left them, and the commands dispatched lie, in order, between those of an uninterrupted run on
      the outputs at its start and those of one on the outputs at its end. */
  lemma EventIsInsensitive(index: map<Id, seq<Rule>>, e: Engine, cmd: IODataAction,
                           steps: seq<EngineStep>, sent: seq<IODataAction>, e': Engine)
    requires e.work.Idle? && cmd.id in index && cmd.id in e.inputs && cmd.action.SetValue?
    requires EngineRuns(Begin(index, e, cmd), steps, sent, e') && e'.work.Idle?
    ensures e'.inputs == e.inputs[cmd.id := Some(cmd.action.value)]
    ensures NoLoss(e.outputs, e'.outputs)
    ensures Subsequence(Effective(FiredActions(index[cmd.id], e'.inputs), e.outputs), sent)
    ensures Subsequence(sent, Effective(FiredActions(index[cmd.id], e'.inputs), e'.outputs))
  {
    var start := Begin(index, e, cmd);
    RunKeepsValues(start, steps, sent, e');
    DispatchIsBounded(start, steps, sent, e');
    assert Remaining(start) == FiredActions(index[cmd.id], e'.inputs);
  }

  /** A command for anything but an input is passed on as it is, once, whatever is folded in meanwhile. */
  lemma CommandIsPassedOn(index: map<Id, seq<Rule>>, e: Engine, cmd: IODataAction, steps: seq<EngineStep>,
                          sent: seq<IODataAction>, e': Engine)
    requires e.work.Idle? && cmd.id !in index
    requires EngineRuns(Begin(index, e, cmd), steps, sent, e') && e'.work.Idle?
    ensures sent == [cmd] && e'.inputs == e.inputs && NoLoss(e.outputs, e'.outputs)
  {
    var start := Begin(index, e, cmd);
    RunKeepsValues(start, steps, sent, e');
    DispatchIsBounded(start, steps, sent, e');
    assert Expected(start, start.outputs) == [cmd] && Expected(start, e'.outputs) == [cmd];
    SubsequenceAntisymmetric(sent, [cmd]);
  }

  /** An input takes nothing but values: any other action on it changes and sends nothing. */
  lemma OtherActionIsIgnored(index: map<Id, seq<Rule>>, e: Engine, cmd: IODataAction, steps: seq<EngineStep>,
                             sent: seq<IODataAction>, e': Engine)
    requires e.work.Idle? && cmd.id in index && !cmd.action.SetValue?
    requires EngineRuns(Begin(index, e, cmd), steps, sent, e') && e'.work.Idle?
    ensures sent == [] && e'.inputs == e.inputs && NoLoss(e.outputs, e'.outputs)
  {
    var start := Begin(index, e, cmd);
    RunKeepsValues(start, steps, sent, e');
    DispatchIsBounded(start, steps, sent, e');
    SubsequenceShorter(sent, Expected(start, e'.outputs));
  }

  /** With no feedback in between, the two bounds meet. */
  lemma UninterruptedEvent(index: map<Id, seq<Rule>>, e: Engine, cmd: IODataAction,
                           steps: seq<EngineStep>, sent: seq<IODataAction>, e': Engine)
    requires e.work.Idle? && cmd.id in index && cmd.id in e.inputs && cmd.action.SetValue?
    requires EngineRuns(Begin(index, e, cmd), steps, sent, e') && e'.work.Idle? && e'.outputs == e.outputs
    ensures sent == Effective(FiredActions(index[cmd.id], e'.inputs), e.outputs)
  {
    EventIsInsensitive(index, e, cmd, steps, sent, e');
    SubsequenceAntisymmetric(sent, Effective(FiredActions(index[cmd.id], e'.inputs), e.outputs));
  }

  lemma {:induction false} SubsequenceShorter<T>(a: seq<T>, b: seq<T>)
    requires Subsequence(a, b)
    ensures |a| <= |b| && (|a| == |b| ==> a == b)
    decreases |b|
  {
    if a != [] {
      if a[0] == b[0] && Subsequence(a[1..], b[1..]) {
        SubsequenceShorter(a[1..], b[1..]);
        assert a == [a[0]] + a[1..] && b == [b[0]] + b[1..];
      } else {
        SubsequenceShorter(a, b[1..]);
      }
    }
  }

  lemma SubsequenceAntisymmetric<T>(a: seq<T>, b: seq<T>)
    requires Subsequence(a, b) && Subsequence(b, a)
    ensures a == b
  {
    SubsequenceShorter(a, b);
    SubsequenceShorter(b, a);
  }
}
