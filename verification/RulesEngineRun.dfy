/** The two tasks of the rules engine as the source writes them: loops over rules and actions that write shared cells and send
    commands. What happens at the i-th `await` of the command task is `awaits(i)`. */
module RulesEngineRun {
  import opened Basics
  import opened Channels
  import opened IoValues
  import opened RulesEngine

  lemma {:induction false} EngineRunsConcat(e: Engine, first: seq<EngineStep>, sent: seq<IODataAction>, e1: Engine,
                                            second: seq<EngineStep>, sent1: seq<IODataAction>, e2: Engine)
    requires EngineRuns(e, first, sent, e1) && EngineRuns(e1, second, sent1, e2)
    ensures EngineRuns(e, first + second, sent + sent1, e2)
    decreases |first|
  {
    if first == [] {
      assert first + second == second && sent + sent1 == sent1;
    } else {
      var d := Dispatched(e, first[0]);
      assert (first + second)[0] == first[0] && (first + second)[1..] == first[1..] + second;
      assert (sent + sent1)[|d|..] == sent[|d|..] + sent1;
      EngineRunsConcat(TakeStep(e, first[0]), first[1..], sent[|d|..], e1, second, sent1, e2);
    }
  }

  lemma EngineRunsOne(e: Engine, step: EngineStep)
    requires CanStep(e, step)
    ensures EngineRuns(e, [step], Dispatched(e, step), TakeStep(e, step))
  {
    assert Dispatched(e, step)[|Dispatched(e, step)|..] == [];
    assert [step][1..] == [];
    assert EngineRuns(TakeStep(e, step), [], [], TakeStep(e, step));
  }

  lemma HearOne(start: Engine, heard: seq<IOData>, data: IOData, before: Engine, after: Engine)
    requires EngineRuns(start, Hearing(heard), [], before) && after == Fold(before, data)
    ensures EngineRuns(start, Hearing(heard + [data]), [], after)
  {
    hide Fold;
    assert (heard + [data])[..|heard|] == heard;
    EngineRunsOne(before, Feedback(data));
    EngineRunsConcat(start, Hearing(heard), [], before, [Feedback(data)], [], after);
    var none: seq<IODataAction> := [];
    assert none + none == none;
  }

  /** While one task waits: `arrived` is broadcast, and the feedback task takes up to `turns` turns. */
  datatype Await = Await(arrived: seq<IOData>, turns: nat)

  /** Hearing these messages, one by one. */
  function Hearing(heard: seq<IOData>): seq<EngineStep>
  {
    if heard == [] then [] else Hearing(heard[..|heard| - 1]) + [Feedback(heard[|heard| - 1])]
  }

  class RulesTasks {
    const index: map<Id, seq<Rule>>
    const lagBound: nat
    var inputMap: Values
    var outputMap: Values
    var sent: seq<IODataAction>
    var rx: Channel<IOData>

    ghost predicate Valid()
      reads this
    {
      inputMap.Keys == index.Keys && rx.Valid()
    }

    ghost function View(work: Work): Engine
      reads this
    {
      Engine(inputMap, outputMap, work)
    }

    /** The feedback receiver lags: its next turn is an error, and ends both tasks. */
    ghost predicate Lagging()
      reads this
    {
      rx.Valid() && |rx.Pending()| > lagBound
    }

    constructor (index: map<Id, seq<Rule>>, outputs: set<Id>, lagBound: nat)
      ensures Valid() && this.index == index && this.lagBound == lagBound && sent == [] && rx == Channel([], 0)
      ensures outputMap.Keys == outputs && forall id :: id in outputs ==> outputMap[id].None?
      ensures forall id :: id in index ==> inputMap[id].None?
    {
      this.index, this.lagBound := index, lagBound;
      inputMap := map id | id in index :: None;
      outputMap := map id | id in outputs :: None;
      sent, rx := [], Channel([], 0);
    }

    /** The turns of the feedback task. It waits when there is no message, and ends when it lags. */
    method HandleOutputFeedback(await: Await, ghost work: Work) returns (r: Outcome)
      requires rx.Valid()
      modifies this`outputMap, this`rx
      ensures rx.Valid() && rx.log == old(rx.log) + await.arrived && old(rx.read) <= rx.read
      ensures r.Pass? ==> rx.read == Channel(rx.log, old(rx.read)).Take(await.turns).read
      ensures r.Fail? <==> await.turns > 0 && |rx.log| - old(rx.read) > lagBound
      ensures r.Fail? ==> Lagging()
      ensures EngineRuns(old(View(work)), Hearing(rx.log[old(rx.read)..rx.read]), [], View(work))
      ensures outputMap.Keys == old(outputMap).Keys
    {
      hide Hearing, EngineRuns, Fold;
      ghost var start := View(work);
      ghost var from := rx.read;
      rx := Channel(rx.log + await.arrived, rx.read);
      assert rx.log[from..rx.read] == [];
      assert EngineRuns(start, Hearing([]), [], start) by { HearNone(start); }
      for i := 0 to await.turns
        invariant rx.Valid() && rx.log == old(rx.log) + await.arrived && from <= rx.read
        invariant rx.read == Channel(rx.log, from).Take(i).read
        invariant i > 0 ==> |rx.log| - from <= lagBound
        invariant EngineRuns(start, Hearing(rx.log[from..rx.read]), [], View(work))
        invariant outputMap.Keys == old(outputMap).Keys
      {
        if rx.Pending() != [] {
          if |rx.Pending()| > lagBound {
            return Fail;
          }
          ghost var before := View(work);
          var ioData := rx.Pending()[0];
          assert rx.log[from..rx.read + 1] == rx.log[from..rx.read] + [ioData];
          Hear(ioData, work);
          HearOne(start, rx.log[from..rx.read], ioData, before, View(work));
          rx := rx.Next();
        }
      }
      r := Pass;
    }

    /** `write_io_value` on the shared cell of the output, when there is one. */
    method Hear(ioData: IOData, ghost work: Work)
      modifies this`outputMap
      ensures View(work) == Fold(old(View(work)), ioData)
      ensures outputMap.Keys == old(outputMap).Keys
    {
      if ioData.id in outputMap {
        outputMap := outputMap[ioData.id := Some(ioData.value)];
      }
    }

    /** `tx_output_command.send(cmd).await` */
    method Send(cmd: IODataAction, await: Await, ghost rules: seq<Rule>, ghost actions: seq<IODataAction>)
      returns (r: Outcome, ghost steps: seq<EngineStep>)
      requires rx.Valid()
      modifies this`outputMap, this`sent, this`rx
      ensures rx.Valid() && (r.Fail? ==> Lagging())
      ensures sent == old(sent) + if r.Pass? then [cmd] else []
      ensures EngineRuns(old(View(Sending(cmd, rules, actions))), steps, if r.Pass? then [cmd] else [],
                         View(if r.Pass? then Firing(rules, actions) else Sending(cmd, rules, actions)))
    {
      hide Fold, Hearing;
      ghost var work := Sending(cmd, rules, actions);
      ghost var start, from := View(work), rx.read;
      r := HandleOutputFeedback(await, work);
      steps := Hearing(rx.log[from..rx.read]);
      if r.Pass? {
        EngineRunsOne(View(work), SendCommand);
        EngineRunsConcat(start, steps, [], View(work), [SendCommand], [cmd], View(Firing(rules, actions)));
        assert [] + [cmd] == [cmd];
        steps := steps + [SendCommand];
        sent := sent + [cmd];
      }
    }

    method ExecAction(action: IODataAction, await: Await, ghost rules: seq<Rule>, ghost rest: seq<IODataAction>)
      returns (r: Outcome, ghost steps: seq<EngineStep>, ghost out: seq<IODataAction>, ghost work: Work)
      requires rx.Valid()
      modifies this`outputMap, this`sent, this`rx
      ensures rx.Valid() && (r.Fail? ==> Lagging()) && (r.Pass? ==> work == Firing(rules, rest))
      ensures sent == old(sent) + out
      ensures EngineRuns(old(View(Firing(rules, [action] + rest))), steps, out, View(work))
    {
      hide Evaluate, Fold;
      ghost var start := View(Firing(rules, [action] + rest));
      assert start.work.actions[1..] == rest;
      EngineRunsOne(start, CheckAction);
      if action.id !in outputMap || outputMap[action.id].None? {
        return Pass, [CheckAction], [], Firing(rules, rest);
      }
      ghost var sending := View(Sending(action, rules, rest));
      r, steps := Send(action, await, rules, rest);
      out := if r.Pass? then [action] else [];
      work := if r.Pass? then Firing(rules, rest) else Sending(action, rules, rest);
      EngineRunsConcat(start, [CheckAction], [], sending, steps, out, View(work));
      assert [] + out == out;
      steps := [CheckAction] + steps;
    }

    /** The command task handles one action from the input queue. It is cut short only by a lagging feedback receiver. */
    method HandleAction(ioAction: IODataAction, awaits: nat -> Await) returns (r: Outcome)
      requires Valid()
      modifies this
      ensures Valid() && old(sent) <= sent && (r.Fail? ==> Lagging())
      ensures ioAction.id !in index ==>
                sent == old(sent) + (if r.Pass? then [ioAction] else []) && inputMap == old(inputMap)
      ensures ioAction.id in index && !ioAction.action.SetValue? ==>
                r.Pass? && sent == old(sent) && inputMap == old(inputMap) && outputMap == old(outputMap)
      ensures ioAction.id in index && ioAction.action.SetValue? ==>
                inputMap == old(inputMap)[ioAction.id := Some(ioAction.action.value)]
      ensures ioAction.id in index && ioAction.action.SetValue? && r.Pass? ==>
                var dispatched, fired := sent[|old(sent)|..], FiredActions(index[ioAction.id], inputMap);
                Subsequence(Effective(fired, old(outputMap)), dispatched) && Subsequence(dispatched, Effective(fired, outputMap))
    {
      hide Evaluate, Check, Fold, EngineRuns, Subsequence, FiredActions, Effective;
      if ioAction.id !in inputMap {
        ghost var steps;
        r, steps := Send(ioAction, awaits(0), [], []);
        return;
      }
      if !ioAction.action.SetValue? {
        return Pass;
      }
      ghost var before := View(Idle);
      inputMap := inputMap[ioAction.id := Some(ioAction.action.value)];
      ghost var steps, out, work;
      r, steps, out, work := FireRules(index[ioAction.id], awaits);
      assert sent[|old(sent)|..] == out;
      if r.Pass? {
        EventIsInsensitive(index, before, ioAction, steps, out, View(Idle));
      }
    }

    method FireRules(rules: seq<Rule>, awaits: nat -> Await)
      returns (r: Outcome, ghost steps: seq<EngineStep>, ghost out: seq<IODataAction>, ghost work: Work)
      requires rx.Valid()
      modifies this`outputMap, this`sent, this`rx
      ensures rx.Valid() && (r.Fail? ==> Lagging()) && (r.Pass? ==> work == Idle)
      ensures sent == old(sent) + out
      ensures EngineRuns(old(View(Firing(rules, []))), steps, out, View(work))
    {
      hide Check, Fold, EngineRuns;
      ghost var start := View(Firing(rules, []));
      steps, out := [], [];
      var n := 0;
      assert rules[0..] == rules;
      assert EngineRuns(start, [], [], start) by { EngineRunsNone(start); }
      for i := 0 to |rules|
        invariant rx.Valid() && sent == old(sent) + out && inputMap == old(inputMap)
        invariant EngineRuns(start, steps, out, View(Firing(rules[i..], [])))
      {
        var rule := rules[i];
        ghost var here := View(Firing(rules[i..], []));
        assert rules[i..][0] == rule && rules[i..][1..] == rules[i + 1..];
        var exec := ShouldExec(rule.conditions, inputMap);
        EngineRunsOne(here, EvaluateRule);
        ghost var there := View(Firing(rules[i + 1..], if exec then rule.actions else []));
        EngineRunsConcat(start, steps, out, here, [EvaluateRule], [], there);
        assert out + [] == out;
        steps := steps + [EvaluateRule];
        if exec {
          for j := 0 to |rule.actions|
            invariant rx.Valid() && sent == old(sent) + out && inputMap == old(inputMap)
            invariant EngineRuns(start, steps, out, View(Firing(rules[i + 1..], rule.actions[j..])))
          {
            ghost var e := View(Firing(rules[i + 1..], rule.actions[j..]));
            assert rule.actions[j..] == [rule.actions[j]] + rule.actions[j + 1..];
            ghost var more, sent';
            r, more, sent', work := ExecAction(rule.actions[j], awaits(n), rules[i + 1..], rule.actions[j + 1..]);
            EngineRunsConcat(start, steps, out, e, more, sent', View(work));
            steps, out := steps + more, out + sent';
            if r.Fail? {
              return;
            }
            n := n + 1;
          }
          assert rule.actions[|rule.actions|..] == [];
        }
      }
      ghost var last := View(Firing([], []));
      assert rules[|rules|..] == [];
      EngineRunsOne(last, EvaluateRule);
      EngineRunsConcat(start, steps, out, last, [EvaluateRule], [], View(Idle));
      assert out + [] == out;
      steps, work := steps + [EvaluateRule], Idle;
      r := Pass;
    }

    lemma HearNone(e: Engine)
      ensures EngineRuns(e, Hearing([]), [], e)
    {
    }

    lemma EngineRunsNone(e: Engine)
      ensures EngineRuns(e, [], [], e)
    {
    }
  }
}
