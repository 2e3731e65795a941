/** Building the contexts (`io_context.rs`): cells per id, the per-input index of rules, the grouping of outputs by controller
    address, and the dispatcher that routes output commands to the controllers. */
module IoContext {
  import opened Basics
  import opened Channels
  import opened IoValues
  import opened Config
  import opened RulesEngine
  import Decimal
  import W = WagoController

  datatype InputContext = InputContext(input: Input, rules: seq<Rule>, value: Option<IOValue>)

  datatype OutputContext = OutputContext(output: Output, value: Option<IOValue>)

  // ----- contexts -----

  /** When an id occurs more than once the last occurrence wins. */
  function LastInput(inputs: seq<Input>, id: Id): Option<Input>
  {
    if inputs == [] then None
    else if inputs[|inputs| - 1].id == id then Some(inputs[|inputs| - 1])
    else LastInput(inputs[..|inputs| - 1], id)
  }

  function LastOutput(outputs: seq<Output>, id: Id): Option<Output>
  {
    if outputs == [] then None
    else if outputs[|outputs| - 1].id == id then Some(outputs[|outputs| - 1])
    else LastOutput(outputs[..|outputs| - 1], id)
  }

  /** One more input: for its id it takes the place of all before it. */
  lemma LastInputAppend(inputs: seq<Input>, input: Input, id: Id)
    ensures LastInput([], id) == None
    ensures LastInput(inputs + [input], id) == if input.id == id then Some(input) else LastInput(inputs, id)
  {
    assert (inputs + [input])[..|inputs|] == inputs;
  }

  lemma LastOutputAppend(outputs: seq<Output>, output: Output, id: Id)
    ensures LastOutput([], id) == None
    ensures LastOutput(outputs + [output], id) == if output.id == id then Some(output) else LastOutput(outputs, id)
  {
    assert (outputs + [output])[..|outputs|] == outputs;
  }

  /** The condition makes its rule fire when input `id` changes. */
  predicate Names(condition: Condition, id: Id)
  {
    id != "" && condition.Standard? && condition.input == id
  }

  /** `rule`, once for each of the conditions that names `id`. */
  function Copies(rule: Rule, conditions: seq<Condition>, id: Id): seq<Rule>
  {
    if conditions == [] then []
    else
      var last := |conditions| - 1;
      Copies(rule, conditions[..last], id) + (if Names(conditions[last], id) then [rule] else [])
  }

  /** The index entry of an input: the rules in configuration order, one occurrence per condition naming the input. */
  function RulesFor(rules: seq<Rule>, id: Id): seq<Rule>
  {
    if rules == [] then []
    else
      var last := |rules| - 1;
      RulesFor(rules[..last], id) + Copies(rules[last], rules[last].conditions, id)
  }

  method RegisterInputs(rooms: seq<Room>) returns (m: map<Id, InputContext>)
    ensures forall id :: id in m <==> LastInput(Inputs(rooms), id).Some?
    ensures forall id :: id in m ==> m[id] == InputContext(LastInput(Inputs(rooms), id).value, [], None)
  {
    m := map[];
    for i := 0 to |rooms|
      invariant forall id :: id in m <==> LastInput(Inputs(rooms[..i]), id).Some?
      invariant forall id :: id in m ==> m[id] == InputContext(LastInput(Inputs(rooms[..i]), id).value, [], None)
    {
      var inputs := rooms[i].inputs;
      ghost var before := Inputs(rooms[..i]);
      assert before + inputs[..0] == before;
      for j := 0 to |inputs|
        invariant forall id :: id in m <==> LastInput(before + inputs[..j], id).Some?
        invariant forall id :: id in m ==> m[id] == InputContext(LastInput(before + inputs[..j], id).value, [], None)
      {
        m := m[inputs[j].id := InputContext(inputs[j], [], None)];
        ghost var list := before + inputs[..j + 1];
        assert list[|list| - 1] == inputs[j] && list[..|list| - 1] == before + inputs[..j];
      }
      assert rooms[..i + 1][..i] == rooms[..i] && inputs[..|inputs|] == inputs;
      assert Inputs(rooms[..i + 1]) == before + inputs;
    }
    assert rooms[..|rooms|] == rooms;
  }

  /** Every entry has grown by the copies of `rule` that the conditions make. */
  ghost predicate Entered(m: map<Id, InputContext>, m': map<Id, InputContext>, rule: Rule, conditions: seq<Condition>)
  {
    && m'.Keys == m.Keys
    && forall id :: id in m ==> m'[id] == m[id].(rules := m[id].rules + Copies(rule, conditions, id))
  }

  lemma EnteredStep(m: map<Id, InputContext>, before: map<Id, InputContext>, after: map<Id, InputContext>, rule: Rule,
                    conditions: seq<Condition>, condition: Condition)
    requires Entered(m, before, rule, conditions) && after.Keys == before.Keys
    requires forall id :: id in before ==>
               after[id] == if Names(condition, id) then before[id].(rules := before[id].rules + [rule]) else before[id]
    ensures Entered(m, after, rule, conditions + [condition])
  {
    assert (conditions + [condition])[..|conditions|] == conditions;
  }

  /** Enters a rule into the index, once for each condition that names an input of the map. */
  method IndexRule(m: map<Id, InputContext>, rule: Rule) returns (m': map<Id, InputContext>)
    ensures m'.Keys == m.Keys
    ensures forall id :: id in m ==> m'[id] == m[id].(rules := m[id].rules + Copies(rule, rule.conditions, id))
    ensures forall id :: id in m && id != "" ==>
              |m'[id].rules| == |m[id].rules|
                + |set j | 0 <= j < |rule.conditions| && rule.conditions[j].Standard? && rule.conditions[j].input == id|
  {
    hide Copies;
    m' := m;
    var conditions := rule.conditions;
    assert Entered(m, m', rule, conditions[..0]) by { NothingEntered(m, rule); }
    for j := 0 to |conditions|
      invariant Entered(m, m', rule, conditions[..j])
    {
      ghost var before := m';
      var condition := conditions[j];
      if condition.Standard? && condition.input != "" && condition.input in m' {
        var context := m'[condition.input];
        m' := m'[condition.input := context.(rules := context.rules + [rule])];
      }
      assert conditions[..j + 1] == conditions[..j] + [condition];
      EnteredStep(m, before, m', rule, conditions[..j], condition);
    }
    assert conditions[..|conditions|] == conditions;
    forall id | id in m && id != ""
      ensures |m'[id].rules| == |m[id].rules|
                + |set j | 0 <= j < |rule.conditions| && rule.conditions[j].Standard? && rule.conditions[j].input == id|
    {
      CopiesCount(rule, conditions, id);
    }
  }

  /** A rule is copied once for each of its conditions on the input, whatever the operator. */
  lemma {:induction false} CopiesCount(rule: Rule, conditions: seq<Condition>, id: Id)
    requires id != ""
    ensures |Copies(rule, conditions, id)|
            == |set j | 0 <= j < |conditions| && conditions[j].Standard? && conditions[j].input == id|
    ensures forall r :: r in Copies(rule, conditions, id) ==> r == rule
  {
    if conditions != [] {
      var last := |conditions| - 1;
      CopiesCount(rule, conditions[..last], id);
      var before := set j | 0 <= j < last && conditions[..last][j].Standard? && conditions[..last][j].input == id;
      var all := set j | 0 <= j < |conditions| && conditions[j].Standard? && conditions[j].input == id;
      if conditions[last].Standard? && conditions[last].input == id {
        assert all == before + {last};
      } else {
        assert all == before;
      }
    }
  }

  lemma NothingEntered(m: map<Id, InputContext>, rule: Rule)
    ensures Entered(m, m, rule, [])
  {
  }

  /** `make_input_context_map` */
  method MakeInputContextMap(rooms: seq<Room>, rules: seq<Rule>) returns (m: map<Id, InputContext>)
    ensures forall id :: id in m <==> LastInput(Inputs(rooms), id).Some?
    ensures forall id :: id in m ==> m[id] == InputContext(LastInput(Inputs(rooms), id).value, RulesFor(rules, id), None)
    ensures forall id :: id in m && id != "" ==> exists at ::
              PlacesInOrder(at, rules, id) && HasAllPlaces(at, rules, id) && HasRulesAt(m[id].rules, at, rules)
  {
    hide Copies, LastInput, Inputs, PlacesInOrder, HasAllPlaces, HasRulesAt;
    m := RegisterInputs(rooms);
    ghost var registered := m;
    for i := 0 to |rules|
      invariant m.Keys == registered.Keys
      invariant forall id :: id in m ==> m[id] == registered[id].(rules := RulesFor(rules[..i], id))
    {
      m := IndexRule(m, rules[i]);
      assert rules[..i + 1][..i] == rules[..i];
    }
    assert rules[..|rules|] == rules;
    forall id | id in m && id != ""
      ensures exists at ::
                PlacesInOrder(at, rules, id) && HasAllPlaces(at, rules, id) && HasRulesAt(m[id].rules, at, rules)
    {
      var at := EntryListsConditions(rules, id);
    }
  }

  /** `make_output_context_map` */
  method MakeOutputContextMap(rooms: seq<Room>) returns (m: map<Id, OutputContext>)
    ensures forall id :: id in m <==> LastOutput(Outputs(rooms), id).Some?
    ensures forall id :: id in m ==> m[id] == OutputContext(LastOutput(Outputs(rooms), id).value, None)
  {
    m := map[];
    for i := 0 to |rooms|
      invariant forall id :: id in m <==> LastOutput(Outputs(rooms[..i]), id).Some?
      invariant forall id :: id in m ==> m[id] == OutputContext(LastOutput(Outputs(rooms[..i]), id).value, None)
    {
      var outputs := rooms[i].outputs;
      ghost var before := Outputs(rooms[..i]);
      assert before + outputs[..0] == before;
      for j := 0 to |outputs|
        invariant forall id :: id in m <==> LastOutput(before + outputs[..j], id).Some?
        invariant forall id :: id in m ==> m[id] == OutputContext(LastOutput(before + outputs[..j], id).value, None)
      {
        m := m[outputs[j].id := OutputContext(outputs[j], None)];
        ghost var list := before + outputs[..j + 1];
        assert list[|list| - 1] == outputs[j] && list[..|list| - 1] == before + outputs[..j];
      }
      assert rooms[..i + 1][..i] == rooms[..i] && outputs[..|outputs|] == outputs;
      assert Outputs(rooms[..i + 1]) == before + outputs;
    }
    assert rooms[..|rooms|] == rooms;
  }

  // ----- the index against a scan of all rules -----

  /** What a scan of the whole configuration would fire for input `id`: each rule, as often as it names the input, when its
      conditions hold. */
  function ScanRules(rules: seq<Rule>, id: Id, inputs: Values): seq<IODataAction>
  {
    if rules == [] then []
    else ScanConditions(rules[0], rules[0].conditions, id, inputs) + ScanRules(rules[1..], id, inputs)
  }

  function ScanConditions(rule: Rule, conditions: seq<Condition>, id: Id, inputs: Values): seq<IODataAction>
  {
    if conditions == [] then []
    else
      (if conditions[0].Standard? && conditions[0].input == id && id != "" && ShouldExec(rule.conditions, inputs) then rule.actions
       else [])
      + ScanConditions(rule, conditions[1..], id, inputs)
  }

  lemma {:induction false} CopiesFront(rule: Rule, conditions: seq<Condition>, id: Id)
    requires conditions != []
    ensures Copies(rule, conditions, id)
            == (if Names(conditions[0], id) then [rule] else []) + Copies(rule, conditions[1..], id)
  {
    var last := |conditions| - 1;
    if last > 0 {
      CopiesFront(rule, conditions[..last], id);
      assert conditions[..last][1..] == conditions[1..][..last - 1];
      assert conditions[1..][last - 1] == conditions[last];
    }
  }

  lemma {:induction false} RulesForFront(rules: seq<Rule>, id: Id)
    requires rules != []
    ensures RulesFor(rules, id) == Copies(rules[0], rules[0].conditions, id) + RulesFor(rules[1..], id)
  {
    var last := |rules| - 1;
    if last > 0 {
      RulesForFront(rules[..last], id);
      assert rules[..last][1..] == rules[1..][..last - 1];
      assert rules[1..][last - 1] == rules[last];
    }
  }

  lemma {:induction false} CopiesScan(rule: Rule, conditions: seq<Condition>, id: Id, inputs: Values)
    ensures FiredActions(Copies(rule, conditions, id), inputs) == ScanConditions(rule, conditions, id, inputs)
  {
    if conditions != [] {
      CopiesFront(rule, conditions, id);
      var first := if Names(conditions[0], id) then [rule] else [];
      FiredActionsConcat(first, Copies(rule, conditions[1..], id), inputs);
      CopiesScan(rule, conditions[1..], id, inputs);
    }
  }

  /** Firing through the index is firing by a scan of all rules, whatever the values of the inputs. */
  lemma {:induction false} IndexRefinesScan(rules: seq<Rule>, id: Id, inputs: Values)
    ensures FiredActions(RulesFor(rules, id), inputs) == ScanRules(rules, id, inputs)
  {
    if rules != [] {
      RulesForFront(rules, id);
      FiredActionsConcat(Copies(rules[0], rules[0].conditions, id), RulesFor(rules[1..], id), inputs);
      CopiesScan(rules[0], rules[0].conditions, id, inputs);
      IndexRefinesScan(rules[1..], id, inputs);
    }
  }

  lemma {:induction false} CopiesNameIt(rule: Rule, conditions: seq<Condition>, id: Id, r: Rule)
    requires r in Copies(rule, conditions, id)
    ensures r == rule && exists c :: c in conditions && Names(c, id)
  {
    var last := |conditions| - 1;
    if Names(conditions[last], id) {
      assert conditions[last] in conditions;
      if r in Copies(rule, conditions[..last], id) {
        CopiesNameIt(rule, conditions[..last], id, r);
      }
    } else {
      CopiesNameIt(rule, conditions[..last], id, r);
    }
  }

  /** A rule in the index has a standard condition on that input: a rule of start conditions alone never fires. */
  lemma {:induction false} IndexedRulesNameIt(rules: seq<Rule>, id: Id, r: Rule)
    requires r in RulesFor(rules, id)
    ensures r in rules && exists c :: c in r.conditions && Names(c, id)
  {
    var last := |rules| - 1;
    if r in RulesFor(rules[..last], id) {
      IndexedRulesNameIt(rules[..last], id, r);
    } else {
      CopiesNameIt(rules[last], rules[last].conditions, id, r);
    }
  }

  /** `at` lists places in the configuration of conditions on input `id`, rule by rule, condition by condition. */
  ghost predicate PlacesInOrder(at: seq<(nat, nat)>, rules: seq<Rule>, id: Id)
  {
    && (forall n :: 0 <= n < |at| ==>
        && at[n].0 < |rules| && at[n].1 < |rules[at[n].0].conditions|
        && rules[at[n].0].conditions[at[n].1].Standard? && rules[at[n].0].conditions[at[n].1].input == id)
    && (forall m, n :: 0 <= m < n < |at| ==> at[m].0 < at[n].0 || (at[m].0 == at[n].0 && at[m].1 < at[n].1))
  }

  /** `at` has the places of all conditions on input `id`. */
  ghost predicate HasAllPlaces(at: seq<(nat, nat)>, rules: seq<Rule>, id: Id)
  {
    forall i: nat, j: nat | i < |rules| && j < |rules[i].conditions| ::
      rules[i].conditions[j].Standard? && rules[i].conditions[j].input == id ==> (i, j) in at
  }

  /** `entry` has, at each place, the rule of the condition listed there. */
  ghost predicate HasRulesAt(entry: seq<Rule>, at: seq<(nat, nat)>, rules: seq<Rule>)
  {
    |entry| == |at| && forall n :: 0 <= n < |at| ==> at[n].0 < |rules| && entry[n] == rules[at[n].0]
  }

  /** The places of the conditions of rule `r` on input `id` among its first `c`, and the copies that they make. */
  ghost predicate PlacesOfRule(at: seq<(nat, nat)>, rules: seq<Rule>, r: nat, id: Id, c: nat)
    requires r < |rules| && c <= |rules[r].conditions|
  {
    && |at| == |Copies(rules[r], rules[r].conditions[..c], id)|
    && (forall n :: 0 <= n < |at| ==>
        && at[n].0 == r && at[n].1 < c && Copies(rules[r], rules[r].conditions[..c], id)[n] == rules[r]
        && rules[r].conditions[at[n].1].Standard? && rules[r].conditions[at[n].1].input == id)
    && (forall m, n :: 0 <= m < n < |at| ==> at[m].1 < at[n].1)
    && (forall j: nat | j < c :: rules[r].conditions[j].Standard? && rules[r].conditions[j].input == id ==> (r, j) in at)
  }

  lemma {:induction false} CopiesPlaces(rules: seq<Rule>, r: nat, id: Id, c: nat) returns (at: seq<(nat, nat)>)
    requires r < |rules| && c <= |rules[r].conditions| && id != ""
    ensures PlacesOfRule(at, rules, r, id, c)
  {
    at := [];
    if c > 0 {
      at := CopiesPlaces(rules, r, id, c - 1);
      assert rules[r].conditions[..c][..c - 1] == rules[r].conditions[..c - 1];
      if rules[r].conditions[c - 1].Standard? && rules[r].conditions[c - 1].input == id {
        at := at + [(r, c - 1)];
      }
    }
  }

  /** The index entry of an input, exactly: the rules of all conditions on it, in the order of the configuration, each as often as it
      has such conditions, whatever their operators. */
  lemma {:induction false} EntryListsConditions(rules: seq<Rule>, id: Id) returns (at: seq<(nat, nat)>)
    requires id != ""
    ensures PlacesInOrder(at, rules, id) && HasAllPlaces(at, rules, id) && HasRulesAt(RulesFor(rules, id), at, rules)
  {
    hide PlacesInOrder, HasAllPlaces, PlacesOfRule, Copies;
    at := [];
    if rules == [] {
      assert PlacesInOrder([], [], id) && HasAllPlaces([], [], id) by { NoPlaces(id); }
    } else {
      var last := |rules| - 1;
      var before := EntryListsConditions(rules[..last], id);
      var own := CopiesPlaces(rules, last, id, |rules[last].conditions|);
      at := before + own;
      MorePlaces(rules, id, before, own);
      OwnRules(rules, id, own);
    }
  }

  lemma NoPlaces(id: Id)
    ensures PlacesInOrder([], [], id) && HasAllPlaces([], [], id)
  {
  }

  lemma OwnRules(rules: seq<Rule>, id: Id, own: seq<(nat, nat)>)
    requires rules != [] && PlacesOfRule(own, rules, |rules| - 1, id, |rules[|rules| - 1].conditions|)
    ensures HasRulesAt(Copies(rules[|rules| - 1], rules[|rules| - 1].conditions, id), own, rules)
  {
    var conditions := rules[|rules| - 1].conditions;
    assert conditions[..|conditions|] == conditions;
  }

  lemma MorePlaces(rules: seq<Rule>, id: Id, before: seq<(nat, nat)>, own: seq<(nat, nat)>)
    requires rules != [] && PlacesInOrder(before, rules[..|rules| - 1], id) && HasAllPlaces(before, rules[..|rules| - 1], id)
    requires PlacesOfRule(own, rules, |rules| - 1, id, |rules[|rules| - 1].conditions|)
    ensures PlacesInOrder(before + own, rules, id) && HasAllPlaces(before + own, rules, id)
  {
    hide Copies;
    var last := |rules| - 1;
    forall i: nat, j: nat | i < |rules| && j < |rules[i].conditions|
                            && rules[i].conditions[j].Standard? && rules[i].conditions[j].input == id
      ensures (i, j) in before + own
    {
      if i < last {
        assert rules[..last][i] == rules[i];
        assert (i, j) in before;
      } else {
        assert (i, j) in own;
      }
    }
  }

  // ----- grouping -----

  datatype SocketAddr = SocketAddr(ip: nat, port: nat)

  const MAX_PORT: nat := 0xFFFF

  /** The controller address of an output: none for a kind that no controller serves, or when host or port do not parse.
      `parseIp` stands for the standard library's reading of IP addresses. */
  function ControllerAddress(kind: OutputKind, parseIp: string -> Option<nat>): Option<SocketAddr>
  {
    match kind
    case WODigital(io) => Resolve(io.host, io.port, parseIp)
    case WOShutter(io) => Resolve(io.host, io.port, parseIp)
    case _ => None
  }

  function Resolve(host: string, port: string, parseIp: string -> Option<nat>): Option<SocketAddr>
  {
    match parseIp(host)
    case None => None
    case Some(ip) =>
      match Decimal.ParseUnsigned(port, MAX_PORT)
      case None => None
      case Some(p) => Some(SocketAddr(ip, p))
  }

  /** The ids of the outputs at an address, in configuration order. */
  function Group(outputs: seq<Output>, address: SocketAddr, parseIp: string -> Option<nat>): seq<Id>
  {
    if outputs == [] then []
    else
      var last := |outputs| - 1;
      Group(outputs[..last], address, parseIp)
      + (if ControllerAddress(outputs[last].kind, parseIp) == Some(address) then [outputs[last].id] else [])
  }

  /** `append_map` */
  method AppendMap(config: SocketAddr, m: map<SocketAddr, seq<Id>>, id: Id) returns (m': map<SocketAddr, seq<Id>>)
    ensures m'.Keys == m.Keys + {config}
    ensures m'[config] == (if config in m then m[config] else []) + [id]
    ensures forall a :: a in m && a != config ==> m'[a] == m[a]
  {
    if config in m {
      m' := m[config := m[config] + [id]];
    } else {
      m' := m[config := [id]];
    }
  }

  ghost predicate Groups(m: map<SocketAddr, seq<Id>>, outputs: seq<Output>, parseIp: string -> Option<nat>)
  {
    && (forall a :: a in m <==> Group(outputs, a, parseIp) != [])
    && (forall a :: a in m ==> m[a] == Group(outputs, a, parseIp))
  }

  lemma NoGroups(parseIp: string -> Option<nat>)
    ensures Groups(map[], [], parseIp)
  {
  }

  /** One more output: its group grows by its id, the others stay. */
  lemma GroupsStep(m: map<SocketAddr, seq<Id>>, m': map<SocketAddr, seq<Id>>, outputs: seq<Output>, output: Output,
                   parseIp: string -> Option<nat>)
    requires Groups(m, outputs, parseIp)
    requires var address := ControllerAddress(output.kind, parseIp);
             if address.None? then m' == m
             else
               && m'.Keys == m.Keys + {address.value}
               && m'[address.value] == (if address.value in m then m[address.value] else []) + [output.id]
               && forall a :: a in m && a != address.value ==> m'[a] == m[a]
    ensures Groups(m', outputs + [output], parseIp)
  {
    hide ControllerAddress;
    assert (outputs + [output])[..|outputs|] == outputs;
  }

  /** `make_output_controller_map`: each address present has exactly its group. */
  method MakeOutputControllerMap(rooms: seq<Room>, parseIp: string -> Option<nat>) returns (m: map<SocketAddr, seq<Id>>)
    ensures Groups(m, Outputs(rooms), parseIp)
  {
    hide ControllerAddress, Groups;
    m := map[];
    assert Groups(m, Outputs(rooms[..0]), parseIp) by { NoGroups(parseIp); }
    for i := 0 to |rooms|
      invariant Groups(m, Outputs(rooms[..i]), parseIp)
    {
      var outputs := rooms[i].outputs;
      ghost var before := Outputs(rooms[..i]);
      assert before + outputs[..0] == before;
      for j := 0 to |outputs|
        invariant Groups(m, before + outputs[..j], parseIp)
      {
        ghost var m0 := m;
        var address := ControllerAddress(outputs[j].kind, parseIp);
        if address.Some? {
          m := AppendMap(address.value, m, outputs[j].id);
        }
        assert before + outputs[..j + 1] == before + outputs[..j] + [outputs[j]];
        GroupsStep(m0, m, before + outputs[..j], outputs[j], parseIp);
      }
      assert rooms[..i + 1][..i] == rooms[..i] && outputs[..|outputs|] == outputs;
      assert Outputs(rooms[..i + 1]) == before + outputs;
    }
    assert rooms[..|rooms|] == rooms;
  }

  /** Membership in a group is having its address. */
  lemma {:induction false} GroupMembers(outputs: seq<Output>, address: SocketAddr, parseIp: string -> Option<nat>, id: Id)
    ensures id in Group(outputs, address, parseIp) <==>
            exists o :: o in outputs && o.id == id && ControllerAddress(o.kind, parseIp) == Some(address)
  {
    if outputs != [] {
      var last := |outputs| - 1;
      GroupMembers(outputs[..last], address, parseIp, id);
      assert outputs == outputs[..last] + [outputs[last]];
    }
  }

  /** One more output joins, at the end, the group of its own address alone. */
  lemma GroupAppend(outputs: seq<Output>, output: Output, address: SocketAddr, parseIp: string -> Option<nat>)
    ensures Group([], address, parseIp) == []
    ensures Group(outputs + [output], address, parseIp)
            == Group(outputs, address, parseIp)
               + if ControllerAddress(output.kind, parseIp) == Some(address) then [output.id] else []
  {
    assert (outputs + [output])[..|outputs|] == outputs;
  }

  ghost predicate UniqueIds(outputs: seq<Output>)
  {
    forall i, j :: 0 <= i < j < |outputs| ==> outputs[i].id != outputs[j].id
  }

  /** With unique ids the groups partition the outputs that have an address. */
  lemma GroupsPartition(outputs: seq<Output>, parseIp: string -> Option<nat>, a: SocketAddr, b: SocketAddr, id: Id)
    requires UniqueIds(outputs) && id in Group(outputs, a, parseIp) && id in Group(outputs, b, parseIp)
    ensures a == b
  {
    GroupMembers(outputs, a, parseIp, id);
    GroupMembers(outputs, b, parseIp, id);
  }

  // ----- controllers and dispatch -----

  /** The output as its controller drives it. */
  function Drive(kind: OutputKind): W.OutputKind
  {
    match kind
    case WODigital(io) => W.WODigital(io.pin)
    case WOShutter(io) => W.WOShutter(W.UpDown(io.varUp, io.varDown, io.time))
    case _ => W.OtherKind
  }

  /** `filter_output` */
  method FilterOutput(outputMap: map<Id, OutputContext>, ids: seq<Id>) returns (res: map<Id, OutputContext>)
    ensures forall id :: id in res <==> id in ids && id in outputMap
    ensures forall id :: id in res ==> res[id] == outputMap[id]
  {
    res := map[];
    for i := 0 to |ids|
      invariant forall id :: id in res <==> id in ids[..i] && id in outputMap
      invariant forall id :: id in res ==> res[id] == outputMap[id]
    {
      if ids[i] in outputMap {
        res := res[ids[i] := outputMap[ids[i]]];
      }
    }
  }

  /** Controller `k` has the outputs of the group at `order[k]`. */
  ghost predicate Instances(controllers: seq<map<Id, OutputContext>>, outputMap: map<Id, OutputContext>,
                            groups: map<SocketAddr, seq<Id>>, order: seq<SocketAddr>)
    requires forall a :: a in order ==> a in groups
  {
    && |controllers| == |order|
    && forall k :: 0 <= k < |order| ==> IsInstance(controllers[k], outputMap, groups[order[k]])
  }

  ghost predicate IsInstance(controller: map<Id, OutputContext>, outputMap: map<Id, OutputContext>, ids: seq<Id>)
  {
    && (forall id :: id in controller <==> id in ids && id in outputMap)
    && (forall id :: id in controller ==> controller[id] == outputMap[id])
  }

  /** An id leads to the last of the groups `order` that has it. */
  ghost predicate Reverses(reverse: map<Id, nat>, groups: map<SocketAddr, seq<Id>>, order: seq<SocketAddr>)
    requires forall a :: a in order ==> a in groups
  {
    && (forall id :: id in reverse ==> reverse[id] < |order| && id in groups[order[reverse[id]]])
    && (forall id, k :: 0 <= k < |order| && id in groups[order[k]] ==> id in reverse && k <= reverse[id])
  }

  /** One controller per group, in the order `order` in which the groups happen to be visited, and the reverse map from ids to
      controllers. When an id is in several groups the last one visited gets its commands. */
  method MakeControllers(outputMap: map<Id, OutputContext>, groups: map<SocketAddr, seq<Id>>, order: seq<SocketAddr>)
    returns (controllers: seq<map<Id, OutputContext>>, reverse: map<Id, nat>)
    requires Enumerates(order, groups.Keys)
    ensures Instances(controllers, outputMap, groups, order)
    ensures Reverses(reverse, groups, order)
  {
    controllers, reverse := [], map[];
    for k := 0 to |order|
      invariant Instances(controllers, outputMap, groups, order[..k])
      invariant Reverses(reverse, groups, order[..k])
    {
      var ids := groups[order[k]];
      var instance := FilterOutput(outputMap, ids);
      controllers := controllers + [instance];
      assert IsInstance(instance, outputMap, ids);
      ghost var before := reverse;
      reverse := RegisterIds(reverse, ids, k);
      assert order[..k + 1] == order[..k] + [order[k]];
      ReversesStep(before, reverse, groups, order[..k], order[k]);
    }
    assert order[..|order|] == order;
  }

  method RegisterIds(reverse: map<Id, nat>, ids: seq<Id>, k: nat) returns (reverse': map<Id, nat>)
    ensures forall id :: id in reverse' <==> id in reverse || id in ids
    ensures forall id :: id in reverse' ==> reverse'[id] == if id in ids then k else reverse[id]
  {
    reverse' := reverse;
    for i := 0 to |ids|
      invariant forall id :: id in reverse' <==> id in reverse || id in ids[..i]
      invariant forall id :: id in reverse' ==> reverse'[id] == if id in ids[..i] then k else reverse[id]
    {
      reverse' := reverse'[ids[i] := k];
    }
    assert ids[..|ids|] == ids;
  }

  lemma ReversesStep(reverse: map<Id, nat>, reverse': map<Id, nat>, groups: map<SocketAddr, seq<Id>>, order: seq<SocketAddr>,
                     address: SocketAddr)
    requires address in groups && (forall a :: a in order ==> a in groups) && Reverses(reverse, groups, order)
    requires forall id :: id in reverse' <==> id in reverse || id in groups[address]
    requires forall id :: id in reverse' ==> reverse'[id] == if id in groups[address] then |order| else reverse[id]
    ensures Reverses(reverse', groups, order + [address])
  {
  }

  /** The commands for controller `k`, in order. */
  function ForController(cmds: seq<IODataAction>, reverse: map<Id, nat>, k: nat): seq<IODataAction>
  {
    if cmds == [] then []
    else
      var last := cmds[|cmds| - 1];
      ForController(cmds[..|cmds| - 1], reverse, k) + (if last.id in reverse && reverse[last.id] == k then [last] else [])
  }

  /** The queues of the dispatcher hold exactly the commands for their controllers, and no more than they may. */
  ghost predicate Holds(queues: seq<Channel<IODataAction>>, cmds: seq<IODataAction>, reverse: map<Id, nat>, capacity: nat)
  {
    forall k :: 0 <= k < |queues| ==>
      queues[k].Valid() && queues[k].log == ForController(cmds, reverse, k) && |queues[k].Pending()| <= capacity
  }

  lemma HoldsAfterTake(before: seq<Channel<IODataAction>>, after: seq<Channel<IODataAction>>, cmds: seq<IODataAction>,
                       reverse: map<Id, nat>, capacity: nat)
    requires Holds(before, cmds, reverse, capacity) && |after| == |before|
    requires forall k :: 0 <= k < |after| ==> after[k].log == before[k].log && before[k].read <= after[k].read <= |after[k].log|
    ensures Holds(after, cmds, reverse, capacity)
  {
    hide ForController;
    forall k | 0 <= k < |after|
      ensures |after[k].Pending()| <= capacity
    {
      assert |before[k].Pending()| <= capacity;
    }
  }

  lemma HoldsAfterPut(queues: seq<Channel<IODataAction>>, cmds: seq<IODataAction>, cmd: IODataAction,
                      reverse: map<Id, nat>, capacity: nat)
    requires Holds(queues, cmds, reverse, capacity)
    requires cmd.id in reverse ==>
               reverse[cmd.id] < |queues| && queues[reverse[cmd.id]].Valid() && queues[reverse[cmd.id]].HasRoom(capacity)
    ensures Holds(if cmd.id in reverse then queues[reverse[cmd.id] := queues[reverse[cmd.id]].Put(cmd)] else queues,
                  cmds + [cmd], reverse, capacity)
  {
    assert (cmds + [cmd])[..|cmds|] == cmds;
  }

  lemma HeldIsBounded(queues: seq<Channel<IODataAction>>, cmds: seq<IODataAction>, reverse: map<Id, nat>, capacity: nat)
    requires Holds(queues, cmds, reverse, capacity)
    ensures forall k :: 0 <= k < |queues| ==> queues[k].Valid() && |queues[k].Pending()| <= capacity
  {
  }

  lemma NothingHeld(n: nat, reverse: map<Id, nat>, capacity: nat)
    ensures Holds(seq(n, _ => Channel([], 0)), [], reverse, capacity)
  {
  }

  /** While the dispatcher waits, each controller takes up to `takes(k)` messages. */
  method LetTake(queues: seq<Channel<IODataAction>>, takes: nat -> nat) returns (after: seq<Channel<IODataAction>>)
    requires forall k :: 0 <= k < |queues| ==> queues[k].Valid()
    ensures |after| == |queues| && forall k :: 0 <= k < |after| ==> after[k] == queues[k].Take(takes(k))
  {
    after := seq(|queues|, k requires 0 <= k < |queues| && queues[k].Valid() => queues[k].Take(takes(k)));
  }

  /** `handle_rx`: every command goes to the queue of its controller, or nowhere when it has none. Before the i-th command is sent
      on, controller `k` takes up to `takes(i, k)` messages; where that leaves no room, the dispatcher waits. */
  method HandleRx(rx: seq<IODataAction>, reverse: map<Id, nat>, n: nat, capacity: nat, takes: (nat, nat) -> nat)
    returns (queues: seq<Channel<IODataAction>>, handled: nat)
    requires forall id :: id in reverse ==> reverse[id] < n
    ensures |queues| == n && handled <= |rx|
    ensures Holds(queues, rx[..handled], reverse, capacity)
    ensures handled < |rx| ==> rx[handled].id in reverse && |queues[reverse[rx[handled].id]].Pending()| == capacity
  {
    hide Holds, ForController;
    queues, handled := seq(n, _ => Channel([], 0)), 0;
    NothingHeld(n, reverse, capacity);
    assert rx[..0] == [];
    while handled < |rx|
      invariant |queues| == n && handled <= |rx|
      invariant Holds(queues, rx[..handled], reverse, capacity)
    {
      assert rx[..handled + 1] == rx[..handled] + [rx[handled]];
      var before, at := queues, handled;
      HeldIsBounded(before, rx[..handled], reverse, capacity);
      queues := LetTake(before, (k: nat) => takes(at, k));
      HoldsAfterTake(before, queues, rx[..handled], reverse, capacity);
      HeldIsBounded(queues, rx[..handled], reverse, capacity);
      var ioData := rx[handled];
      if ioData.id in reverse {
        var k := reverse[ioData.id];
        if !queues[k].HasRoom(capacity) {
          return;
        }
        HoldsAfterPut(queues, rx[..handled], ioData, reverse, capacity);
        queues := queues[k := queues[k].Put(ioData)];
      } else {
        HoldsAfterPut(queues, rx[..handled], ioData, reverse, capacity);
      }
      handled := handled + 1;
    }
    assert rx[..|rx|] == rx;
  }
}
