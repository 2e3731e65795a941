/** Putting the system together from its configuration (`server/src/main.rs`, `run_output_controllers`). */
module Assembly {
  import opened Basics
  import opened Config
  import opened RulesEngine
  import opened IoContext
  import opened Pipeline
  import opened PipelineSafety
  import Coils
  import Decimal
  import Safety = WagoControllerSafety
  import W = WagoController

  const CHANNEL_CAPACITY: nat := 10_000

  /** What the running system needs to know of the configuration: output ids are unique, and none is an input id. */
  ghost predicate DistinctIds(rooms: seq<Config.Room>)
  {
    && UniqueIds(Outputs(rooms))
    && forall i, o :: i in Inputs(rooms) && o in Outputs(rooms) ==> i.id != o.id
  }

  lemma {:induction false} LastInputIsConfigured(inputs: seq<Input>, id: Id)
    ensures LastInput(inputs, id).Some? <==> exists i :: i in inputs && i.id == id
  {
    if inputs != [] {
      var last := |inputs| - 1;
      LastInputIsConfigured(inputs[..last], id);
      assert inputs == inputs[..last] + [inputs[last]];
    }
  }

  lemma {:induction false} LastOutputIsConfigured(outputs: seq<Output>, id: Id)
    ensures LastOutput(outputs, id).Some? <==> exists o :: o in outputs && o.id == id
    ensures LastOutput(outputs, id).Some? ==> LastOutput(outputs, id).value in outputs && LastOutput(outputs, id).value.id == id
  {
    if outputs != [] {
      var last := |outputs| - 1;
      LastOutputIsConfigured(outputs[..last], id);
      assert outputs == outputs[..last] + [outputs[last]];
    }
  }

  /** The controller of an output is the one for its address, and it drives the output as configured. */
  ghost predicate Serves(home: Home, addresses: seq<SocketAddr>, output: Output, parseIp: string -> Option<nat>)
  {
    match ControllerAddress(output.kind, parseIp)
    case None => output.id !in home.route
    case Some(address) =>
      && output.id in home.route && home.route[output.id] < |addresses| == |home.controllers|
      && addresses[home.route[output.id]] == address
      && output.id in home.controllers[home.route[output.id]]
      && home.controllers[home.route[output.id]][output.id] == Drive(output.kind)
  }

  /** The dispatcher leads `id` to the controller at exactly this address. */
  ghost predicate RoutedTo(home: Home, addresses: seq<SocketAddr>, id: Id, ip: nat, port: nat)
  {
    && id in home.route && home.route[id] < |addresses| == |home.controllers|
    && addresses[home.route[id]].ip == ip && addresses[home.route[id]].port == port
    && id in home.controllers[home.route[id]]
  }

  /** The output is driven as its configuration says, field by field, by the controller at its host and port - or not routed at all,
      when its kind is not served, or host or port do not parse. */
  ghost predicate DrivenAsConfigured(home: Home, addresses: seq<SocketAddr>, output: Output, parseIp: string -> Option<nat>)
  {
    match output.kind
    case WODigital(io) =>
      (match (parseIp(io.host), Decimal.ParseUnsigned(io.port, 65535))
       case (Some(ip), Some(port)) =>
         && RoutedTo(home, addresses, output.id, ip, port)
         && var driven := home.controllers[home.route[output.id]][output.id];
            driven.WODigital? && driven.pin == io.pin
       case _ => output.id !in home.route)
    case WOShutter(updown) =>
      (match (parseIp(updown.host), Decimal.ParseUnsigned(updown.port, 65535))
       case (Some(ip), Some(port)) =>
         && RoutedTo(home, addresses, output.id, ip, port)
         && var driven := home.controllers[home.route[output.id]][output.id];
            && driven.WOShutter? && driven.io.varUp == updown.varUp && driven.io.varDown == updown.varDown
            && driven.io.time == updown.time
       case _ => output.id !in home.route)
    case _ => output.id !in home.route
  }

  lemma ServedIsDriven(home: Home, addresses: seq<SocketAddr>, output: Output, parseIp: string -> Option<nat>)
    requires Serves(home, addresses, output, parseIp)
    ensures DrivenAsConfigured(home, addresses, output, parseIp)
  {
    hide Decimal.ParseUnsigned;
  }

  /** `driven` is how a configured output with that id, at that address, is to be driven. */
  ghost predicate Configured(rooms: seq<Config.Room>, id: Id, driven: W.OutputKind, address: SocketAddr,
                             parseIp: string -> Option<nat>)
  {
    exists o :: o in Outputs(rooms) && o.id == id && driven == Drive(o.kind) && ControllerAddress(o.kind, parseIp) == Some(address)
  }

  /** No controller has anything but configured outputs of its address. */
  ghost predicate OnlyConfigured(home: Home, addresses: seq<SocketAddr>, parseIp: string -> Option<nat>)
    requires |home.controllers| == |addresses|
  {
    forall k, id :: 0 <= k < |addresses| && id in home.controllers[k] ==>
      Configured(home.rooms, id, home.controllers[k][id], addresses[k], parseIp)
  }

  /** The two outputs have no pins that name one coil which can be written. */
  ghost predicate PinsApart(o: Output, p: Output)
  {
    forall u, v :: u in Safety.Pins(Drive(o.kind)) && v in Safety.Pins(Drive(p.kind)) && Coils.Reachable(Coils.Coil(u)) ==>
      Coils.Coil(u) != Coils.Coil(v)
  }

  predicate AtOneAddress(o: Output, p: Output, parseIp: string -> Option<nat>)
  {
    ControllerAddress(o.kind, parseIp).Some? && ControllerAddress(o.kind, parseIp) == ControllerAddress(p.kind, parseIp)
  }

  /** The two coils of the shutter differ, if they can be written. */
  predicate CoilsApart(updown: WagoIOUpDown)
  {
    Coils.Reachable(Coils.Coil(updown.varUp)) ==> Coils.Coil(updown.varUp) != Coils.Coil(updown.varDown)
  }

  /** No two pins at one controller address name one coil which can be written. */
  ghost predicate SeparatePins(rooms: seq<Config.Room>, parseIp: string -> Option<nat>)
  {
    && (forall o, p :: o in Outputs(rooms) && p in Outputs(rooms) && o != p && AtOneAddress(o, p, parseIp) ==> PinsApart(o, p))
    && (forall o :: o in Outputs(rooms) && o.kind.WOShutter? && ControllerAddress(o.kind, parseIp).Some? ==>
          CoilsApart(o.kind.updown))
  }

  lemma SeparateIsDisjoint(home: Home, addresses: seq<SocketAddr>, parseIp: string -> Option<nat>, k: nat)
    requires |home.controllers| == |addresses| && OnlyConfigured(home, addresses, parseIp)
    requires SeparatePins(home.rooms, parseIp) && k < |addresses|
    ensures Safety.Disjoint(home.controllers[k])
  {
    hide ControllerAddress, Coils.Coil, Outputs;
    var outputs := home.controllers[k];
    forall i, j, p, q | i in outputs && j in outputs && i != j && p in Safety.Pins(outputs[i]) && q in Safety.Pins(outputs[j])
                        && Coils.Reachable(Coils.Coil(p))
      ensures Coils.Coil(p) != Coils.Coil(q)
    {
      var o := ConfiguredOutput(home, addresses, parseIp, k, i);
      var o' := ConfiguredOutput(home, addresses, parseIp, k, j);
      assert PinsApart(o, o');
    }
    forall i | i in outputs && outputs[i].WOShutter? && Coils.Reachable(Coils.Coil(outputs[i].io.varUp))
      ensures Coils.Coil(outputs[i].io.varUp) != Coils.Coil(outputs[i].io.varDown)
    {
      var o := ConfiguredOutput(home, addresses, parseIp, k, i);
    }
  }

  lemma ConfiguredOutput(home: Home, addresses: seq<SocketAddr>, parseIp: string -> Option<nat>, k: nat, id: Id)
    returns (o: Output)
    requires |home.controllers| == |addresses| && OnlyConfigured(home, addresses, parseIp)
    requires k < |addresses| && id in home.controllers[k]
    ensures o in Outputs(home.rooms) && o.id == id && home.controllers[k][id] == Drive(o.kind)
    ensures ControllerAddress(o.kind, parseIp) == Some(addresses[k])
  {
    hide ControllerAddress, Outputs, Drive;
    assert Configured(home.rooms, id, home.controllers[k][id], addresses[k], parseIp);
    o :| o in Outputs(home.rooms) && o.id == id && home.controllers[k][id] == Drive(o.kind)
         && ControllerAddress(o.kind, parseIp) == Some(addresses[k]);
  }

  lemma DisjointIsApart(home: Home, addresses: seq<SocketAddr>, parseIp: string -> Option<nat>, o: Output, p: Output)
    requires Wired(home) && UniqueIds(Outputs(home.rooms))
    requires forall a, b :: 0 <= a < b < |addresses| ==> addresses[a] != addresses[b]
    requires o in Outputs(home.rooms) && p in Outputs(home.rooms) && o != p
    requires Serves(home, addresses, o, parseIp) && Serves(home, addresses, p, parseIp)
    requires AtOneAddress(o, p, parseIp)
    ensures PinsApart(o, p)
  {
    hide ControllerAddress, Coils.Coil, Outputs, Drive, Safety.Pins;
    if o.id == p.id {
      UniqueIdNamesOne(Outputs(home.rooms), o, p);
    }
    assert home.route[o.id] == home.route[p.id];
    assert Safety.Disjoint(home.controllers[home.route[o.id]]);
  }

  /** The assembled system is wired as the theorems on runs require exactly when the configuration keeps its pins apart. */
  lemma WiredIffSeparate(home: Home, addresses: seq<SocketAddr>, parseIp: string -> Option<nat>)
    requires UniqueIds(Outputs(home.rooms)) && |home.controllers| == |addresses|
    requires forall a, b :: 0 <= a < b < |addresses| ==> addresses[a] != addresses[b]
    requires forall output :: output in Outputs(home.rooms) ==> Serves(home, addresses, output, parseIp)
    requires OnlyConfigured(home, addresses, parseIp)
    ensures Wired(home) <==> SeparatePins(home.rooms, parseIp)
  {
    hide ControllerAddress, Coils.Coil, Outputs, OnlyConfigured, PinsApart, UniqueIds;
    if SeparatePins(home.rooms, parseIp) {
      forall k | 0 <= k < |home.controllers|
        ensures Safety.Disjoint(home.controllers[k])
      {
        SeparateIsDisjoint(home, addresses, parseIp, k);
      }
    }
    if Wired(home) {
      forall o, p | o in Outputs(home.rooms) && p in Outputs(home.rooms) && o != p && AtOneAddress(o, p, parseIp)
        ensures PinsApart(o, p)
      {
        DisjointIsApart(home, addresses, parseIp, o, p);
      }
      forall o | o in Outputs(home.rooms) && o.kind.WOShutter? && ControllerAddress(o.kind, parseIp).Some?
        ensures CoilsApart(o.kind.updown)
      {
        assert Serves(home, addresses, o, parseIp);
        assert Safety.Disjoint(home.controllers[home.route[o.id]]);
      }
    }
  }

  function DriveAll(instance: map<Id, OutputContext>): W.Outputs
  {
    map id | id in instance :: Drive(instance[id].output.kind)
  }

  lemma UniqueIdNamesOne(outputs: seq<Output>, o: Output, p: Output)
    requires UniqueIds(outputs) && o in outputs && p in outputs && o.id == p.id
    ensures o == p
  {
  }

  /** The results of the building functions, as their contracts state them. */
  ghost predicate Built(rooms: seq<Config.Room>, outputMap: map<Id, OutputContext>, groups: map<SocketAddr, seq<Id>>,
                        order: seq<SocketAddr>, instances: seq<map<Id, OutputContext>>, reverse: map<Id, nat>,
                        parseIp: string -> Option<nat>)
  {
    && UniqueIds(Outputs(rooms))
    && (forall id :: id in outputMap <==> LastOutput(Outputs(rooms), id).Some?)
    && (forall id :: id in outputMap ==> outputMap[id] == OutputContext(LastOutput(Outputs(rooms), id).value, None))
    && Groups(groups, Outputs(rooms), parseIp)
    && Enumerates(order, groups.Keys)
    && Instances(instances, outputMap, groups, order)
    && Reverses(reverse, groups, order)
  }

  lemma OutputIsServed(rooms: seq<Config.Room>, outputMap: map<Id, OutputContext>, groups: map<SocketAddr, seq<Id>>,
                       order: seq<SocketAddr>, instances: seq<map<Id, OutputContext>>, reverse: map<Id, nat>,
                       parseIp: string -> Option<nat>, output: Output)
    requires Built(rooms, outputMap, groups, order, instances, reverse, parseIp) && output in Outputs(rooms)
    ensures match ControllerAddress(output.kind, parseIp)
            case None => output.id !in reverse
            case Some(address) =>
              && output.id in reverse && reverse[output.id] < |order| == |instances|
              && order[reverse[output.id]] == address
              && output.id in instances[reverse[output.id]]
              && instances[reverse[output.id]][output.id].output == output
  {
    hide ControllerAddress, Group, Outputs, LastOutput;
    var outputs, id := Outputs(rooms), output.id;
    LastOutputIsConfigured(outputs, id);
    UniqueIdNamesOne(outputs, LastOutput(outputs, id).value, output);
    match ControllerAddress(output.kind, parseIp)
    case None =>
      forall o | o in outputs && o.id == id
        ensures o == output
      {
        UniqueIdNamesOne(outputs, o, output);
      }
      if id in reverse {
        GroupMembers(outputs, order[reverse[id]], parseIp, id);
      }
    case Some(address) =>
      GroupMembers(outputs, address, parseIp, id);
      assert address in groups && address in order;
      var k :| 0 <= k < |order| && order[k] == address;
      assert id in groups[order[k]];
      GroupsPartition(outputs, parseIp, order[reverse[id]], address, id);
      assert IsInstance(instances[k], outputMap, groups[order[k]]);
  }

  lemma OwnerIsUnique(rooms: seq<Config.Room>, outputMap: map<Id, OutputContext>, groups: map<SocketAddr, seq<Id>>,
                      order: seq<SocketAddr>, instances: seq<map<Id, OutputContext>>, reverse: map<Id, nat>,
                      parseIp: string -> Option<nat>, k: nat, id: Id)
    requires Built(rooms, outputMap, groups, order, instances, reverse, parseIp)
    requires k < |instances| && id in instances[k]
    requires |instances| == |order|
    ensures id in outputMap && id in reverse && reverse[id] == k
    ensures Configured(rooms, id, Drive(instances[k][id].output.kind), order[k], parseIp)
  {
    hide ControllerAddress, Group, Outputs, LastOutput;
    assert IsInstance(instances[k], outputMap, groups[order[k]]);
    assert id in groups[order[k]];
    GroupsPartition(Outputs(rooms), parseIp, order[reverse[id]], order[k], id);
    GroupMembers(Outputs(rooms), order[k], parseIp, id);
    LastOutputIsConfigured(Outputs(rooms), id);
    var o :| o in Outputs(rooms) && o.id == id && ControllerAddress(o.kind, parseIp) == Some(order[k]);
    UniqueIdNamesOne(Outputs(rooms), o, instances[k][id].output);
  }

  lemma RoutedIsOwned(rooms: seq<Config.Room>, outputMap: map<Id, OutputContext>, groups: map<SocketAddr, seq<Id>>,
                      order: seq<SocketAddr>, instances: seq<map<Id, OutputContext>>, reverse: map<Id, nat>,
                      parseIp: string -> Option<nat>, id: Id)
    requires Built(rooms, outputMap, groups, order, instances, reverse, parseIp) && id in reverse
    ensures reverse[id] < |instances| && id in instances[reverse[id]]
  {
    hide ControllerAddress, Group, Outputs, LastOutput;
    var k := reverse[id];
    GroupMembers(Outputs(rooms), order[k], parseIp, id);
    LastOutputIsConfigured(Outputs(rooms), id);
    assert IsInstance(instances[k], outputMap, groups[order[k]]);
  }

  lemma DistinctOutputs(rooms: seq<Config.Room>)
    requires DistinctIds(rooms)
    ensures UniqueIds(Outputs(rooms))
  {
  }

  lemma AssembledIsWellFormed(rooms: seq<Config.Room>, outputMap: map<Id, OutputContext>, groups: map<SocketAddr, seq<Id>>,
                              order: seq<SocketAddr>, instances: seq<map<Id, OutputContext>>, reverse: map<Id, nat>,
                              parseIp: string -> Option<nat>, home: Home)
    requires DistinctIds(rooms) && Built(rooms, outputMap, groups, order, instances, reverse, parseIp)
    requires home.rooms == rooms && home.outputIds == outputMap.Keys && home.route == reverse && home.capacity > 0
    requires forall id :: id in home.index <==> exists i :: i in Inputs(rooms) && i.id == id
    requires |home.controllers| == |instances| && forall k :: 0 <= k < |instances| ==> home.controllers[k] == DriveAll(instances[k])
    ensures WellFormed(home) && |home.controllers| == |order|
    ensures forall id :: id in home.outputIds <==> exists o :: o in Outputs(rooms) && o.id == id
    ensures forall output :: output in Outputs(rooms) ==> Serves(home, order, output, parseIp)
    ensures OnlyConfigured(home, order, parseIp)
  {
    hide ControllerAddress, Group, Inputs, Outputs, Built, LastOutput, Drive, Configured;
    assert |instances| == |order| by { AsManyAsGroups(rooms, outputMap, groups, order, instances, reverse, parseIp); }
    forall id
      ensures id in home.outputIds <==> exists o :: o in Outputs(rooms) && o.id == id
    {
      LastOutputIsConfigured(Outputs(rooms), id);
      SharedIds(rooms, outputMap, groups, order, instances, reverse, parseIp, id);
    }
    forall output | output in Outputs(rooms)
      ensures Serves(home, order, output, parseIp)
    {
      OutputIsServed(rooms, outputMap, groups, order, instances, reverse, parseIp, output);
    }
    forall k, id | 0 <= k < |home.controllers| && id in home.controllers[k]
      ensures id in home.outputIds && id in reverse && reverse[id] == k
    {
      OwnerIsUnique(rooms, outputMap, groups, order, instances, reverse, parseIp, k, id);
    }
    forall k, id | 0 <= k < |order| && id in home.controllers[k]
      ensures Configured(home.rooms, id, home.controllers[k][id], order[k], parseIp)
    {
      assert home.controllers[k] == DriveAll(instances[k]);
      OwnerIsUnique(rooms, outputMap, groups, order, instances, reverse, parseIp, k, id);
    }
    forall id | id in reverse
      ensures reverse[id] < |home.controllers| && id in home.controllers[reverse[id]]
    {
      RoutedIsOwned(rooms, outputMap, groups, order, instances, reverse, parseIp, id);
    }
  }

  lemma AsManyAsGroups(rooms: seq<Config.Room>, outputMap: map<Id, OutputContext>, groups: map<SocketAddr, seq<Id>>,
                       order: seq<SocketAddr>, instances: seq<map<Id, OutputContext>>, reverse: map<Id, nat>,
                       parseIp: string -> Option<nat>)
    requires Built(rooms, outputMap, groups, order, instances, reverse, parseIp)
    ensures |instances| == |order|
  {
  }

  lemma SharedIds(rooms: seq<Config.Room>, outputMap: map<Id, OutputContext>, groups: map<SocketAddr, seq<Id>>,
                  order: seq<SocketAddr>, instances: seq<map<Id, OutputContext>>, reverse: map<Id, nat>,
                  parseIp: string -> Option<nat>, id: Id)
    requires Built(rooms, outputMap, groups, order, instances, reverse, parseIp)
    ensures id in outputMap <==> LastOutput(Outputs(rooms), id).Some?
  {
  }

  /** The fixed part of the system, built by the source's functions in the source's order. One controller per address, in
      whatever order the hash map of the groups is visited. */
  method Assemble(rooms: seq<Config.Room>, rules: seq<Rule>, parseIp: string -> Option<nat>, lagBound: nat)
    returns (home: Home, addresses: seq<SocketAddr>)
    requires DistinctIds(rooms)
    ensures WellFormed(home) && |home.controllers| == |addresses|
    ensures home.rooms == rooms && home.capacity == 10_000 && home.lagBound == lagBound
    ensures forall id :: id in home.index <==> exists i :: i in Inputs(rooms) && i.id == id
    ensures forall id :: id in home.index ==> home.index[id] == RulesFor(rules, id)
    ensures forall id :: id in home.index && id != "" ==> exists at ::
              PlacesInOrder(at, rules, id) && HasAllPlaces(at, rules, id) && HasRulesAt(home.index[id], at, rules)
    ensures forall id :: id in home.outputIds <==> exists o :: o in Outputs(rooms) && o.id == id
    ensures forall output :: output in Outputs(rooms) ==> Serves(home, addresses, output, parseIp)
    ensures forall output :: output in Outputs(rooms) ==> DrivenAsConfigured(home, addresses, output, parseIp)
    ensures OnlyConfigured(home, addresses, parseIp)
    ensures Wired(home) <==> SeparatePins(rooms, parseIp)
    ensures forall a, b :: 0 <= a < b < |addresses| ==> addresses[a] != addresses[b]
  {
    hide RulesFor, LastInput, LastOutput, Groups, Inputs, Outputs, Serves, WellFormed, DistinctIds, UniqueIds, Wired, SeparatePins,
      OnlyConfigured, DrivenAsConfigured, PlacesInOrder, HasAllPlaces, HasRulesAt;
    var inputMap := MakeInputContextMap(rooms, rules);
    var outputMap := MakeOutputContextMap(rooms);
    var groups := MakeOutputControllerMap(rooms, parseIp);
    var order := Visit(groups.Keys);
    var instances, reverse := MakeControllers(outputMap, groups, order);
    addresses := order;
    home := Home(rooms, map id | id in inputMap :: inputMap[id].rules, outputMap.Keys, reverse,
                 seq(|instances|, k requires 0 <= k < |instances| => DriveAll(instances[k])), CHANNEL_CAPACITY, lagBound);
    DistinctOutputs(rooms);
    forall id
      ensures id in home.index <==> exists i :: i in Inputs(rooms) && i.id == id
    {
      LastInputIsConfigured(Inputs(rooms), id);
    }
    AssembledIsWellFormed(rooms, outputMap, groups, order, instances, reverse, parseIp, home);
    WiredIffSeparate(home, addresses, parseIp);
    forall output | output in Outputs(rooms)
      ensures DrivenAsConfigured(home, addresses, output, parseIp)
    {
      ServedIsDriven(home, addresses, output, parseIp);
    }
  }

}
