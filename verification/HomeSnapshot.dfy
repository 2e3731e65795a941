/** The home data sent to clients (`calaos_json_protocol.rs`): every input and output of every room with its current state. */
module HomeSnapshot {
  import opened Basics
  import opened IoValues
  import opened Config
  import Decimal

  datatype Item = InputItem(input: Input) | OutputItem(output: Output)

  datatype RoomIOData = RoomIOData(item: Item, varType: string, state: string)

  datatype RoomData = RoomData(name: string, typer: string, hits: string, items: seq<RoomIOData>)

  /** Integers travel as "float": the protocol has no integer type. */
  function ValueType(value: IOValue): string
  {
    match value
    case Int(_) => "float"
    case Bool(_) => "bool"
    case _ => "string"
  }

  function MakeRoomIOData(item: Item, value: Option<IOValue>): RoomIOData
  {
    match value
    case Some(v) => RoomIOData(item, ValueType(v), PrintValue(v))
    case None => RoomIOData(item, "string", "")
  }

  /** What an entry of the home data tells a client: which input or output it is, its state in text, and the type of that. Without a
      value the state is empty. A value can be read back from its text, except where text loses it; both moving states read "up". */
  ghost predicate Shows(entry: RoomIOData, item: Item, value: Option<IOValue>)
  {
    && entry.item == item
    && match value
       case None => entry.state == "" && entry.varType == "string"
       case Some(v) =>
         && entry.varType == (if v.Int? then "float" else if v.Bool? then "bool" else "string")
         && (ParseValue(entry.state) == v <==>
             && !(v.Shutter? && v.state in {MovingUp, MovingDown})
             && !(v.Text? && (Keyword(v.s) || Decimal.ParseSigned(v.s, I32_BOUND).Some?)))
         && (v.Shutter? && v.state in {MovingUp, MovingDown} ==> entry.state == "up")
         && (v.Text? ==> entry.state == v.s)
         && (v.Int? ==> Decimal.CanonicalSigned(entry.state))
  }

  lemma MadeDataShows(item: Item, value: Option<IOValue>)
    ensures Shows(MakeRoomIOData(item, value), item, value)
  {
    if value.Some? {
      IoValues.ParseUndoesPrint(value.value);
      if value.value.Int? {
        Decimal.PrintSignedIsCanonical(value.value.i);
      }
    }
  }

  function MakeRoomInput(input: Input, inputs: Values): Option<RoomIOData>
  {
    if input.id in inputs then Some(MakeRoomIOData(InputItem(input), inputs[input.id])) else None
  }

  function MakeRoomOutput(output: Output, outputs: Values): Option<RoomIOData>
  {
    if output.id in outputs then Some(MakeRoomIOData(OutputItem(output), outputs[output.id])) else None
  }

  function InputItems(configured: seq<Input>, inputs: Values): seq<RoomIOData>
  {
    if configured == [] then []
    else
      var item := MakeRoomInput(configured[0], inputs);
      (if item.Some? then [item.value] else []) + InputItems(configured[1..], inputs)
  }

  function OutputItems(configured: seq<Output>, outputs: Values): seq<RoomIOData>
  {
    if configured == [] then []
    else
      var item := MakeRoomOutput(configured[0], outputs);
      (if item.Some? then [item.value] else []) + OutputItems(configured[1..], outputs)
  }

  function RoomItems(room: Room, inputs: Values, outputs: Values): seq<RoomIOData>
  {
    InputItems(room.inputs, inputs) + OutputItems(room.outputs, outputs)
  }

  function MakeRooms(rooms: seq<Room>, inputs: Values, outputs: Values): (home: seq<RoomData>)
    ensures |home| == |rooms|
  {
    seq(|rooms|, i requires 0 <= i < |rooms| =>
      RoomData(rooms[i].name, rooms[i].typer, Decimal.Print(rooms[i].hits), RoomItems(rooms[i], inputs, outputs)))
  }

  /** Every room is there, in order, with its name, its type and its number of hits in plain digits. */
  lemma RoomsAreNamed(rooms: seq<Room>, inputs: Values, outputs: Values, r: nat)
    requires r < |rooms|
    ensures var room, data := rooms[r], MakeRooms(rooms, inputs, outputs)[r];
            && data.name == room.name && data.typer == room.typer
            && Decimal.ParseUnsigned(data.hits, room.hits) == Some(room.hits) && Decimal.CanonicalDigits(data.hits)
  {
    Decimal.ParseUnsignedUndoesPrint(rooms[r].hits, rooms[r].hits);
    Decimal.ValueOfPrint(rooms[r].hits);
  }

  lemma {:induction false} InputItemsComplete(configured: seq<Input>, inputs: Values)
    requires forall input :: input in configured ==> input.id in inputs
    ensures |InputItems(configured, inputs)| == |configured|
    ensures forall i :: 0 <= i < |configured| ==>
              InputItems(configured, inputs)[i] == MakeRoomIOData(InputItem(configured[i]), inputs[configured[i].id])
  {
    if configured != [] {
      assert configured[0] in configured;
      InputItemsComplete(configured[1..], inputs);
    }
  }

  lemma {:induction false} OutputItemsComplete(configured: seq<Output>, outputs: Values)
    requires forall output :: output in configured ==> output.id in outputs
    ensures |OutputItems(configured, outputs)| == |configured|
    ensures forall i :: 0 <= i < |configured| ==>
              OutputItems(configured, outputs)[i] == MakeRoomIOData(OutputItem(configured[i]), outputs[configured[i].id])
  {
    if configured != [] {
      assert configured[0] in configured;
      OutputItemsComplete(configured[1..], outputs);
    }
  }

  lemma {:induction false} InputItemsAppend(configured: seq<Input>, input: Input, inputs: Values)
    ensures InputItems(configured + [input], inputs)
            == InputItems(configured, inputs)
               + (if input.id in inputs then [MakeRoomIOData(InputItem(input), inputs[input.id])] else [])
  {
    if configured != [] {
      assert (configured + [input])[1..] == configured[1..] + [input];
      InputItemsAppend(configured[1..], input, inputs);
    }
  }

  lemma {:induction false} OutputItemsAppend(configured: seq<Output>, output: Output, outputs: Values)
    ensures OutputItems(configured + [output], outputs)
            == OutputItems(configured, outputs)
               + (if output.id in outputs then [MakeRoomIOData(OutputItem(output), outputs[output.id])] else [])
  {
    if configured != [] {
      assert (configured + [output])[1..] == configured[1..] + [output];
      OutputItemsAppend(configured[1..], output, outputs);
    }
  }

  /** Every id of the room has a cell. */
  ghost predicate RoomKnown(room: Room, inputs: Values, outputs: Values)
  {
    && (forall input :: input in room.inputs ==> input.id in inputs)
    && (forall output :: output in room.outputs ==> output.id in outputs)
  }

  /** The list of a room whose ids all have a cell: each input, then each output, with the value of its cell. */
  ghost predicate ListsAll(items: seq<RoomIOData>, room: Room, inputs: Values, outputs: Values)
    requires RoomKnown(room, inputs, outputs)
  {
    && |items| == |room.inputs| + |room.outputs|
    && (forall i :: 0 <= i < |room.inputs| ==>
        Shows(items[i], InputItem(room.inputs[i]), inputs[room.inputs[i].id]))
    && (forall i :: 0 <= i < |room.outputs| ==>
        Shows(items[|room.inputs| + i], OutputItem(room.outputs[i]), outputs[room.outputs[i].id]))
  }

  lemma RoomIsListed(room: Room, inputs: Values, outputs: Values)
    requires RoomKnown(room, inputs, outputs)
    ensures ListsAll(RoomItems(room, inputs, outputs), room, inputs, outputs)
  {
    hide Shows, MakeRoomIOData;
    InputItemsComplete(room.inputs, inputs);
    OutputItemsComplete(room.outputs, outputs);
    forall i | 0 <= i < |room.inputs|
      ensures Shows(RoomItems(room, inputs, outputs)[i], InputItem(room.inputs[i]), inputs[room.inputs[i].id])
    {
      MadeDataShows(InputItem(room.inputs[i]), inputs[room.inputs[i].id]);
    }
    forall i | 0 <= i < |room.outputs|
      ensures Shows(RoomItems(room, inputs, outputs)[|room.inputs| + i], OutputItem(room.outputs[i]), outputs[room.outputs[i].id])
    {
      MadeDataShows(OutputItem(room.outputs[i]), outputs[room.outputs[i].id]);
    }
  }

  /** `make_room_ios` extends a vector with the items found for the inputs, then for the outputs. */
  method MakeRoomIOs(room: Room, inputs: Values, outputs: Values) returns (ios: seq<RoomIOData>)
    ensures RoomKnown(room, inputs, outputs) ==> ListsAll(ios, room, inputs, outputs)
    ensures ios == RoomItems(room, inputs, outputs)
  {
    ios := [];
    for i := 0 to |room.inputs|
      invariant ios == InputItems(room.inputs[..i], inputs)
    {
      assert room.inputs[..i + 1] == room.inputs[..i] + [room.inputs[i]];
      InputItemsAppend(room.inputs[..i], room.inputs[i], inputs);
      var item := MakeRoomInput(room.inputs[i], inputs);
      if item.Some? {
        ios := ios + [item.value];
      }
    }
    assert room.inputs[..|room.inputs|] == room.inputs;
    for i := 0 to |room.outputs|
      invariant ios == InputItems(room.inputs, inputs) + OutputItems(room.outputs[..i], outputs)
    {
      assert room.outputs[..i + 1] == room.outputs[..i] + [room.outputs[i]];
      OutputItemsAppend(room.outputs[..i], room.outputs[i], outputs);
      var item := MakeRoomOutput(room.outputs[i], outputs);
      if item.Some? {
        ios := ios + [item.value];
      }
    }
    assert room.outputs[..|room.outputs|] == room.outputs;
    if RoomKnown(room, inputs, outputs) {
      RoomIsListed(room, inputs, outputs);
    }
  }

  /** When every configured id has a cell, nothing is filtered out: each room lists its inputs and then its outputs, in
      configuration order, each with the value of its cell. */
  lemma SnapshotIsComplete(rooms: seq<Room>, inputs: Values, outputs: Values, r: nat)
    requires r < |rooms|
    requires forall input :: input in Inputs(rooms) ==> input.id in inputs
    requires forall output :: output in Outputs(rooms) ==> output.id in outputs
    ensures RoomKnown(rooms[r], inputs, outputs)
    ensures ListsAll(MakeRooms(rooms, inputs, outputs)[r].items, rooms[r], inputs, outputs)
  {
    RoomBelongs(rooms, r);
    RoomIsListed(rooms[r], inputs, outputs);
  }
}
