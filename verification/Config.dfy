/** The configuration as decoded from its files (`config/io.rs`): rooms with their inputs and outputs. */
module Config {
  import opened Basics
  import opened Coils

  datatype WagoIO = WagoIO(host: string, port: string, pin: Var)

  datatype WagoIOUpDown = WagoIOUpDown(host: string, port: string, varUp: Var, varDown: Var, time: nat)

  datatype InputKind =
    | InputTime
    | WIDigitalBP(io: WagoIO)
    | WIDigitalLong(io: WagoIO)
    | WIDigitalTriple(io: WagoIO)
    | MySensorsInputAnalog
    | MySensorsInputTemp
    | Scenario

  datatype Input = Input(name: string, id: Id, kind: InputKind)

  datatype OutputKind =
    | HueOutputLightRGB
    | WODigital(io: WagoIO)
    | WOShutter(updown: WagoIOUpDown)
    | MySensorsOutputShutterSmart

  datatype Output = Output(name: string, id: Id, kind: OutputKind)

  datatype Room = Room(name: string, typer: string, hits: nat, inputs: seq<Input>, outputs: seq<Output>)

  /** All inputs, room by room. */
  function Inputs(rooms: seq<Room>): seq<Input>
  {
    if rooms == [] then [] else Inputs(rooms[..|rooms| - 1]) + rooms[|rooms| - 1].inputs
  }

  /** All outputs, room by room. */
  function Outputs(rooms: seq<Room>): seq<Output>
  {
    if rooms == [] then [] else Outputs(rooms[..|rooms| - 1]) + rooms[|rooms| - 1].outputs
  }

  lemma {:induction false} RoomBelongs(rooms: seq<Room>, i: nat)
    requires i < |rooms|
    ensures forall x :: x in rooms[i].inputs ==> x in Inputs(rooms)
    ensures forall x :: x in rooms[i].outputs ==> x in Outputs(rooms)
  {
    if i < |rooms| - 1 {
      RoomBelongs(rooms[..|rooms| - 1], i);
    }
  }

  /** One more room: its inputs and outputs follow those of the rooms before it. */
  lemma RoomAppend(rooms: seq<Room>, room: Room)
    ensures Inputs([]) == [] && Outputs([]) == []
    ensures Inputs(rooms + [room]) == Inputs(rooms) + room.inputs
    ensures Outputs(rooms + [room]) == Outputs(rooms) + room.outputs
  {
    assert (rooms + [room])[..|rooms|] == rooms;
  }
}
