/** The UDP server (`main_server.rs`): raw input states are broadcast, and the presses of long-press buttons are told apart by
    their duration. */
module PressClassifier {
  import opened Basics
  import opened IoValues
  import opened Config
  import CalaosProtocol

  const LONG_PRESS: int := 400 * MILLISECOND

  /** A variable as datagrams name it. */
  datatype WagoVar = WagoVar(pin: nat)

  /** One value of a variable, with the instant at which its datagram was handled. */
  datatype Sample = Sample(pin: WagoVar, value: nat, at: Instant)

  predicate ToBool(value: nat)
  {
    value != 0
  }

  function VarOf(input: Input): Option<WagoVar>
  {
    match input.kind
    case WIDigitalBP(io) => Some(WagoVar(io.pin as nat))
    case WIDigitalLong(io) => Some(WagoVar(io.pin as nat))
    case _ => None
  }

  /** The last plain or long-press input with that variable. */
  function LastWithVar(inputs: seq<Input>, pin: WagoVar): Option<Input>
  {
    if inputs == [] then None
    else if VarOf(inputs[|inputs| - 1]) == Some(pin) then Some(inputs[|inputs| - 1])
    else LastWithVar(inputs[..|inputs| - 1], pin)
  }

  /** One more input: it takes the place of any before it with the same variable, if it is a plain or a long-press one. */
  lemma LastWithVarAppend(inputs: seq<Input>, input: Input, pin: WagoVar)
    ensures LastWithVar([], pin) == None
    ensures LastWithVar(inputs + [input], pin)
            == if (input.kind.WIDigitalBP? || input.kind.WIDigitalLong?) && input.kind.io.pin as nat == pin.pin
               then Some(input) else LastWithVar(inputs, pin)
  {
    assert (inputs + [input])[..|inputs|] == inputs;
  }

  /** `make_input_var_map`. Only plain and long-press inputs are entered. */
  method MakeInputVarMap(rooms: seq<Room>) returns (m: map<WagoVar, Input>)
    ensures forall pin :: pin in m <==> LastWithVar(Inputs(rooms), pin).Some?
    ensures forall pin :: pin in m ==> m[pin] == LastWithVar(Inputs(rooms), pin).value && VarOf(m[pin]) == Some(pin)
  {
    m := map[];
    for i := 0 to |rooms|
      invariant forall pin :: pin in m <==> LastWithVar(Inputs(rooms[..i]), pin).Some?
      invariant forall pin :: pin in m ==> m[pin] == LastWithVar(Inputs(rooms[..i]), pin).value && VarOf(m[pin]) == Some(pin)
    {
      var inputs := rooms[i].inputs;
      ghost var before := Inputs(rooms[..i]);
      assert before + inputs[..0] == before;
      for j := 0 to |inputs|
        invariant forall pin :: pin in m <==> LastWithVar(before + inputs[..j], pin).Some?
        invariant forall pin :: pin in m ==>
                    m[pin] == LastWithVar(before + inputs[..j], pin).value && VarOf(m[pin]) == Some(pin)
      {
        ghost var list := before + inputs[..j + 1];
        assert list[|list| - 1] == inputs[j] && list[..|list| - 1] == before + inputs[..j];
        match inputs[j].kind {
          case WIDigitalBP(io) => m := m[WagoVar(io.pin as nat) := inputs[j]];
          case WIDigitalLong(io) => m := m[WagoVar(io.pin as nat) := inputs[j]];
          case _ =>
        }
      }
      assert rooms[..i + 1][..i] == rooms[..i] && inputs[..|inputs|] == inputs;
      assert Inputs(rooms[..i + 1]) == before + inputs;
    }
    assert rooms[..|rooms|] == rooms;
  }

  // ----- what the history of samples means -----

  /** The latest sample of a variable. */
  function Latest(history: seq<Sample>, pin: WagoVar): Option<Sample>
  {
    if history == [] then None
    else if history[|history| - 1].pin == pin then Some(history[|history| - 1])
    else Latest(history[..|history| - 1], pin)
  }

  /** The immediately preceding sample of the variable was a press, at least the long-press time ago. */
  predicate LongPress(history: seq<Sample>, sample: Sample)
  {
    var previous := Latest(history, sample.pin);
    previous.Some? && previous.value.value != 0 && sample.at - previous.value.at >= LONG_PRESS
  }

  /** The command that a sample gives rise to, after the history before it. */
  function Emits(inputs: map<WagoVar, Input>, history: seq<Sample>, sample: Sample): Option<IODataAction>
  {
    if sample.pin !in inputs then None
    else
      var input := inputs[sample.pin];
      match input.kind
      case WIDigitalBP(_) => Some(IODataAction(input.id, SetValue(Bool(sample.value != 0))))
      case WIDigitalLong(_) =>
        if sample.value != 0 then None
        else Some(IODataAction(input.id, SetValue(Int(if LongPress(history, sample) then 2 else 1))))
      case _ => None
  }

  /** All commands of a history, in order. */
  function Commands(inputs: map<WagoVar, Input>, history: seq<Sample>): seq<IODataAction>
  {
    if history == [] then []
    else
      var front, last := history[..|history| - 1], history[|history| - 1];
      var emitted := Emits(inputs, front, last);
      Commands(inputs, front) + (if emitted.Some? then [emitted.value] else [])
  }

  /** The samples of one variable. */
  function OfVar(history: seq<Sample>, pin: WagoVar): seq<Sample>
  {
    if history == [] then []
    else
      var last := history[|history| - 1];
      OfVar(history[..|history| - 1], pin) + (if last.pin == pin then [last] else [])
  }

  lemma {:induction false} LatestOfVar(history: seq<Sample>, pin: WagoVar)
    ensures Latest(OfVar(history, pin), pin) == Latest(history, pin)
    ensures forall s :: s in OfVar(history, pin) ==> s.pin == pin
  {
    if history != [] {
      var last := history[|history| - 1];
      LatestOfVar(history[..|history| - 1], pin);
      if last.pin == pin {
        var own := OfVar(history, pin);
        assert own[|own| - 1] == last;
      } else {
        assert OfVar(history, pin) == OfVar(history[..|history| - 1], pin);
      }
    }
  }

  /** The commands of a history that samples of variable `pin` give rise to, each after the whole history before it. */
  function CommandsOf(inputs: map<WagoVar, Input>, history: seq<Sample>, pin: WagoVar): seq<IODataAction>
  {
    if history == [] then []
    else
      var front, last := history[..|history| - 1], history[|history| - 1];
      var emitted := if last.pin == pin then Emits(inputs, front, last) else None;
      CommandsOf(inputs, front, pin) + (if emitted.Some? then [emitted.value] else [])
  }

  lemma EmitsAlone(inputs: map<WagoVar, Input>, history: seq<Sample>, sample: Sample)
    ensures Emits(inputs, history, sample) == Emits(inputs, OfVar(history, sample.pin), sample)
  {
    LatestOfVar(history, sample.pin);
  }

  /** Variables do not influence each other: in any history, the commands of a variable are those of the history of its own samples
      alone. */
  lemma {:induction false} VariablesAreIndependent(inputs: map<WagoVar, Input>, history: seq<Sample>, pin: WagoVar)
    ensures CommandsOf(inputs, history, pin) == Commands(inputs, OfVar(history, pin))
  {
    hide Emits;
    if history != [] {
      var front, last := history[..|history| - 1], history[|history| - 1];
      VariablesAreIndependent(inputs, front, pin);
      if last.pin == pin {
        EmitsAlone(inputs, front, last);
        var own := OfVar(history, pin);
        assert own == OfVar(front, pin) + [last];
        assert own[..|own| - 1] == OfVar(front, pin);
      } else {
        assert OfVar(history, pin) == OfVar(front, pin);
      }
    }
  }

  /** The commands for one input, in order. */
  function ForInput(cmds: seq<IODataAction>, id: Id): seq<IODataAction>
  {
    if cmds == [] then []
    else
      var last := cmds[|cmds| - 1];
      ForInput(cmds[..|cmds| - 1], id) + (if last.id == id then [last] else [])
  }

  lemma ForInputAppend(cmds: seq<IODataAction>, cmd: IODataAction, id: Id)
    ensures ForInput(cmds + [cmd], id) == ForInput(cmds, id) + (if cmd.id == id then [cmd] else [])
  {
    assert (cmds + [cmd])[..|cmds|] == cmds;
  }

  /** What is enqueued for an input is what the samples of its variable alone come to, when no other variable leads to its id. */
  lemma {:induction false} InputHearsItsVariable(inputs: map<WagoVar, Input>, history: seq<Sample>, pin: WagoVar)
    requires pin in inputs && forall other :: other in inputs && inputs[other].id == inputs[pin].id ==> other == pin
    ensures ForInput(Commands(inputs, history), inputs[pin].id) == Commands(inputs, OfVar(history, pin))
  {
    InputCommands(inputs, history, pin);
    VariablesAreIndependent(inputs, history, pin);
  }

  lemma {:induction false} InputCommands(inputs: map<WagoVar, Input>, history: seq<Sample>, pin: WagoVar)
    requires pin in inputs && forall other :: other in inputs && inputs[other].id == inputs[pin].id ==> other == pin
    ensures ForInput(Commands(inputs, history), inputs[pin].id) == CommandsOf(inputs, history, pin)
  {
    hide Emits;
    if history != [] {
      var front, last := history[..|history| - 1], history[|history| - 1];
      InputCommands(inputs, front, pin);
      var emitted := Emits(inputs, front, last);
      if emitted.Some? {
        EmitsForOwn(inputs, front, last);
        ForInputAppend(Commands(inputs, front), emitted.value, inputs[pin].id);
      } else {
        assert Commands(inputs, front) + [] == Commands(inputs, front);
      }
    }
  }

  lemma EmitsForOwn(inputs: map<WagoVar, Input>, history: seq<Sample>, sample: Sample)
    requires Emits(inputs, history, sample).Some?
    ensures sample.pin in inputs && Emits(inputs, history, sample).value.id == inputs[sample.pin].id
  {
    hide LongPress;
  }

  // ----- the server -----

  /** A long-press variable has an instant exactly while its latest sample is a press, and it is the instant of that press. */
  ghost predicate Remembers(inputs: map<WagoVar, Input>, lastChange: map<WagoVar, Instant>, history: seq<Sample>)
  {
    && (forall pin :: pin in lastChange <==>
        && pin in inputs && inputs[pin].kind.WIDigitalLong?
        && Latest(history, pin).Some? && Latest(history, pin).value.value != 0)
    && (forall pin :: pin in lastChange ==> lastChange[pin] == Latest(history, pin).value.at)
  }

  lemma LatestAppend(history: seq<Sample>, sample: Sample)
    ensures forall pin :: Latest(history + [sample], pin) == if sample.pin == pin then Some(sample) else Latest(history, pin)
  {
    assert (history + [sample])[..|history|] == history;
  }

  /** A sample of a variable that is not a long-press one leaves what is remembered as it is. */
  lemma OtherSample(inputs: map<WagoVar, Input>, lastChange: map<WagoVar, Instant>, history: seq<Sample>, sample: Sample)
    requires Remembers(inputs, lastChange, history)
    requires sample.pin in inputs ==> !inputs[sample.pin].kind.WIDigitalLong?
    ensures Remembers(inputs, lastChange, history + [sample])
  {
    hide Latest;
    LatestAppend(history, sample);
  }

  lemma PressSample(inputs: map<WagoVar, Input>, lastChange: map<WagoVar, Instant>, history: seq<Sample>, sample: Sample)
    requires Remembers(inputs, lastChange, history)
    requires sample.pin in inputs && inputs[sample.pin].kind.WIDigitalLong?
    ensures Remembers(inputs, if sample.value != 0 then lastChange[sample.pin := sample.at] else lastChange - {sample.pin},
                      history + [sample])
  {
    hide Latest;
    LatestAppend(history, sample);
  }

  lemma CommandsAppend(inputs: map<WagoVar, Input>, history: seq<Sample>, sample: Sample)
    ensures var emitted := Emits(inputs, history, sample);
            Commands(inputs, history + [sample])
            == Commands(inputs, history) + (if emitted.Some? then [emitted.value] else [])
  {
    hide Emits;
    assert (history + [sample])[..|history|] == history;
  }

  datatype Received = Received(text: string, at: Instant)

  class UdpServer {
    const inputVarMap: map<WagoVar, Input>
    var lastChange: map<WagoVar, Instant>
    var commands: seq<IODataAction>
    var feedback: seq<IOData>
    ghost var history: seq<Sample>

    /** Presses are remembered as the history has them, and the commands are those of the history. */
    ghost predicate Valid()
      reads this
    {
      && (forall pin :: pin in inputVarMap ==> inputVarMap[pin].kind.WIDigitalBP? || inputVarMap[pin].kind.WIDigitalLong?)
      && Remembers(inputVarMap, lastChange, history)
      && commands == Commands(inputVarMap, history)
    }

    constructor (inputVarMap: map<WagoVar, Input>)
      requires forall pin :: pin in inputVarMap ==> VarOf(inputVarMap[pin]) == Some(pin)
      ensures Valid() && this.inputVarMap == inputVarMap && history == [] && feedback == []
    {
      this.inputVarMap := inputVarMap;
      lastChange, commands, feedback, history := map[], [], [], [];
    }

    /** A sample of a long-press variable: a press is remembered, a release is told apart by how long the press was. */
    method HandleLong(pin: WagoVar, value: nat, now: Instant) returns (reported: Option<IOValue>)
      requires pin in inputVarMap && inputVarMap[pin].kind.WIDigitalLong? && Remembers(inputVarMap, lastChange, history)
      modifies this`lastChange
      ensures Remembers(inputVarMap, lastChange, history + [Sample(pin, value, now)])
      ensures value != 0 ==> reported == None
      ensures value == 0 ==>
                var previous := Latest(history, pin);
                reported == Some(Int(if previous.Some? && previous.value.value != 0
                                        && now - previous.value.at >= 400 * MILLISECOND then 2 else 1))
    {
      hide Latest;
      PressSample(inputVarMap, lastChange, history, Sample(pin, value, now));
      if ToBool(value) {
        lastChange := lastChange[pin := now];
        return None;
      }
      var instant := if pin in lastChange then lastChange[pin] else now;
      lastChange := lastChange - {pin};
      reported := Some(Int(if now - instant < LONG_PRESS then 1 else 2));
    }

    /** One WAGO datagram, handled at instant `now`. The kinds other than plain and long-press are not in the map. */
    method HandleWagoInt(pin: WagoVar, value: nat, now: Instant)
      requires Valid()
      modifies this
      ensures Valid() && history == old(history) + [Sample(pin, value, now)]
      ensures pin !in inputVarMap ==> feedback == old(feedback) && commands == old(commands)
      ensures pin in inputVarMap ==> feedback == old(feedback) + [IOData(inputVarMap[pin].id, Bool(value != 0))]
      ensures pin in inputVarMap && inputVarMap[pin].kind.WIDigitalBP? ==>
                commands == old(commands) + [IODataAction(inputVarMap[pin].id, SetValue(Bool(value != 0)))]
      ensures pin in inputVarMap && inputVarMap[pin].kind.WIDigitalLong? && value != 0 ==> commands == old(commands)
      ensures pin in inputVarMap && inputVarMap[pin].kind.WIDigitalLong? && value == 0 ==>
                var previous := Latest(old(history), pin);
                var long := previous.Some? && previous.value.value != 0 && now - previous.value.at >= 400 * MILLISECOND;
                commands == old(commands) + [IODataAction(inputVarMap[pin].id, SetValue(Int(if long then 2 else 1)))]
    {
      hide Remembers, Commands, Latest;
      ghost var sample := Sample(pin, value, now);
      CommandsAppend(inputVarMap, history, sample);
      if pin in inputVarMap {
        var input := inputVarMap[pin];
        var dataBool := ToBool(value);
        feedback := feedback + [IOData(input.id, Bool(dataBool))];
        var reported: Option<IOValue>;
        match input.kind {
          case WIDigitalBP(_) =>
            OtherSample(inputVarMap, lastChange, history, sample);
            reported := Some(Bool(dataBool));
          case WIDigitalLong(_) =>
            reported := HandleLong(pin, value, now);
        }
        if reported.Some? {
          commands := commands + [IODataAction(input.id, SetValue(reported.value))];
        }
      } else {
        OtherSample(inputVarMap, lastChange, history, sample);
      }
      history := history + [sample];
    }

    /** The receive loop. It ends at the first datagram that does not parse. */
    method Run(datagrams: seq<Received>) returns (handled: nat)
      requires Valid()
      modifies this
      ensures Valid() && handled <= |datagrams|
      ensures forall i :: 0 <= i < handled ==> CalaosProtocol.ParseRequest(datagrams[i].text).Some?
      ensures handled < |datagrams| ==> CalaosProtocol.ParseRequest(datagrams[handled].text).None?
      ensures history == old(history) + Samples(datagrams[..handled])
    {
      hide CalaosProtocol.ParseRequest;
      handled := 0;
      while handled < |datagrams|
        invariant Valid() && handled <= |datagrams|
        invariant forall i :: 0 <= i < handled ==> CalaosProtocol.ParseRequest(datagrams[i].text).Some?
        invariant history == old(history) + Samples(datagrams[..handled])
      {
        assert datagrams[..handled + 1][..handled] == datagrams[..handled];
        match CalaosProtocol.ParseRequest(datagrams[handled].text) {
          case None =>
            return;
          case Some(Discover) =>
          case Some(WagoInt(data)) =>
            HandleWagoInt(WagoVar(data.pin), data.value, datagrams[handled].at);
        }
        handled := handled + 1;
      }
    }
  }

  /** The samples that a run of well-formed datagrams carries. */
  function Samples(datagrams: seq<Received>): seq<Sample>
  {
    if datagrams == [] then []
    else
      var last := datagrams[|datagrams| - 1];
      Samples(datagrams[..|datagrams| - 1])
      + match CalaosProtocol.ParseRequest(last.text)
        case Some(WagoInt(data)) => [Sample(WagoVar(data.pin), data.value, last.at)]
        case _ => []
  }

  /** One more datagram: it carries a sample exactly when it parses as a WAGO datagram, of just that variable and value. */
  lemma SamplesAppend(datagrams: seq<Received>, last: Received)
    ensures Samples([]) == []
    ensures Samples(datagrams + [last])
            == Samples(datagrams)
               + match CalaosProtocol.ParseRequest(last.text)
                 case Some(WagoInt(data)) => [Sample(WagoVar(data.pin), data.value, last.at)]
                 case _ => []
  {
    hide CalaosProtocol.ParseRequest;
    assert (datagrams + [last])[..|datagrams|] == datagrams;
  }
}
