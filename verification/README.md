# Calaos: the command and feedback pipeline

A Dafny model of the part of Calaos that moves motors: commands come in from buttons, websocket clients and MQTT, the rules
engine turns input events into output commands, a dispatcher hands each command to the controller of its output, and the
controllers drive coils over Modbus and broadcast what they did. `dafny verify dfyconfig.toml` verifies everything.

Layers, from the coils up:

- `Basics`, `Coils`, `Decimal`, `IoValues`, `Config`: vocabulary, addresses, text forms, configuration.
- `Modbus`, `WagoController`: the Modbus client and the output controller as a machine. One turn of the `select!` loop is a list
  of operations; each operation - each coil write above all - is one step, and what latency, failure and scheduling do to it
  is an arbitrary parameter (`Env`). A statement for all `Env`s is a statement for all latencies and failures.
- `WagoControllerSafety`, `WagoControllerCommands`, `WagoControllerFeedback`: what all runs of that machine keep.
  `WagoInterlock`, `WagoTravel`, `WagoAgreement`: for exactly which wirings. `WagoControllerRelays`, `WagoControllerOwners`: what
  they keep for every wiring. `WagoControllerJourneys`: where a shutter is. `WagoControllerWrites`: the addresses written, and when
  a move ends. `WagoControllerLife`: the sum.
  `WagoControllerMoves`: that the moves they speak of take place and come to their end. `WagoControllerTasks`: that every timer
  turn is paid for by a move.
- `WagoControllerRun`: the classes of the source with their fields, loops and in-place updates; every method is proved to do what
  the machine does, so `Run` inherits all its theorems.
- `RulesEngine`, `RulesEngineRun`, `FeedbackLog`, `HomeSnapshot`, `IoContext`: the engine with its two interleaved tasks, the
  broadcast log, the home data, the index and the grouping.
- `Channels`, `Pipeline`, `PipelineSafety`, `PipelineProgress`, `PipelineRest`, `PipelineCommands`, `Assembly`: everything joined by
  bounded queues; its invariants, its termination measure, the rest it comes to, its meaning from end to end, and its
  construction from a configuration. `PipelineMotors`: the controllers inside it.
- `PressClassifier`, `WebsocketSession`, `CalaosProtocol`, `MqttTopics`: the edges.

The theorems to read first are `WagoControllerLife.EveryRunIsSafe`, `WagoInterlock.InterlockIffSafeWiring`,
`WagoTravel.FullTravelIffTravelSafe`, `WagoAgreement.AgreementIffDisjoint`, `WagoControllerOwners.EveryCoilIsOwned`,
`WagoControllerRun.WagoModbusController.Run`, `PipelineSafety.EveryRun` with the theorems after it,
`PipelineMotors.MotorsAreSafe`, `PipelineMotors.NoMotorLeftRunning`, `PipelineProgress.PipelineDrains`,
`PipelineRest.DrainsToRest`, `PipelineRest.CanComeToRest`, `PipelineCommands.DigitalIsAsCommanded` and
`PipelineMotors.ShutterAtRest`.

## Assumptions

- Time is an integer clock in nanoseconds that never goes back. A sleep ends at or after its deadline; how much later is
  arbitrary. Every controller has its own clock; nothing compares two of them. A datagram is handled at one instant.
- The choice among ready `select!` branches is arbitrary. Hash maps are visited in an arbitrary order.
- The maps are fresh when the controllers start: all values are absent.
- `Disjoint`: no two pins of a controller's configuration name one coil that can be written. The agreement of values, coils and
  tasks is stated under it, and what follows from agreement: motors off at rest, the command table, and where a shutter ends up.
  `AgreementIffDisjoint` shows that agreement needs it. `InterlockIffSafeWiring` and `FullTravelIffTravelSafe` say exactly what the
  interlock and full travel need, which is less. Nothing else depends on the wiring. `Assembly.Assemble` says which configurations
  are `Disjoint`.
- Ids of outputs are unique and differ from those of inputs (`Assembly.DistinctIds`); nothing is asked of rules, variables, hosts
  or ports, and inputs may repeat ids.
- A failed Modbus request, whether or not it had an effect, ends its controller and with it the program, as `?` does in the
  source. What is proved of logs - spacing, interlock, travel - holds up to and including the failed write; agreement of values,
  coils and deadlines is claimed only while nothing has failed. A failed request may leave a motor on.
- A broadcast receiver that lags ends: the rules engine, and with it the program, or one websocket session. How far it may lag
  is a parameter.
- Reading an IP address, verifying a login and mapping a payload to upper case are parameters.

## Where the code surprises

The model follows the code. Each of these is a consequence of a theorem below.

- A motor is interlocked only if the configuration is wired safely, or cannot start at all. Variables equal or differing only in
  bit 12 share a coil, and no code rejects such a configuration: there are commands that then switch both coils of a shutter on
  (`UnsafeWiringBreaks`), to stop a shutter before its time (`SharedCoilCuts`), or to leave a value that its coil does not have
  (`SharedWiringDisagrees`).
- A stopped shutter always reports "up", whichever way it was going (`NextShutterState` in `CommandIsObeyed`).
- A toggle sent to a shutter that has not been commanded yet is ignored, although the shared map shows it as up
  (`CommandIsObeyed`, `SharedValueIsLocal`).
- Both directions of travel print as "up", the downward one included (`IoValues.ParseUndoesPrint`).
- "At least" and "at most" are false between equal values that are not integers (`OperatorsOrderIntegersOnly`).
- An MQTT node id with a `/` subscribes to topics that are then ignored, and one with a wildcard to the wrong ones or to none
  (`AgreementIff`).
- A datagram that does not parse ends the UDP server (`UdpServer.Run`).
- `var + 0x200` wraps around when overflow is unchecked, as in a release build; a debug build panics instead
  (`Coils.InputAddress`).

## Model

| member | source | states |
|---|---|---|
| Coils.AddressableIffSixteenBits | core/src/io/wago_modbus_controller.rs:202 | A variable can be written exactly when it fits in 16 bits |
| Coils.AliasIffDifferInBitTwelve | core/src/io/wago_modbus_controller.rs:202 | Two variables name one coil exactly when they are equal or differ in bit 12 alone, for all 32-bit variables |
| Coils.CoilSetsBitTwelve | core/src/io/wago_modbus_controller.rs:202 | The coil of a variable has bit 12 set, and its other 31 bits are those of the variable |
| Coils.CoilIsHigher | core/src/io/wago_modbus_controller.rs:202 | In numbers: each of the first 4096 variables can be written, at the coil 4096 higher |
| Coils.InputPlace | core/src/io/wago_modbus_controller.rs:190 | A read goes 512 higher than the variable where that fits 16 bits, and nowhere beyond, but for the last 512 variables, which wrap around to the first inputs |
| Decimal.ParseUndoesPrint | core/src/io_value.rs:69-71 | Parsing inverts printing on a whole two's complement range, the least value included |
| Decimal.PrintUndoesParse | core/src/io_value.rs:69-71 | Printing gives a parsed text back exactly when it had no plus sign, leading zero or negative zero |
| Decimal.ParseUnsignedUndoesPrint | core/src/io_context.rs:516-522 | An unsigned number reads back from its printed form, or is refused when it exceeds the type |
| Decimal.ValueAppend | core/src/io_value.rs:69-71 | Digits are read in positional notation: one more makes ten times the number plus that digit |
| Decimal.UnsignedIff | core/src/io_context.rs:516-522 | What is read as an unsigned number, exactly: digits, with or without a plus sign, of a value that fits |
| Decimal.SignedIff | core/src/io_value.rs:69-71 | What is read as a signed number, exactly: besides that, digits after a minus sign, down to the least value |
| IoValues.ReadsAs | core/src/io_value.rs:64-101 | What a text is read as, exactly: an integer when it is one of 32 bits, "true", "false", "up" and "down" as what they say, any other text as itself; "toggle" and "stop" are actions |
| IoValues.PrintUndoesParse | core/src/io_value.rs:64-133 | A text survives parsing and printing, as value and as action, exactly when it is not an odd spelling of a 32-bit integer |
| IoValues.ReparseIsStable | core/src/io_value.rs:64-133 | Parsing the printed form of any parsed text changes nothing; parsing never yields a moving shutter |
| IoValues.ParseUndoesPrint | core/src/io_value.rs:64-123 | A value survives printing and parsing exactly when it is not a moving shutter nor a text that reads as something else |
| IoValues.ToggleReverses | core/src/io_value.rs:48-62 | Toggling negates booleans, complements integers, asks a shutter for the side opposite to where it is or goes, and fails on text only |
| Modbus.Pause | core/src/io/modbus_client.rs:53-58 | The added wait before a write is between zero and 15 ms, and just enough: none before the first write to a coil, and with it the write starts no earlier and no later than 15 ms after the instant kept |
| Modbus.WriteKeepsSpacing | core/src/io/modbus_client.rs:48-63 | Any write, successful or not, keeps all writes to one coil at least 15 ms apart from completion to start, and the kept instants at or after the last completions |
| WagoController.Drain | core/src/io/wago_modbus_controller.rs:65-180 | A turn, run to its end under any surroundings, leaves nothing to do |
| WagoController.DrainIsRun | core/src/io/wago_modbus_controller.rs:65-180 | Running a turn to its end is a run of single steps |
| WagoControllerSafety.BootIsSound | core/src/io/wago_modbus_controller.rs:42-63 | The initialisation, in whatever order and under whatever surroundings, ends at a loop head where everything agrees, or fails with a safe log |
| WagoControllerSafety.CommandIsSound | core/src/io/wago_modbus_controller.rs:67-149 | So does the turn begun by any command, known id or not, whatever value it carries |
| WagoControllerSafety.TimerIsSound | core/src/io/wago_modbus_controller.rs:150-175 | So does a timer turn; it removes exactly the tasks due at the sampled instant, at least one, and exactly their shutters arrive at their targets with both coils off |
| WagoControllerSafety.EventKeepsSound | core/src/io/wago_modbus_controller.rs:65-180 | Every single step, in the middle of a turn too, keeps a run sound |
| WagoControllerSafety.ControllerIsSafe | core/src/io/wago_modbus_controller.rs:33-181 | In every state of every run relays are spaced, whatever the wiring. With no two pins on one writable coil, the two coils of a shutter are on together at no prefix of the write log, and a move ended by the timer was energised for its full time since its own last on-write; at loop heads, values, coils and tasks agree, and timer turns are no more than moves started |
| WagoControllerRelays.StepKeepsPaced | core/src/io/modbus_client.rs:48-63 | Every operation of a turn keeps the spacing and what the client needs to keep it |
| WagoControllerRelays.RelaysAreProtected | core/src/io/modbus_client.rs:48-63 | In every state of every run of every controller, for every wiring and all latencies and failures: at least 15 ms from the completion of a write to the start of any later write to its coil, and no write held back for longer than 15 ms |
| WagoControllerLife.EveryRunIsSafe | core/src/io/wago_modbus_controller.rs:33-181 | Every state of every run: spacing, paid timer turns and owned coils for every wiring; interlock, full travel and agreement each for every wiring that allows it, or that never gets to its loop |
| WagoControllerSafety.HeadShows | core/src/io/wago_modbus_controller.rs:102-174 | At a loop head a shutter's value, its two coils and its pending task determine each other; a task always belongs to a configured shutter moving to its target, so the two warnings of the timer branch cannot occur |
| WagoControllerCommands.CommandIsObeyed | core/src/io/wago_modbus_controller.rs:82-148 | A turn that does not fail leaves the commanded output in the state of the command table (`NextShutterState`, `NextDigital`), coils and deadline included, and all others as they were |
| WagoControllerCommands.TableMeans | core/src/io/wago_modbus_controller.rs:112-125 | What the command table comes to: a stop, or a value no shutter has, stops; a side asked for is moved to, unless the shutter moves there already, which stops it; a toggle moves to the opposite side, and is ignored exactly while that is unknown |
| WagoControllerCommands.DigitalTableMeans | core/src/io/wago_modbus_controller.rs:85-111 | A digital output becomes the opposite exactly by a toggle or that value, stays by its own value, and ignores exactly stops and other values |
| WagoControllerFeedback.StepKeepsMirror | core/src/io/wago_modbus_controller.rs:231-240 | After every step each output that has a value was last reported with it, and only own outputs are reported |
| WagoControllerFeedback.HeadIsReported | core/src/io/wago_modbus_controller.rs:45-63 | At a loop head every served output has been reported, with its local value, or as up for a shutter without one |
| WagoInterlock.SafeWiringSuffices | core/src/io/wago_modbus_controller.rs:126-143 | On a safe wiring the motor interlock holds in every run |
| WagoInterlock.UnsafeWiringBreaks | core/src/io/wago_modbus_controller.rs:126-143 | For every other wiring whose initialisation can get to its end there is a run that switches both coils of a shutter on |
| WagoInterlock.UnbootableIsInterlocked | core/src/io/wago_modbus_controller.rs:45-63 | A controller with a shutter or digital state that has no address fails in its initialisation, and switches nothing on in any run |
| WagoInterlock.InterlockIffSafeWiring | core/src/io/wago_modbus_controller.rs:126-143 | For every configuration: the interlock holds in every run if and only if the wiring is safe or the initialisation cannot get to its end |
| WagoTravel.TravelSafeSuffices | core/src/io/wago_modbus_controller.rs:150-174 | With no coil of a shutter shared whose travel takes longer than 15 ms, every move that the timer ended was full, at every point of every run |
| WagoTravel.SharedCoilCuts | core/src/io/wago_modbus_controller.rs:150-174 | For any such shared coil, if the initialisation can get to its end, there is a run in which the timer cuts a travel short |
| WagoTravel.FullTravelIffTravelSafe | core/src/io/wago_modbus_controller.rs:133-174 | For every configuration: travels are full in every run if and only if no coil of a shutter slower than 15 ms is shared with another output or the loop is never reached |
| WagoAgreement.SharedWiringDisagrees | core/src/io/wago_modbus_controller.rs:102-148 | If two pins name one writable coil and the initialisation can get to its end, there is a run that reaches a loop head, without failure, where something disagrees |
| WagoAgreement.AgreementIffDisjoint | core/src/io/wago_modbus_controller.rs:102-174 | For every configuration: values, coils and tasks agree at all unfailed loop heads of all runs if and only if no two pins name one writable coil or the loop is never reached |
| WagoControllerOwners.EveryCoilIsOwned | core/src/io/wago_modbus_controller.rs:102-174 | At every unfailed loop head of every run, for every wiring, each coil that is on belongs to a digital output, or to a shutter with a deadline pending for that direction |
| WagoControllerJourneys.DrainWrites | core/src/io/wago_modbus_controller.rs:196-229 | A turn writes only what its operations ask for, to addresses that fit 16 bits |
| WagoControllerWrites.WritesAreToPins | core/src/io/wago_modbus_controller.rs:196-206 | Every write of every run has an address of 16 bits with bit 12 set, whose other bits are those of a pin of a configured output |
| WagoControllerWrites.DeadlineIsExact | core/src/io/wago_modbus_controller.rs:133-137 | Under all surroundings, a move that does not fail leaves a deadline of exactly the configured time after the instant at which its turn ends, with the side asked for as its target |
| WagoControllerJourneys.DownMeansTravelled | core/src/io/wago_modbus_controller.rs:150-175 | A shutter is down at a loop head only if its motor was last on downwards, for the full time, and was switched off by the timer |
| WagoControllerMoves.MoveArrives | core/src/io/wago_modbus_controller.rs:150-175 | From any loop head, if no request fails, a timer turn without further command brings a moving shutter to its target, both coils off, no task left |
| WagoControllerMoves.ShutterArrives | core/src/io/wago_modbus_controller.rs:126-175 | For every shutter and either direction there is a run in which its motor is on that way, and which goes on to arrive |
| WagoControllerTasks.EventKeepsPaid | core/src/io/wago_modbus_controller.rs:65-180 | Every step keeps timer turns, and the tasks that will survive the turn in progress, within the moves started |
| WagoControllerTasks.TimerTurnsArePaid | core/src/io/wago_modbus_controller.rs:150-175 | In every state of every run, mid-turn and failed ones included and whatever the wiring, the timer has taken no more turns than moves were started |
| WagoControllerRun.ModbusClient.constructor | core/src/io/modbus_client.rs:19-26 | A new client remembers no write |
| WagoControllerRun.ModbusClient.WriteSingleCoil | core/src/io/modbus_client.rs:48-63 | Does what the machine's write does: fails exactly when the request does, logs this address and value when it took effect, keeps the instant of completion when it succeeded, and keeps spacing |
| WagoControllerRun.ModbusClient.ReadDiscreteInput | core/src/io/modbus_client.rs:40-46 | A read returns the bit, takes its time, fails exactly when the request does, and leaves kept instants and log alone |
| WagoControllerRun.MinDeadline | core/src/task.rs:24-34 | The deadline waited for is that of a pending task, and none is earlier |
| WagoControllerRun.WagoModbusController.constructor | core/src/io/wago_modbus_controller.rs:42-43 | All values absent, no task, no write |
| WagoControllerRun.WagoModbusController.SetVar | core/src/io/wago_modbus_controller.rs:196-214 | One write of the value, at the address that has bit 12 set and the other bits of the variable; it fails exactly when the variable exceeds 16 bits or the request fails |
| WagoControllerRun.WagoModbusController.StopShutter | core/src/io/wago_modbus_controller.rs:222-229 | One write of false for the down variable, then one for the up variable, at those addresses and in this order, cut short by the first failure, whatever the turn still has to do |
| WagoControllerRun.WagoModbusController.UpdateState | core/src/io/wago_modbus_controller.rs:231-240 | Local value and feedback change together |
| WagoControllerRun.WagoModbusController.Initialise | core/src/io/wago_modbus_controller.rs:45-63 | The initialisation loop is the machine's, and leaves the controller valid unless it fails |
| WagoControllerRun.WagoModbusController.HandleCommand | core/src/io/wago_modbus_controller.rs:67-149 | The command branch is the machine's, and keeps the controller valid unless it fails |
| WagoControllerRun.WagoModbusController.MoveShutter | core/src/io/wago_modbus_controller.rs:127-137 | A move: both variables written off, the one of the side asked for written on, the deadline set to the configured time from then with that side as target, the movement stored and reported, in this order |
| WagoControllerRun.WagoModbusController.HaltShutter | core/src/io/wago_modbus_controller.rs:138-142 | A stop: both variables written off, the deadline dropped, and "up" stored and reported |
| WagoControllerRun.WagoModbusController.HandleTimer | core/src/io/wago_modbus_controller.rs:150-175 | Having slept until the least deadline, and no less, the turn finds a task due and drops exactly the due tasks, at least one; with no two pins on one coil it stops exactly their shutters |
| WagoControllerRun.WagoModbusController.Expire | core/src/io/wago_modbus_controller.rs:154-174 | The loop over the tasks and the retain that follows are the machine's timer plan |
| WagoControllerRun.WagoModbusController.KeepAlive | core/src/io/wago_modbus_controller.rs:176-178 | A keep-alive takes its time and fails exactly when the request does; it changes nothing but the clock and that |
| WagoControllerRun.WagoModbusController.TakeTurn | core/src/io/wago_modbus_controller.rs:65-180 | A turn of the loop is a run of the machine from one valid state to the next |
| WagoControllerRun.WagoModbusController.Run | core/src/io/wago_modbus_controller.rs:33-181 | The whole life of the object is a run of the machine: spacing, paid timer turns and owned coils for every wiring, interlock and full travel where the wiring allows them, final agreement with no two pins on one coil |
| FeedbackLog.LastSentElsewhere | core/src/io_context.rs:174-177 | What the broadcast says of an id does not depend on messages about others |
| RulesEngine.OperatorsOrderIntegersOnly | core/src/rules_engine.rs:146-153 | The operators are the integer relations between integers; nothing else is ordered, so "at least" is "greater or equal" exactly for unequal values and integers |
| RulesEngine.EqualIsIdentity | core/src/rules_engine.rs:146-153 | "Equal" relates each value to itself and to no other, "not equal" all others; between integers it is "at least" and "at most" together, and exactly one of "greater", "equal" and "lower" holds |
| RulesEngine.SingleCondition | core/src/rules_engine.rs:128-170 | One "equal" condition lets the rule fire exactly when the input holds that value, one "not equal" condition exactly when it holds another; a start condition always does |
| RulesEngine.FiredActionsOfOne | core/src/rules_engine.rs:105-111 | A rule contributes its actions when every standard condition has an input whose value satisfies it, and nothing when one has not |
| RulesEngine.FiredActionsConcat | core/src/rules_engine.rs:105-111 | Firing goes rule by rule, in order |
| RulesEngine.EffectiveConcat | core/src/rules_engine.rs:172-185 | What the outputs let through goes action by action, in order |
| RulesEngine.EffectiveOfOne | core/src/rules_engine.rs:172-185 | An action is let through exactly when its output has a value |
| RulesEngine.CommandIsPassedOn | core/src/rules_engine.rs:112-114 | Whatever feedback comes in meanwhile, a command for anything but an input is dispatched once, as it is, and changes no input |
| RulesEngine.OtherActionIsIgnored | core/src/rules_engine.rs:95-101 | An action on an input other than setting a value dispatches nothing and changes no input |
| RulesEngine.ShouldExecIffAllHold | core/src/rules_engine.rs:128-170 | A rule fires exactly when every standard condition names an input with a value that satisfies it |
| RulesEngine.StepKeepsValues | core/src/rules_engine.rs:54-67 | No step of either task takes a value from an output, and none but taking a command changes an input |
| RulesEngine.DispatchIsBounded | core/src/rules_engine.rs:94-126 | From any point of an event, under any interleaving of feedback, what is dispatched lies in subsequence order between what the outputs then and the outputs at the end let through |
| RulesEngine.EventIsInsensitive | core/src/rules_engine.rs:94-111 | All rules of an event see the inputs as it left them, and its commands lie between those of an atomic run on the outputs at its start and one on the outputs at its end |
| RulesEngine.UninterruptedEvent | core/src/rules_engine.rs:94-111 | If the outputs did not change, exactly the commands of the atomic run are dispatched |
| RulesEngineRun.RulesTasks.constructor | core/src/io_context.rs:206-279 | All shared values start absent |
| RulesEngineRun.RulesTasks.HandleOutputFeedback | core/src/rules_engine.rs:54-67 | The turns of the feedback loop fold exactly the messages from the old cursor to the new one, in order, as the machine does; it waits when there is none, and fails exactly when it lags |
| RulesEngineRun.RulesTasks.ExecAction | core/src/rules_engine.rs:172-203 | An action is dispatched exactly when the machine's is, with feedback folded in while it waits for room, or the feedback receiver lags and it is not |
| RulesEngineRun.RulesTasks.FireRules | core/src/rules_engine.rs:105-111 | The two nested loops are a run of the machine over the rules, cut short only by a lagging receiver |
| RulesEngineRun.RulesTasks.HandleAction | core/src/rules_engine.rs:87-115 | An output command is passed on, an input action other than a value is dropped, an input value is stored and dispatches between the two bounds; only a lagging feedback receiver cuts it short |
| HomeSnapshot.MakeRoomIOs | core/src/calaos_json_protocol.rs:145-167 | The two loops list each input and then each output of a room whose ids all have cells, in order, each entry showing the cell of its id; ids without a cell are skipped |
| HomeSnapshot.SnapshotIsComplete | core/src/calaos_json_protocol.rs:127-212 | Every configured input and then every output of a room is listed, in order; each entry shows the value of its cell in text and type, in the sense of `MadeDataShows` |
| HomeSnapshot.MadeDataShows | core/src/calaos_json_protocol.rs:201-221 | An entry is of the configured input or output. Its state reads back as the value exactly for values that survive their text, is the text itself for texts, canonical for integers, "up" for both movements, and empty without a value; its type is "float" exactly for integers, "bool" exactly for booleans, else "string" |
| HomeSnapshot.RoomsAreNamed | core/src/calaos_json_protocol.rs:136-141 | Each room is shown with its name and type, and its hits as the canonical decimal number |
| IoContext.RegisterInputs | core/src/io_context.rs:212-228 | One context per configured input id, without rules and value; of a repeated id the last counts |
| IoContext.IndexRule | core/src/io_context.rs:230-253 | A rule is entered once per condition that is standard and names a known, non-empty id, whatever its operator; nothing else in the index changes |
| IoContext.MakeInputContextMap | core/src/io_context.rs:206-256 | The entry of each input lists all conditions on it, by their places in the configuration, rule by rule and condition by condition, and has at each the rule of that condition |
| IoContext.EntryListsConditions | core/src/io_context.rs:230-253 | The conditions on an input, standard ones that name it with any operator, correspond one to one and in order to the rules of its entry |
| IoContext.CopiesCount | core/src/io_context.rs:230-253 | A rule is in the entry of an input as often as it has conditions on it |
| IoContext.LastInputAppend | core/src/io_context.rs:212-228 | One more input takes the place of any before it with the same id, and of no other |
| IoContext.LastOutputAppend | core/src/io_context.rs:258-279 | So does one more output |
| IoContext.MakeOutputContextMap | core/src/io_context.rs:258-279 | One context per configured output id, without value |
| IoContext.IndexRefinesScan | core/src/io_context.rs:230-253 | Firing through the index gives the same actions as a scan of all conditions of all rules for those on the input, for every input state |
| IoContext.IndexedRulesNameIt | core/src/io_context.rs:237-248 | A rule in the index has a standard condition on that input; rules without one never fire |
| IoContext.AppendMap | core/src/io_context.rs:556-562 | One group grows by one id at its end, the others stay |
| IoContext.MakeOutputControllerMap | core/src/io_context.rs:502-554 | The addresses present are exactly those of some output, each with the ids at it in configuration order |
| IoContext.GroupAppend | core/src/io_context.rs:502-562 | One more output joins, at the end, the group of its address and no other |
| IoContext.GroupMembers | core/src/io_context.rs:505-551 | An id is in a group exactly when an output with it has that address: a kind that is served, a host and a port that parse |
| IoContext.GroupsPartition | core/src/io_context.rs:502-554 | With unique ids no id is in two groups |
| IoContext.FilterOutput | core/src/io_context.rs:408-434 | A controller gets exactly the contexts of its group |
| IoContext.MakeControllers | core/src/io_context.rs:401-448 | One controller per group; an id leads to the last group visited that has it |
| IoContext.HandleRx | core/src/io_context.rs:450-472 | However the controllers take their messages, each queue's history is the history dealt with filtered to its ids - none lost, duplicated or reordered - no queue holds more than its capacity, and the dispatcher stops only where the next queue is full |
| Pipeline.StepKeepsChannels | core/src/io_context.rs:145-198 | No step reads past the end of a queue |
| PipelineSafety.StepKeepsInv | server/src/main.rs:231-262 | Every step of every task keeps the system's invariant |
| PipelineSafety.EveryRun | server/src/main.rs:231-262 | In every state of every run, whatever the wiring: inputs are the last values set by the commands taken, outputs the fold of the feedback prefix heard, answers are snapshots, routing is exact, and the broadcast shows what the controllers have |
| PipelineMotors.ControllerRuns | core/src/io_context.rs:436-448 | Whatever the tasks around it do, each controller of the system makes a run of the machine |
| PipelineMotors.MotorsAreSafe | core/src/io/wago_modbus_controller.rs:126-174 | In every reachable state, for every controller: spacing for every wiring, interlock and full travel where its wiring allows them |
| PipelineMotors.NoMotorLeftRunning | core/src/io/wago_modbus_controller.rs:150-175 | When the system is at rest, for every wiring, each coil that is on is one a digital output has in its configuration |
| PipelineMotors.ShutterAtRest | core/src/io/wago_modbus_controller.rs:112-163 | At rest the shared value of a shutter is up or down; down only if the last thing its motor did was a full journey down ended by the timer |
| PipelineSafety.SharedValueIsLocal | core/src/rules_engine.rs:54-67 | Once the feedback is drained, the shared value of an output is its controller's local value, or up for a shutter not commanded yet |
| PipelineSafety.QueueIsItsShare | core/src/io_context.rs:450-474 | A controller's queue history is its share of the dispatched history, so no unknown id reaches it (the branch at wago_modbus_controller.rs:77-80) |
| PipelineSafety.AnswerShowsTheHome | core/src/rules_engine.rs:116-121 | An answer names each room and lists its every input and output, in order, each entry showing (`MadeDataShows`): for an input the last value enqueued for it before the request, for an output the fold of one prefix of the feedback heard |
| PipelineSafety.RequestsAreAnsweredOnce | core/src/rules_engine.rs:116-121 | Every request taken has exactly one answer, in order of the requests, and the feedback shown never goes back |
| PipelineSafety.RulesEngineRuns | core/src/rules_engine.rs:29-52 | Between two commands taken, the system makes a run of the rules engine, and only that and outside senders write to the output queue |
| PipelineSafety.SystemEventIsInsensitive | core/src/rules_engine.rs:94-111 | In the whole system, what an input event puts on the output queue lies between the two atomic runs |
| PipelineSafety.SystemPassesOn | core/src/rules_engine.rs:94-114 | In the whole system, a command for an output is put on the output queue once, as it is, and an action on an input other than setting a value puts nothing there; neither changes an input |
| PipelineSafety.QueuesAreBounded | core/src/io_context.rs:174-198 | No queue of the system ever holds more messages than its capacity |
| PipelineProgress.StepUsesWork | core/src/rules_engine.rs:105-113 | Every step of the program itself strictly decreases the measure, except that a keep-alive may leave it as it is; rule actions never enter the input queue |
| PipelineProgress.RunIsBounded | core/src/io_context.rs:450-474 | In a run without input from outside, with any number of keep-alives in between, all other steps together are no more than the measure used up |
| PipelineProgress.SomethingCanBeDone | core/src/io_context.rs:450-474 | As long as anything is pending some step is enabled, bounded queues notwithstanding |
| PipelineProgress.PipelineDrains | core/src/io/wago_modbus_controller.rs:65-180 | Left alone, keep-alives included, the system takes no more working steps than the measure; where it has none left it is down or quiet, and when quiet all shared values are the local ones, and all motors are off where no two pins share a coil |
| PipelineRest.StepKeepsReady | core/src/io/wago_modbus_controller.rs:65-180 | With addressable pins, a step fails the program only if a request fails or the feedback lags - for a message heard exactly when more are pending than the bound, for a keep-alive exactly when its request fails - and a step that leaves it up leaves it able to go on |
| PipelineRest.RunStaysUp | core/src/io/wago_modbus_controller.rs:65-180 | With addressable pins, successful requests and feedback heard before it lags, the program stays up through any run, whatever comes in from outside |
| PipelineRest.UpIsReady | core/src/io/wago_modbus_controller.rs:65-180 | In every reachable state that is up, no turn in progress is bound to fail |
| PipelineRest.DrainsToRest | core/src/io/wago_modbus_controller.rs:65-180 | Under the conditions of `RunStaysUp` the program is up in every reachable state, and where it has no working step left it is quiet, shared and local values agreeing |
| PipelineRest.CanComeToRest | core/src/io_context.rs:450-474 | From every reachable state that is up and not lagging there is a run of at most the measure, without input from outside, in which all goes well and the whole system comes to rest |
| PipelineCommands.EventKeepsFollows | core/src/io/wago_modbus_controller.rs:65-180 | At every step, for every wiring, a digital output will be, when its turn is done, what the commands received make of the state first read |
| PipelineCommands.AfterOfShare | core/src/io_context.rs:468-469 | A controller's share of the commands has all that concern its own output |
| PipelineCommands.DigitalIsAsCommanded | core/src/io/wago_modbus_controller.rs:103-111 | At rest the shared value of a digital output is what all commands on the output queue, once each and in order, make of the state first read for it |
| Assembly.Assemble | server/src/main.rs:178-180 | A configuration with distinct ids gives a well-formed system with queues of 10000 in which every output is driven as configured, field by field (`ServedIsDriven`), by the one controller of its host and port, or not routed when its kind is not served or they do not parse; no controller has anything else, and the index lists the conditions on each input; controllers keep their coils apart exactly when no two pins at one address name one writable coil |
| Assembly.ServedIsDriven | core/src/io_context.rs:502-554 | A served digital output is at the controller of exactly its parsed ip and port, with its pin; a served shutter with its up variable, its down variable and its time; a host that does not parse, or a port that is no number up to 65535, leaves the output unrouted, as any other kind does |
| Assembly.WiredIffSeparate | core/src/io_context.rs:401-448 | No controller has two pins on one writable coil if and only if the configuration keeps the pins at each address apart |
| PressClassifier.MakeInputVarMap | core/src/main_server.rs:109-127 | A variable leads to the last plain or long-press input with it; other kinds are never entered |
| PressClassifier.LastWithVarAppend | core/src/main_server.rs:109-127 | One more input takes over its variable exactly when it is a plain or a long-press one |
| PressClassifier.SamplesAppend | core/src/main_server.rs:47-97 | A datagram is a sample of the variable and value it names; any other datagram is none |
| PressClassifier.VariablesAreIndependent | core/src/main_server.rs:61-87 | In any history, the commands of a variable are those of the history of its own samples alone |
| PressClassifier.InputHearsItsVariable | core/src/main_server.rs:89-93 | What is enqueued for an input is what the samples of its variable alone come to, when no other variable leads to its id |
| PressClassifier.UdpServer.constructor | core/src/main_server.rs:39-43 | The server starts with no press remembered |
| PressClassifier.UdpServer.HandleLong | core/src/main_server.rs:63-78 | Any value but 0 is a press: it is remembered with its instant and reports nothing. 0 is a release: it is forgotten and reports 2 exactly when the sample just before it was a press at least 400 ms earlier, else 1 |
| PressClassifier.UdpServer.HandleWagoInt | core/src/main_server.rs:49-97 | An instant is kept exactly while the latest sample is a press; the commands are those of the history, true for any value but 0 on a plain button; for a known variable the raw state is always broadcast, true for any value but 0 |
| PressClassifier.UdpServer.Run | core/src/main_server.rs:47-102 | The loop handles every datagram up to the first that does not parse, and ends there |
| WebsocketSession.Session.constructor | core/src/websocket_server.rs:102-107 | A session starts without login |
| WebsocketSession.Session.Handle | core/src/websocket_server.rs:148-228 | A request leads to its reaction, or to a beginning of it; the session ends exactly when the request is refused, a send or enqueue of its own fails, or the engine does not answer |
| WebsocketSession.Session.Turn | core/src/websocket_server.rs:109-228 | One client frame or one forwarded event: a text frame that carries a request, and a ping, are read as a request and handled; a frame without a request, a client gone, and, once logged in, a lagging receiver or a failed forward end the session without a deed; a login once granted stays while the session lasts |
| WebsocketSession.Session.Run | core/src/websocket_server.rs:107-231 | Nothing is enqueued or forwarded before a login has been granted; each request has its own reply before the next is read, or the session has ended; the forwarded events are a prefix of the feedback since the connection was accepted |
| CalaosProtocol.NumberIff | core/src/calaos_protocol.rs:24 | A number is read exactly from a maximal digit run that spells a 32-bit value |
| CalaosProtocol.GetWagoIntIff | core/src/calaos_protocol.rs:22-29 | The parser succeeds with a pair and a rest exactly on tag, maximal digit run, space, maximal digit run, rest; leading zeros allowed |
| CalaosProtocol.ParseUndoesPrint | core/src/calaos_protocol.rs:22-49 | Printing any pair, followed by anything but a digit, parses back to it |
| CalaosProtocol.PlainDatagrams | core/src/calaos_protocol.rs:22-49 | "WAGO INT ", a number, a space and a number of 32 bits, with anything but a digit after it, is read as that pair; "CALAOS_DISCOVER" as a discovery, whatever follows |
| CalaosProtocol.DiscoverIff | core/src/calaos_protocol.rs:22-49 | A datagram is read as a discovery exactly when it begins with "CALAOS_DISCOVER" |
| CalaosProtocol.OversizeIsRefused | core/src/calaos_protocol.rs:24-26 | Numbers over 32 bits are refused, not truncated |
| MqttTopics.DeliveredIffDecoded | core/src/mqtt_client.rs:154-160 | For a node id of one level without wildcards, a topic decodes exactly when it matches the filter, by section 4.7.1 of MQTT Version 3.1.1 |
| MqttTopics.AgreementIff | core/src/mqtt_client.rs:352-359 | For every node id: subscription and decoding agree on all topics if and only if it has one level without wildcards, or several levels and a filter that section 4.7.1 of MQTT Version 3.1.1 does not allow |
| MqttTopics.HandledIff | core/src/mqtt_client.rs:146-173 | A command is sent exactly for a topic of the node id, "set" and one level, which becomes its id, and one of the six known payloads, which becomes its action |
| MqttTopics.TopicCarriesId | core/src/mqtt_client.rs:154-160 | The command topic of an id decodes to it exactly when the id has no separator |
| MqttTopics.PublishedStates | core/src/mqtt_client.rs:378-391 | A published switch state is, in upper case, a command for that state; of the four published shutter states only "open" is a command, for up |
| MqttTopics.PayloadIff | core/src/mqtt_client.rs:161-169 | The six payloads that are commands, and what each means; there is no other |
| MqttTopics.StatesPublished | core/src/mqtt_client.rs:378-391 | The words published: "ON" exactly for true, "OFF" exactly for false, "open", "closed", "opening" and "closing" exactly for the four shutter states; an integer reads back from its text, and a text is published as it is |

## Left out

- Sockets, TLS, certificates, command line, signals, shutdown grace, logging: plumbing without an invariant.
- JSON and XML decoding: done by libraries; their results are datatypes here, without the fields that only clients read.
- MQTT discovery, availability and the client's event loop: templates and broker behaviour; only topics, payloads and published states are modelled.
- The time input controller and the WAGO heartbeat (`run_input_controllers`): the first sends no command, the second one fixed datagram.
- The event table (`event.rs`) and the websocket client: constants, and a tool beside the program.
- Poisoned locks: a cell is always readable and writable.
- Receivers dropped elsewhere: a feedback send fails only when the whole program has ended.
- Real-time bounds: how long a motor overruns its time depends on scheduling and latency; only "not before" is claimed.
- When keep-alives happen: the interval starts afresh at every turn, so a keep-alive is a step that may happen at any loop head, as often as it likes; the drain theorems count all other steps.
- Fairness of `select!`: not assumed; draining is stated as a bound on steps and the absence of deadlock.
- Recovery after a failed request: the code has none, and nothing is claimed about coils afterwards.
- The link between the bit read for a digital output at the start and its coil: reads and writes use different addresses, and the bit is arbitrary here.
- Shutters in `PipelineCommands`: what a shutter's commands come to depends on when its timer expires; it is stated turn by turn in `CommandIsObeyed` and `TimerIsSound`, and at rest in `ShutterAtRest`.
- GetHome answers in `RulesEngineRun`: the class handles actions only; requests for the home data are in `Pipeline` (`Take`).
- Closed queues: a send waits for room (`Pipeline`) but does not fail; receivers live as long as the program.
- Discovery replies of the UDP server, and UTF-8 decoding of datagrams: the loop model reads texts.
- Assembly of configurations with repeated output ids: which controller gets their commands is stated (`MakeControllers`), but the system's invariants need unique ids.
