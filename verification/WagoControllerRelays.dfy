/** Relay protection over whole runs of the output controller. It does not depend on the wiring: a coil that several outputs write
    is protected as any other. */
module WagoControllerRelays {
  import opened Basics
  import opened Coils
  import opened Modbus
  import opened WagoController

  /** Writes are spaced, and the client knows what it must know to keep them so. */
  ghost predicate Paced(c: Client)
  {
    Spaced(c.log) && Tracks(c)
  }

  lemma TimeKeepsPaced(c: Client, c': Client)
    requires Paced(c) && c'.log == c.log && c'.last == c.last && c.clock <= c'.clock && (c.failed ==> c'.failed)
    ensures Paced(c')
  {
    hide Spaced, LastWrite;
  }

  /** What one operation other than a write does to the client. */
  lemma NoWrite(s: State, e: Env)
    requires s.todo != [] && !s.todo[0].SetVar? && !s.client.failed
    ensures var c := Step(s, e).client; c.log == s.client.log && c.last == s.client.last && s.client.clock <= c.clock
  {
  }

  lemma OneWrite(s: State, e: Env)
    requires s.todo != [] && s.todo[0].SetVar? && !s.client.failed
    ensures Step(s, e).client
            == match CoilAddress(s.todo[0].pin)
               case None => s.client.(failed := true)
               case Some(a) => WriteSingleCoil(s.client, a, s.todo[0].value, s.todo[0].reason, e)
  {
    hide CoilAddress, WriteSingleCoil;
  }

  lemma StepKeepsPaced(s: State, e: Env)
    requires s.todo != [] && !s.client.failed && Paced(s.client)
    ensures Paced(Step(s, e).client)
  {
    hide Spaced, Tracks, Step, WriteSingleCoil, CoilAddress;
    if s.todo[0].SetVar? {
      OneWrite(s, e);
      match CoilAddress(s.todo[0].pin) {
        case None => TimeKeepsPaced(s.client, s.client.(failed := true));
        case Some(a) => WriteKeepsSpacing(s.client, a, s.todo[0].value, s.todo[0].reason, e);
      }
    } else {
      NoWrite(s, e);
      TimeKeepsPaced(s.client, Step(s, e).client);
    }
  }

  lemma EventKeepsPaced(outputs: Outputs, s: State, ev: Event)
    requires Enabled(s, ev) && Paced(s.client)
    ensures Paced(Apply(outputs, s, ev).client)
  {
    hide Paced, Step, TimerPlan, CommandPlan;
    match ev
    case Operate(e) => StepKeepsPaced(s, e);
    case Command(cmd) =>
    case Timer(order, now) => TimeKeepsPaced(s.client, s.client.(clock := now));
    case KeepAlive(e) => TimeKeepsPaced(s.client, ReadInputs(s.client, e));
  }

  lemma {:induction false} RunKeepsPaced(outputs: Outputs, s0: State, events: seq<Event>, s: State)
    requires Paced(s0.client) && Runs(outputs, s0, events, s)
    ensures Paced(s.client)
    decreases |events|
  {
    hide Paced, Apply;
    if events != [] {
      EventKeepsPaced(outputs, s0, events[0]);
      RunKeepsPaced(outputs, Apply(outputs, s0, events[0]), events[1..], s);
    }
  }

  /** In every state of every run of every controller, under all latencies and failures: from the completion of a write to the
      start of any later write to the same coil the minimum duration has passed, and no write was held back for longer. */
  lemma RelaysAreProtected(outputs: Outputs, order: seq<Id>, now: Instant, events: seq<Event>, s: State)
    requires Runs(outputs, Initial(outputs, order, now), events, s)
    ensures Spaced(s.client.log)
    ensures forall i, j :: 0 <= i < j < |s.client.log| && s.client.log[i].address == s.client.log[j].address ==>
              s.client.log[i].done + 15 * MILLISECOND <= s.client.log[j].begin
    ensures forall i :: 0 <= i < |s.client.log| ==> s.client.log[i].pause <= 15 * MILLISECOND
  {
    hide Runs, BootPlan;
    RunKeepsPaced(outputs, Initial(outputs, order, now), events, s);
  }
}
