/** What holds of every state of every run of the output controller, each part under the condition it needs. */
module WagoControllerLife {
  import opened Basics
  import opened Modbus
  import opened WagoController
  import opened WagoControllerOwners
  import opened WagoControllerSafety
  import opened WagoControllerTasks
  import opened WagoInterlock
  import opened WagoTravel

  /** Relays are protected and timer turns paid for, and no coil at a loop head is on without an owner, whatever the wiring. Motors
      are interlocked, travels full, and values, coils and tasks agree at loop heads, each exactly where the wiring allows it. */
  lemma EveryRunIsSafe(outputs: Outputs, order: seq<Id>, now: Instant, events: seq<Event>, s: State)
    requires Enumerates(order, outputs.Keys) && Runs(outputs, Initial(outputs, order, now), events, s)
    ensures Spaced(s.client.log) && s.fires <= s.starts
    ensures SafeWiring(outputs) || !Bootable(outputs) ==> Interlocked(outputs, s.client.log)
    ensures TravelSafe(outputs) || !Bootable(outputs) ==> FullTravel(outputs, s.client.log)
    ensures Disjoint(outputs) ==> Interlocked(outputs, s.client.log) && FullTravel(outputs, s.client.log)
    ensures s.todo == [] && !s.client.failed ==> Owned(outputs, s)
    ensures Disjoint(outputs) && s.todo == [] && !s.client.failed ==> AtHead(outputs, s)
  {
    hide *;
    ControllerIsSafe(outputs, order, now, events, s);
    TimerTurnsArePaid(outputs, order, now, events, s);
    if SafeWiring(outputs) {
      SafeWiringSuffices(outputs, order, now, events, s);
    } else if !Bootable(outputs) {
      UnbootableIsInterlocked(outputs, order, now, events, s);
    }
    if TravelSafe(outputs) {
      TravelSafeSuffices(outputs, order, now, events, s);
    } else if !Bootable(outputs) {
      UnbootableTravels(outputs, order, now, events, s);
    }
    if s.todo == [] && !s.client.failed {
      EveryCoilIsOwned(outputs, order, now, events, s);
    }
  }
}
