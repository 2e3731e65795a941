/** The Modbus client (`modbus_client.rs`): single-coil writes with a minimum spacing per coil.

    `Client` is the value the class of module ModbusClient implements. It also carries what the source cannot see: the
    time and the log of the writes that reached the controller. What the network and the scheduler contribute to one
    request is an `Env`, so a statement for all `Env`s is a statement for all latencies and all failures. */
module Modbus {
  import opened Basics
  import opened Coils

  const MIN_DURATION_BETWEEN_WRITE: int := 15 * MILLISECOND

  /** Why a write was made. */
  datatype Reason = Boot | Commanded | Expired

  datatype Write = Write(address: Address, value: bool, begin: Instant, done: Instant, pause: int, reason: Reason)

  /** One request as its surroundings decide it: `idle` elapses before it, a requested sleep overshoots by `oversleep`, the
      request takes `latency`, `trail` elapses before the completion is recorded. A request that is not `ok` may have been
      `effective` all the same. A read returns `bit`. */
  datatype Env = Env(idle: nat, oversleep: nat, latency: nat, trail: nat, ok: bool, effective: bool, bit: bool)

  datatype Client = Client(clock: Instant, last: map<Address, Instant>, log: seq<Write>, failed: bool)

  /** The sleep requested before a write to `a` at time `now`: just enough, and none before the first write. Differences of instants
      saturate at zero. */
  function Pause(c: Client, a: Address, now: Instant): (pause: int)
    ensures 0 <= pause <= MIN_DURATION_BETWEEN_WRITE
    ensures a in c.last && c.last[a] <= now ==>
              now + pause >= c.last[a] + 15 * MILLISECOND && (pause == 0 || now + pause == c.last[a] + 15 * MILLISECOND)
    ensures a !in c.last ==> pause == 0
  {
    if a !in c.last then 0
    else
      var delta := if now < c.last[a] then 0 else now - c.last[a];
      if delta < MIN_DURATION_BETWEEN_WRITE then MIN_DURATION_BETWEEN_WRITE - delta else 0
  }

  function WriteSingleCoil(c: Client, a: Address, value: bool, reason: Reason, e: Env): Client
  {
    var asked := c.clock + e.idle;
    var pause := Pause(c, a, asked);
    var begin := asked + (if pause > 0 then pause + e.oversleep else 0);
    var done := begin + e.latency;
    Client(
      clock := done + e.trail,
      last := if e.ok then c.last[a := done + e.trail] else c.last,
      log := if e.ok || e.effective then c.log + [Write(a, value, begin, done, pause, reason)] else c.log,
      failed := !e.ok)
  }

  /** A read of discrete inputs: time passes and it may fail. */
  function ReadInputs(c: Client, e: Env): Client
  {
    c.(clock := c.clock + e.idle + e.latency, failed := !e.ok)
  }

  /** The last logged write to an address. */
  function LastWrite(log: seq<Write>, a: Address): Option<Write>
  {
    if log == [] then None
    else if log[|log| - 1].address == a then Some(log[|log| - 1])
    else LastWrite(log[..|log| - 1], a)
  }

  /** The last logged write left the coil on. */
  predicate On(log: seq<Write>, a: Address)
  {
    LastWrite(log, a).Some? && LastWrite(log, a).value.value
  }

  /** The last logged write left the coil off. */
  predicate Off(log: seq<Write>, a: Address)
  {
    LastWrite(log, a).Some? && !LastWrite(log, a).value.value
  }

  lemma LastWriteAppend(log: seq<Write>, w: Write)
    ensures forall a :: LastWrite(log + [w], a) == if w.address == a then Some(w) else LastWrite(log, a)
  {
    assert (log + [w])[..|log|] == log;
  }

  lemma {:induction false} LastWriteIsLogged(log: seq<Write>, a: Address)
    ensures LastWrite(log, a).Some? ==> LastWrite(log, a).value in log && LastWrite(log, a).value.address == a
    ensures LastWrite(log, a).None? ==> forall w :: w in log ==> w.address != a
  {
    if log != [] {
      LastWriteIsLogged(log[..|log| - 1], a);
      assert log == log[..|log| - 1] + [log[|log| - 1]];
    }
  }

  /** Relay protection: from the completion of a write to the start of any later write to the same coil, the minimum
      duration has elapsed, and no write was held back for longer than it. */
  ghost predicate Spaced(log: seq<Write>)
  {
    && (forall i, j :: 0 <= i < j < |log| && log[i].address == log[j].address ==>
        log[i].done + MIN_DURATION_BETWEEN_WRITE <= log[j].begin)
    && (forall i :: 0 <= i < |log| ==> log[i].pause <= MIN_DURATION_BETWEEN_WRITE)
  }

  /** The log is in the past, and the instants kept per coil are at or after the last completion logged for it. */
  ghost predicate Tracks(c: Client)
  {
    && (forall i :: 0 <= i < |c.log| ==> c.log[i].begin <= c.log[i].done <= c.clock)
    && (!c.failed ==>
        && (forall i :: 0 <= i < |c.log| ==> c.log[i].address in c.last && c.log[i].done <= c.last[c.log[i].address])
        && (forall a :: a in c.last ==> c.last[a] <= c.clock && LastWrite(c.log, a).Some?))
  }

  /** The start of a write is at least the minimum duration after all earlier writes to its coil. */
  lemma WriteBeginsLate(c: Client, a: Address, asked: Instant, begin: Instant)
    requires Tracks(c) && !c.failed && c.clock <= asked && begin >= asked + Pause(c, a, asked)
    ensures forall i :: 0 <= i < |c.log| && c.log[i].address == a ==> c.log[i].done + MIN_DURATION_BETWEEN_WRITE <= begin
  {
    hide LastWrite;
  }

  lemma SpacedAppend(log: seq<Write>, w: Write)
    requires Spaced(log) && w.pause <= MIN_DURATION_BETWEEN_WRITE
    requires forall i :: 0 <= i < |log| && log[i].address == w.address ==> log[i].done + MIN_DURATION_BETWEEN_WRITE <= w.begin
    ensures Spaced(log + [w])
  {
  }

  /** Tracking survives a logged write, recorded at `now` when it succeeded. */
  lemma TracksAppend(c: Client, w: Write, c': Client)
    requires Tracks(c) && !c.failed && c'.log == c.log + [w] && c.clock <= w.begin <= w.done <= c'.clock
    requires !c'.failed ==> c'.last == c.last[w.address := c'.clock]
    ensures Tracks(c')
  {
    LastWriteAppend(c.log, w);
    hide LastWrite;
    forall i | 0 <= i < |c'.log|
      ensures c'.log[i].begin <= c'.log[i].done <= c'.clock
      ensures !c'.failed ==> c'.log[i].address in c'.last && c'.log[i].done <= c'.last[c'.log[i].address]
    {
      assert i < |c.log| ==> c'.log[i] == c.log[i];
    }
  }

  lemma WriteKeepsSpacing(c: Client, a: Address, value: bool, reason: Reason, e: Env)
    requires Spaced(c.log) && Tracks(c) && !c.failed
    ensures var c' := WriteSingleCoil(c, a, value, reason, e); Spaced(c'.log) && Tracks(c')
  {
    hide Spaced, LastWrite, Pause;
    var c' := WriteSingleCoil(c, a, value, reason, e);
    if e.ok || e.effective {
      var w := c'.log[|c.log|];
      WriteBeginsLate(c, a, c.clock + e.idle, w.begin);
      SpacedAppend(c.log, w);
      TracksAppend(c, w, c');
    }
  }
}
