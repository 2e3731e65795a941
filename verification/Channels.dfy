/** Queues and broadcasts: a log of all messages sent, with the cursor of a receiver. */
module Channels {

  datatype Channel<T> = Channel(log: seq<T>, read: nat) {
    predicate Valid() {
      read <= |log|
    }

    function Pending(): seq<T>
      requires Valid()
    {
      log[read..]
    }

    predicate HasRoom(capacity: nat)
      requires Valid()
    {
      |log| - read < capacity
    }

    function Put(x: T): Channel<T> {
      Channel(log + [x], read)
    }

    function Next(): Channel<T> {
      Channel(log, read + 1)
    }

    /** The receiver takes up to `n` messages. */
    function Take(n: nat): Channel<T>
      requires Valid()
    {
      Channel(log, if read + n <= |log| then read + n else |log|)
    }
  }
}
