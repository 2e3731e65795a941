/** The broadcast channel that carries feedback: an append-only log with one cursor per receiver. */
module FeedbackLog {
  import opened Basics
  import opened IoValues

  /** The last value that the log reports for `id`. */
  function LastSent(log: seq<IOData>, id: Id): Option<IOValue>
  {
    if log == [] then None
    else if log[|log| - 1].id == id then Some(log[|log| - 1].value)
    else LastSent(log[..|log| - 1], id)
  }

  lemma LastSentAppend(log: seq<IOData>, data: IOData)
    ensures forall id :: LastSent(log + [data], id) == if data.id == id then Some(data.value) else LastSent(log, id)
  {
    assert (log + [data])[..|log|] == log;
  }

  /** Messages about other ids do not matter. */
  lemma {:induction false} LastSentElsewhere(log: seq<IOData>, more: seq<IOData>, id: Id)
    requires forall d :: d in more ==> d.id != id
    ensures LastSent(log + more, id) == LastSent(log, id)
  {
    if more == [] {
      assert log + more == log;
    } else {
      var front := more[..|more| - 1];
      assert log + more == log + front + [more[|more| - 1]];
      LastSentAppend(log + front, more[|more| - 1]);
      LastSentElsewhere(log, front, id);
    }
  }

  /** Two logs that agree on `id` still do when both receive the same messages. */
  lemma {:induction false} LastSentTogether(a: seq<IOData>, b: seq<IOData>, more: seq<IOData>, id: Id)
    requires LastSent(a, id) == LastSent(b, id)
    ensures LastSent(a + more, id) == LastSent(b + more, id)
  {
    if more == [] {
      assert a + more == a && b + more == b;
    } else {
      var front, last := more[..|more| - 1], more[|more| - 1];
      assert a + more == a + front + [last] && b + more == b + front + [last];
      LastSentTogether(a, b, front, id);
      LastSentAppend(a + front, last);
      LastSentAppend(b + front, last);
    }
  }

  /** The first value that the log reports for `id`. */
  function FirstSent(log: seq<IOData>, id: Id): Option<IOValue>
  {
    if log == [] then None
    else
      var front, last := log[..|log| - 1], log[|log| - 1];
      if FirstSent(front, id).Some? then FirstSent(front, id)
      else if last.id == id then Some(last.value)
      else None
  }

  lemma FirstSentAppend(log: seq<IOData>, data: IOData, id: Id)
    ensures FirstSent(log + [data], id)
            == if FirstSent(log, id).Some? then FirstSent(log, id) else if data.id == id then Some(data.value) else None
  {
    assert (log + [data])[..|log|] == log;
  }
}
