/** The audit trail every store writes to: an append-only log, read per target. */
module AuditLog {

  /** What became of a write: done, lost before it was written, or written
      although the answer never reached the caller. */
  datatype Write = Done | Lost | Unheard

  /** One audit event: the row it is about and what happened to that row. */
  datatype Entry<A> = Entry(target: nat, action: A)

  /** The events about one target, oldest first. */
  function Trail<A>(log: seq<Entry<A>>, target: nat): (trail: seq<A>)
  {
    if log == [] then []
    else
      var last := log[|log| - 1];
      Trail(log[..|log| - 1], target) + (if last.target == target then [last.action] else [])
  }

  /** Appending an event extends its own target's trail and no other. */
  lemma TrailAppend<A>(log: seq<Entry<A>>, e: Entry<A>, target: nat)
    ensures Trail(log + [e], target) == Trail(log, target) + (if e.target == target then [e.action] else [])
  {
    assert (log + [e])[..|log|] == log;
  }

  /** A target no event mentions has an empty trail. */
  lemma {:induction false} TrailOfUnmentioned<A>(log: seq<Entry<A>>, target: nat)
    requires forall e :: e in log ==> e.target != target
    ensures Trail(log, target) == []
  {
    if log != [] {
      assert log[|log| - 1] in log;
      TrailOfUnmentioned(log[..|log| - 1], target);
    }
  }
}
