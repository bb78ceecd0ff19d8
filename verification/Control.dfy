/**
  The lifecycle gate of one actor.

  `mode` is the sole authority; `permit` is the private hint that a change has not
  yet been reread by the actor task.  `ops` is the history of committed transactions.
 */
module Gatekeeping {
  import opened Lifecycle

  class Control {
    var mode: Mode
    var permit: bool
    ghost var ops: seq<GateOp>

    ghost predicate Valid()
      reads this
    {
      mode == After(Running, ops)
    }

    constructor ()
      ensures Valid() && mode == Running && !permit && ops == []
    {
      mode, permit, ops := Running, false, [];
    }

    /** One transaction: it commits the next mode and, if that changed, the hint. */
    method Transact(op: GateOp)
      requires Valid()
      modifies this
      ensures Valid() && ops == old(ops) + [op]
      ensures mode == Gate(old(mode), op)
      ensures permit == (old(permit) || mode != old(mode))
    {
      var next := Gate(mode, op);
      if mode != next {
        permit := true;
      }
      mode := next;
      ops := ops + [op];
      assert ops[..|ops| - 1] == old(ops);
    }

    method Request(shutdown: Shutdown) returns (status: ShutdownStatus)
      requires Valid()
      modifies this
      ensures Valid() && ops == old(ops) + [GateOp.Request(shutdown)]
      ensures mode == Gate(old(mode), GateOp.Request(shutdown))
      ensures status == ShutdownStatus.Requested <==> mode != old(mode)
      ensures status.AlreadyExited? <==> mode.Exited?
      ensures status.AlreadyExited? ==> mode == Exited(status.status)
      ensures status.InProgress? ==> mode == old(mode) && mode != Running
      // The shutdown reported is the one that won: the graceful one, or a hard mode as Kill.
      ensures status == ShutdownStatus.InProgress(Drain) <==> old(mode) == Draining && shutdown != Kill
      ensures status == ShutdownStatus.InProgress(Stop) <==> old(mode) == Stopping && shutdown != Kill
      ensures status == ShutdownStatus.InProgress(Kill) <==> !Soft(old(mode)) && !old(mode).Exited?
    {
      status := RequestStatus(mode, shutdown);
      RequestedMeansMoved(mode, shutdown);
      Transact(GateOp.Request(shutdown));
    }

    /** Publishes one terminal mode and returns the status that won. */
    method Finish(proposed: ExitStatus) returns (status: ExitStatus)
      requires Valid()
      modifies this
      ensures Valid() && ops == old(ops) + [GateOp.Finish(proposed)]
      ensures mode == Exited(status)
      ensures old(mode).Exited? ==> mode == old(mode)
      ensures !Publishes(old(ops)) ==> status == StatusByHistory(old(ops), proposed)
    {
      Transact(GateOp.Finish(proposed));
      status := mode.status;
      if !Publishes(old(ops)) {
        PublicationIsDeterminedOnce(old(ops), proposed, []);
        assert ops + [] == ops;
      }
    }

    /** Child hooks enter only before any cutoff. */
    method BeginChildHook() returns (entered: bool)
      ensures entered <==> mode == Running
    {
      entered := mode == Running;
    }

    method BeginInitialization() returns (entered: bool)
      ensures entered <==> Soft(mode)
    {
      entered := mode == Running || mode == Draining || mode == Stopping;
    }
  }
}
