/**
 * The BRD generation panel as an object whose two pieces of state, the
 * status and the loading flag, are updated in place by the click handler.
 */
module BRDSection {
  import opened BRDStatusMachine

  class BRDGenerationSection {
    var status: Status
    var isLoading: bool

    /** The panel's state as a value. */
    function Snapshot(): State
      reads this
    {
      State(status, isLoading)
    }

    predicate Valid()
      reads this
    {
      BRDStatusMachine.Valid(Snapshot())
    }

    /** A new panel shows the configured status, pending by default, and is not loading. */
    constructor (initialStatus: Status := Pending)
      ensures Valid()
      ensures Snapshot() == Initial(initialStatus)
    {
      status := initialStatus;
      isLoading := false;
    }

    /** The button's disabled flag: set exactly when a click would be ignored. */
    function Disabled(): (d: bool)
      reads this
      ensures d <==> !Click(Snapshot()).accepted
    {
      BRDStatusMachine.Disabled(Snapshot())
    }

    /** The button's label. */
    function Label(): (l: string)
      reads this
      ensures l == "BRD Generated" <==> status == Completed
      ensures l == "Generate BRD" <==> status != Completed
    {
      BRDStatusMachine.Label(Snapshot())
    }

    /**
     * The handler up to its `await`: returns whether the guard let the click
     * through; if it did, the request is running and shows as in progress.
     */
    method Begin() returns (accepted: bool)
      requires Valid()
      modifies this
      ensures Valid()
      ensures accepted == Click(old(Snapshot())).accepted
      ensures Snapshot() == Click(old(Snapshot())).next
    {
      if isLoading || status == Completed {
        return false;
      }
      isLoading := true;
      status := InProgress;
      accepted := true;
    }

    /**
     * The handler after its `await`, for an accepted request: completed on
     * success, back to pending on failure, and not loading either way.
     */
    method Settle(st: Settlement)
      requires Valid() && isLoading
      modifies this
      ensures Valid()
      ensures Snapshot() == BRDStatusMachine.Settle(old(Snapshot()), st)
    {
      if st != Rejected {
        status := Completed;
      } else {
        status := Pending;
      }
      isLoading := false;
    }

    /**
     * The whole handler, with the awaited work finishing as `st`: nothing
     * happens when the guard rejects the click; otherwise the request starts
     * and settles.
     */
    method HandleGenerateBRD(st: Settlement) returns (accepted: bool)
      requires Valid()
      modifies this
      ensures Valid()
      ensures accepted == Click(old(Snapshot())).accepted
      ensures accepted ==> Snapshot() == BRDStatusMachine.Settle(Click(old(Snapshot())).next, st)
      ensures !accepted ==> Snapshot() == old(Snapshot())
    {
      accepted := Begin();
      if accepted {
        Settle(st);
      }
    }
  }
}
