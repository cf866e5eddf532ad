/**
 The tail of one orchestrator resume, statement by statement: the local flags, the
 session blocks that roll back when an HTTP error leaves them, and the finally block.
 */
module ResumeSettlement {
  import opened Common
  import opened HoldTable

  /** What the managed segment, or persisting its pause, came to. */
  datatype Outcome =
    | Cancelled
    | Raised
    | Unsuccessful
    | Awaits(newHold: HoldId)
    | AwaitsUnpersisted            // the pause could not be persisted
    | Succeeds

  function FreshHold(e: ExecutionId, thread: Option<ThreadKey>, now: Time): Hold {
    Hold(e, thread, AwaitingResponse, now)
  }

  function Stamped(row: Hold, status: HoldStatus, now: Time): Hold {
    row.(status := status, updatedAt := now)
  }

  /** The settlement as one function of the tables: holds, execution status, and whether the run completed. */
  function Settled(holds: map<HoldId, Hold>, status: ExecutionStatus, h: HoldId, outcome: Outcome, now: Time)
    : (map<HoldId, Hold>, ExecutionStatus, bool)
    requires h in holds
  {
    var claimed := holds[h].status.Pending?;
    match outcome
    case Cancelled => (holds, status, false)
    case Awaits(n) =>
      var saved := holds[n := FreshHold(holds[h].execution, holds[h].thread, now)];
      if claimed then (saved[h := Stamped(holds[h], HoldStatus.Completed, now)], ExecutionStatus.Awaiting, true)
      else (saved, ExecutionStatus.Awaiting, false)
    case Succeeds =>
      if claimed then (holds[h := Stamped(holds[h], HoldStatus.Completed, now)], ExecutionCompleted, true)
      else (holds, ExecutionStatus.Awaiting, false)
    case _ =>
      (if claimed then holds[h := Stamped(holds[h], AwaitingResponse, now)] else holds, ExecutionStatus.Awaiting, false)
  }

  /** The segment failed, or succeeded after its claim had been taken away. */
  predicate Unsettled(outcome: Outcome, claim: HoldStatus) {
    outcome.Raised? || outcome.Unsuccessful? || outcome.AwaitsUnpersisted? || (outcome.Succeeds? && claim != Pending)
  }

  method SettleResume(svc: ExecutionStateService, e: ExecutionId, h: HoldId, outcome: Outcome, now: Time)
    returns (runCompleted: bool)
    requires h in svc.holds && e in svc.executions && svc.holds[h].execution == e
    requires outcome.Awaits? ==> outcome.newHold !in svc.holds
    modifies svc
    ensures outcome.Cancelled? ==>
              svc.holds == old(svc.holds) && svc.executions == old(svc.executions) && !runCompleted
    ensures outcome.Succeeds? && old(svc.holds)[h].status.Pending? ==>
              && svc.holds == old(svc.holds)[h := old(svc.holds)[h].(status := HoldStatus.Completed, updatedAt := now)]
              && svc.executions == old(svc.executions)[e := ExecutionCompleted] && runCompleted
    ensures outcome.Awaits? && old(svc.holds)[h].status.Pending? ==>
              && svc.holds == old(svc.holds)[outcome.newHold := Hold(e, old(svc.holds)[h].thread, AwaitingResponse, now)]
                                            [h := old(svc.holds)[h].(status := HoldStatus.Completed, updatedAt := now)]
              && svc.executions == old(svc.executions)[e := ExecutionStatus.Awaiting] && runCompleted
    ensures outcome.Awaits? && !old(svc.holds)[h].status.Pending? ==>
              && svc.holds == old(svc.holds)[outcome.newHold := Hold(e, old(svc.holds)[h].thread, AwaitingResponse, now)]
              && svc.executions == old(svc.executions)[e := ExecutionStatus.Awaiting] && !runCompleted
    ensures Unsettled(outcome, old(svc.holds)[h].status) ==>
              && svc.holds == (if old(svc.holds)[h].status.Pending?
                               then old(svc.holds)[h := old(svc.holds)[h].(status := AwaitingResponse, updatedAt := now)]
                               else old(svc.holds))
              && svc.executions == old(svc.executions)[e := ExecutionStatus.Awaiting] && !runCompleted
    ensures var (after, status, completed) := Settled(old(svc.holds), old(svc.executions)[e], h, outcome, now);
            svc.holds == after && svc.executions == old(svc.executions)[e := status] && runCompleted == completed
  {
    runCompleted := false;
    var restoreClaim, restoreExecution := false, false;
    match outcome {
      case Cancelled =>
      case Raised =>
        restoreClaim, restoreExecution := true, true;
      case AwaitsUnpersisted =>
        restoreClaim, restoreExecution := true, true;
      case Unsuccessful =>
        restoreClaim, restoreExecution := true, true;
      case Awaits(n) =>
        svc.holds := svc.holds[n := FreshHold(e, svc.holds[h].thread, now)];
        svc.executions := svc.executions[e := ExecutionStatus.Awaiting];
        var atBegin := svc.holds;
        var completed := svc.CompleteClaimedState(h, now);
        if completed {
          assert svc.holds == atBegin[h := Stamped(atBegin[h], HoldStatus.Completed, now)];
          runCompleted := true;
        } else {
          var restored := svc.RollbackPartialResumeSettlement(h, n, now);
          restoreClaim := !restored;
          restoreExecution := true;
          svc.holds := atBegin;          // the error leaves the session block: its statements roll back
        }
      case Succeeds =>
        var completed := svc.CompleteClaimedState(h, now);
        if completed {
          assert svc.holds == old(svc.holds)[h := Stamped(old(svc.holds)[h], HoldStatus.Completed, now)];
          svc.executions := svc.executions[e := ExecutionCompleted];
          runCompleted := true;
        } else {
          assert svc.holds == old(svc.holds);
          restoreClaim, restoreExecution := true, true;
        }
    }
    if restoreClaim {
      ghost var before := svc.holds;
      var restored := svc.RestoreClaimedState(h, now);
      assert svc.holds == if restored then before[h := Stamped(before[h], AwaitingResponse, now)] else before;
    }
    if restoreExecution {
      svc.executions := svc.executions[e := ExecutionStatus.Awaiting];
    }
  }

  /**
   Whatever the outcome, a hold that was still the worker's to settle is never lost: it
   is completed or, when the execution awaits, some hold of the execution awaits too.
   */
  lemma SettlementKeepsPromise(holds: map<HoldId, Hold>, status: ExecutionStatus, h: HoldId, outcome: Outcome, now: Time)
    requires h in holds && Active(holds[h].status) && (outcome.Awaits? ==> outcome.newHold !in holds)
    requires status.Running?
    ensures var (after, status', completed) := Settled(holds, status, h, outcome, now);
            && (status'.Awaiting? ==> exists n :: n in after && after[n].execution == holds[h].execution
                                                  && after[n].status.AwaitingResponse?)
            && (completed <==> h in after && after[h].status.Completed?)
            && (status'.ExecutionCompleted? ==> completed)
            && (forall g :: g in holds && g != h ==> g in after && after[g] == holds[g])
  {
    var (after, status', completed) := Settled(holds, status, h, outcome, now);
    if outcome.Awaits? {
      assert outcome.newHold in after;
    } else if status'.Awaiting? {
      assert h in after && after[h].status.AwaitingResponse?;
    }
  }
}
