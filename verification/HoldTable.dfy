/**
 Resume holds: the conditional UPDATE statements of the execution state service, each
 an in-place change of the hold rows, and the ledger every hold keeps balanced.
 */
module HoldTable {
  import opened Common

  type HoldId = nat

  datatype HoldStatus = AwaitingResponse | Pending | Completed | Discarded

  datatype Hold = Hold(execution: ExecutionId, thread: Option<ThreadKey>, status: HoldStatus, updatedAt: Time)

  predicate Active(s: HoldStatus) {
    s in {AwaitingResponse, Pending}
  }

  datatype Statement =
    | Claim(hold: HoldId)
    | Complete(hold: HoldId)
    | Restore(hold: HoldId)
    | Recover(cutoff: Time, ofExecution: Option<ExecutionId>, ofThread: Option<ThreadKey>)
    | Rollback(claimed: HoldId, newHold: HoldId)
    | DiscardAwaiting(thread: ThreadKey)
    | AbandonThread(thread: ThreadKey)
    | AbandonExecution(execution: ExecutionId)

  /** The rows whose WHERE clause a statement meets, and the status it gives them. */
  function NewStatus(row: Hold, id: HoldId, st: Statement): Option<HoldStatus> {
    match st
    case Claim(h) => if id == h && row.status.AwaitingResponse? then Some(Pending) else None
    case Complete(h) => if id == h && row.status.Pending? then Some(Completed) else None
    case Restore(h) => if id == h && row.status.Pending? then Some(AwaitingResponse) else None
    case Recover(cutoff, e, k) =>
      if row.status.Pending? && row.updatedAt < cutoff && (e.Some? ==> row.execution == e.value)
         && (k.Some? ==> row.thread == k)
      then Some(AwaitingResponse) else None
    case Rollback(claimed, newHold) =>
      // the new hold is discarded whatever its status; then the claimed one is restored
      if id == newHold then Some(Discarded)
      else if id == claimed && row.status.Pending? then Some(AwaitingResponse) else None
    case DiscardAwaiting(k) =>
      if row.thread == Some(k) && row.status.AwaitingResponse? then Some(Discarded) else None
    case AbandonThread(k) => if row.thread == Some(k) && Active(row.status) then Some(Discarded) else None
    case AbandonExecution(e) => if row.execution == e && Active(row.status) then Some(Discarded) else None
  }

  function RowAfter(row: Hold, id: HoldId, st: Statement, now: Time): Hold {
    var s := NewStatus(row, id, st);
    if s.None? then row else row.(status := s.value, updatedAt := now)
  }

  function TableAfter(holds: map<HoldId, Hold>, st: Statement, now: Time): map<HoldId, Hold> {
    map h | h in holds :: RowAfter(holds[h], h, st, now)
  }

  function Touched(holds: map<HoldId, Hold>, st: Statement): set<HoldId> {
    set h | h in holds && NewStatus(holds[h], h, st).Some?
  }

  /** Each discard on one row: whom it reaches, and that it spares everybody else. */
  lemma DiscardRowByRow(row: Hold, id: HoldId, st: Statement, now: Time)
    requires st.DiscardAwaiting? || st.AbandonThread? || st.AbandonExecution?
    ensures st.DiscardAwaiting? ==>
              RowAfter(row, id, st, now) == if row.thread == Some(st.thread) && row.status == AwaitingResponse
                                            then row.(status := Discarded, updatedAt := now) else row
    ensures st.AbandonThread? ==>
              RowAfter(row, id, st, now) == if row.thread == Some(st.thread) && row.status in {AwaitingResponse, Pending}
                                            then row.(status := Discarded, updatedAt := now) else row
    ensures st.AbandonExecution? ==>
              RowAfter(row, id, st, now) == if row.execution == st.execution && row.status in {AwaitingResponse, Pending}
                                            then row.(status := Discarded, updatedAt := now) else row
  {
  }

  predicate StaleClaim(row: Hold, cutoff: Time, execution: Option<ExecutionId>, thread: Option<ThreadKey>) {
    row.status.Pending? && row.updatedAt < cutoff
    && (execution.Some? ==> row.execution == execution.value) && (thread.Some? ==> row.thread == thread)
  }

  /** The holds a discard is aimed at; only the thread's own discard spares claimed ones. */
  predicate Targeted(row: Hold, st: Statement)
    requires st.DiscardAwaiting? || st.AbandonThread? || st.AbandonExecution?
  {
    match st
    case DiscardAwaiting(k) => row.thread == Some(k) && row.status.AwaitingResponse?
    case AbandonThread(k) => row.thread == Some(k) && Active(row.status)
    case AbandonExecution(e) => row.execution == e && Active(row.status)
  }

  class ExecutionStateService {
    var holds: map<HoldId, Hold>
    var executions: map<ExecutionId, ExecutionStatus>

    method TryClaimStateForResume(h: HoldId, now: Time) returns (claimed: bool)
      modifies this`holds
      ensures holds == TableAfter(old(holds), Claim(h), now)
      ensures claimed <==> h in old(holds) && old(holds)[h].status.AwaitingResponse?
      ensures holds == if claimed then old(holds)[h := old(holds)[h].(status := Pending, updatedAt := now)] else old(holds)
    {
      claimed := h in holds && holds[h].status.AwaitingResponse?;
      if claimed {
        holds := holds[h := holds[h].(status := Pending, updatedAt := now)];
      }
      assert holds == TableAfter(old(holds), Claim(h), now);
    }

    method CompleteClaimedState(h: HoldId, now: Time) returns (completed: bool)
      modifies this`holds
      ensures holds == TableAfter(old(holds), Complete(h), now)
      ensures completed <==> h in old(holds) && old(holds)[h].status.Pending?
      ensures holds == if completed then old(holds)[h := old(holds)[h].(status := Completed, updatedAt := now)] else old(holds)
    {
      completed := h in holds && holds[h].status.Pending?;
      if completed {
        holds := holds[h := holds[h].(status := Completed, updatedAt := now)];
      }
      assert holds == TableAfter(old(holds), Complete(h), now);
    }

    method RestoreClaimedState(h: HoldId, now: Time) returns (restored: bool)
      modifies this`holds
      ensures holds == TableAfter(old(holds), Restore(h), now)
      ensures restored <==> h in old(holds) && old(holds)[h].status.Pending?
      ensures holds == if restored then old(holds)[h := old(holds)[h].(status := AwaitingResponse, updatedAt := now)] else old(holds)
    {
      restored := h in holds && holds[h].status.Pending?;
      if restored {
        holds := holds[h := holds[h].(status := AwaitingResponse, updatedAt := now)];
      }
      assert holds == TableAfter(old(holds), Restore(h), now);
    }

    /** Gives back exactly the stale claims in scope: afterwards none is left, and each can be claimed again. */
    method RecoverStalePendingClaims(timeout: int, at: Time, now: Time, execution: Option<ExecutionId>,
                                     thread: Option<ThreadKey>) returns (recovered: nat)
      modifies this`holds
      ensures holds.Keys == old(holds).Keys
      ensures timeout <= 0 ==> holds == old(holds) && recovered == 0
      ensures timeout > 0 ==>
                forall h :: h in holds ==>
                  if old(holds)[h].status == Pending && old(holds)[h].updatedAt < at - timeout
                     && (execution.Some? ==> old(holds)[h].execution == execution.value)
                     && (thread.Some? ==> old(holds)[h].thread == thread)
                  then holds[h] == old(holds)[h].(status := AwaitingResponse, updatedAt := now)
                  else holds[h] == old(holds)[h]
      ensures timeout > 0 ==> forall h :: h in holds ==> !StaleClaim(holds[h], at - timeout, execution, thread)
      ensures timeout > 0 ==>
                recovered == |set h | h in old(holds) && StaleClaim(old(holds)[h], at - timeout, execution, thread)|
      ensures timeout > 0 ==> holds == TableAfter(old(holds), Recover(at - timeout, execution, thread), now)
    {
      if timeout <= 0 {
        return 0;
      }
      var st := Recover(at - timeout, execution, thread);
      recovered := |Touched(holds, st)|;
      assert Touched(holds, st) == set h | h in holds && StaleClaim(holds[h], at - timeout, execution, thread);
      holds := TableAfter(holds, st, now);
    }

    method RollbackPartialResumeSettlement(claimed: HoldId, newHold: HoldId, now: Time) returns (restored: bool)
      requires claimed != newHold
      modifies this`holds
      ensures holds == TableAfter(old(holds), Rollback(claimed, newHold), now)
      ensures restored <==> claimed in old(holds) && old(holds)[claimed].status.Pending?
      ensures holds.Keys == old(holds).Keys
      ensures forall h :: h in holds ==>
                holds[h] == if h == newHold then old(holds)[h].(status := Discarded, updatedAt := now)
                            else if h == claimed && old(holds)[h].status == Pending
                            then old(holds)[h].(status := AwaitingResponse, updatedAt := now)
                            else old(holds)[h]
    {
      if newHold in holds {
        holds := holds[newHold := holds[newHold].(status := Discarded, updatedAt := now)];
      }
      restored := RestoreClaimedState(claimed, now);
      assert holds == TableAfter(old(holds), Rollback(claimed, newHold), now);
    }

    /** Terminalize the parents of discarded holds that were left awaiting. */
    method FailAwaitingParents(parents: set<ExecutionId>)
      modifies this`executions
      ensures executions == map e | e in old(executions) ::
                if e in parents && old(executions)[e].Awaiting? then ExecutionFailed else old(executions)[e]
    {
      var todo := parents;
      while todo != {}
        invariant todo <= parents
        invariant executions == map e | e in old(executions) ::
                    if e in parents - todo && old(executions)[e].Awaiting? then ExecutionFailed else old(executions)[e]
        decreases todo
      {
        var e :| e in todo;
        if e in executions && executions[e].Awaiting? {
          executions := executions[e := ExecutionFailed];
        }
        todo := todo - {e};
      }
    }

    /** discard_awaiting_states_for_thread and both abandons: discard, then settle the parents. */
    method DiscardHolds(st: Statement, now: Time) returns (discarded: nat)
      requires st.DiscardAwaiting? || st.AbandonThread? || st.AbandonExecution?
      modifies this`holds, this`executions
      ensures holds.Keys == old(holds).Keys
      ensures forall h :: h in holds ==>
                if Targeted(old(holds)[h], st)
                then holds[h] == old(holds)[h].(status := Discarded, updatedAt := now)
                else holds[h] == old(holds)[h]
      ensures forall h :: h in holds ==> !Targeted(holds[h], st)
      ensures discarded == |set h | h in old(holds) && Targeted(old(holds)[h], st)|
      ensures executions == map e | e in old(executions) ::
                if old(executions)[e].Awaiting?
                   && (exists h :: h in old(holds) && Targeted(old(holds)[h], st) && old(holds)[h].execution == e)
                then ExecutionFailed else old(executions)[e]
      ensures holds == TableAfter(old(holds), st, now)
    {
      var touched := Touched(holds, st);
      assert touched == set h | h in holds && Targeted(holds[h], st);
      assert forall h :: h in holds && Targeted(holds[h], st) <==> h in touched;
      var parents := set h | h in touched :: holds[h].execution;
      discarded := |touched|;
      holds := TableAfter(holds, st, now);
      if discarded == 0 {
        assert touched == {} && forall h :: h in old(holds) && Targeted(old(holds)[h], st) ==> h in touched;
        return;
      }
      FailAwaitingParents(parents);
    }
  }

  // ------------------------------------------------------------------ the ledger of one hold

  datatype Ledger = Ledger(claims: nat, completions: nat, restores: nat, recoveries: nat, pendingDiscards: nat)

  const BLANK := Ledger(0, 0, 0, 0, 0)

  /** Book what a statement did to row `id`. */
  function Book(l: Ledger, row: Hold, id: HoldId, st: Statement): Ledger {
    var s := NewStatus(row, id, st);
    if s.None? then l
    else match st
      case Claim(_) => l.(claims := l.claims + 1)
      case Complete(_) => l.(completions := l.completions + 1)
      case Restore(_) => l.(restores := l.restores + 1)
      case Recover(_, _, _) => l.(recoveries := l.recoveries + 1)
      case Rollback(_, _) =>
        if s.value.AwaitingResponse? then l.(restores := l.restores + 1)
        else if row.status.Pending? then l.(pendingDiscards := l.pendingDiscards + 1) else l
      case DiscardAwaiting(_) => l
      case AbandonThread(_) => if row.status.Pending? then l.(pendingDiscards := l.pendingDiscards + 1) else l
      case AbandonExecution(_) => if row.status.Pending? then l.(pendingDiscards := l.pendingDiscards + 1) else l
  }

  datatype Timed = Timed(statement: Statement, now: Time)

  function RowHistory(row: Hold, id: HoldId, log: seq<Timed>): Hold
    decreases |log|
  {
    if log == [] then row
    else RowHistory(RowAfter(row, id, log[0].statement, log[0].now), id, log[1..])
  }

  function Booked(l: Ledger, row: Hold, id: HoldId, log: seq<Timed>): Ledger
    decreases |log|
  {
    if log == [] then l
    else Booked(Book(l, row, id, log[0].statement), RowAfter(row, id, log[0].statement, log[0].now), id, log[1..])
  }

  ghost predicate Balanced(l: Ledger, status: HoldStatus) {
    && l.claims == l.completions + l.restores + l.recoveries + l.pendingDiscards + (if status.Pending? then 1 else 0)
    && l.completions <= 1
    && (l.completions == 1 ==> status.Completed? || status.Discarded?)
    && (status.Completed? ==> l.completions == 1)
  }

  /**
   Over every interleaving of statements, from any pods: each claim won on a hold is
   accounted for exactly once, and the hold completes at most once.
   */
  lemma {:induction false} LedgerBalances(l: Ledger, row: Hold, id: HoldId, log: seq<Timed>)
    requires Balanced(l, row.status)
    ensures Balanced(Booked(l, row, id, log), RowHistory(row, id, log).status)
    decreases |log|
  {
    if log != [] {
      LedgerBalances(Book(l, row, id, log[0].statement), RowAfter(row, id, log[0].statement, log[0].now), id, log[1..]);
    }
  }

  /** A hold is created awaiting, with a blank ledger. */
  lemma NewHoldBalances(e: ExecutionId, k: Option<ThreadKey>, created: Time, id: HoldId, log: seq<Timed>)
    ensures var row := Hold(e, k, AwaitingResponse, created);
            var l, after := Booked(BLANK, row, id, log), RowHistory(row, id, log);
            && l.claims == l.completions + l.restores + l.recoveries + l.pendingDiscards
                           + (if after.status.Pending? then 1 else 0)
            && l.completions <= 1
  {
    LedgerBalances(BLANK, Hold(e, k, AwaitingResponse, created), id, log);
  }

  /** No statement of the log rolls back `id` as its own new hold. */
  predicate NeverRolledBack(id: HoldId, log: seq<Timed>) {
    forall i :: 0 <= i < |log| ==> !(log[i].statement.Rollback? && log[i].statement.newHold == id)
  }

  /** Completed and discarded are absorbing, but for a rollback's unconditional discard of its own new hold. */
  lemma {:induction false} SettledStaysSettled(row: Hold, id: HoldId, log: seq<Timed>)
    requires !Active(row.status)
    ensures NeverRolledBack(id, log) ==> RowHistory(row, id, log) == row
    ensures RowHistory(row, id, log).status in {row.status, Discarded}
    decreases |log|
  {
    if log != [] {
      var next := RowAfter(row, id, log[0].statement, log[0].now);
      SettledStaysSettled(next, id, log[1..]);
      if NeverRolledBack(id, log) {
        assert !(log[0].statement.Rollback? && log[0].statement.newHold == id);
        assert NeverRolledBack(id, log[1..]);
      }
    }
  }

  /** A recovered claim is free again: the next claim on it wins, and recovering once more finds nothing. */
  lemma RecoveredCanBeClaimed(holds: map<HoldId, Hold>, h: HoldId, cutoff: Time, e: Option<ExecutionId>,
                              k: Option<ThreadKey>, now: Time, later: Time)
    requires h in holds && StaleClaim(holds[h], cutoff, e, k)
    ensures var after := TableAfter(holds, Recover(cutoff, e, k), now);
            && TableAfter(after, Claim(h), later)[h] == holds[h].(updatedAt := later)
            && Touched(after, Claim(h)) == {h}
            && Touched(after, Recover(cutoff, e, k)) == {}
  {
    var after := TableAfter(holds, Recover(cutoff, e, k), now);
    assert NewStatus(after[h], h, Claim(h)) == Some(Pending);
  }

  /** The table's rows evolve independently, so the ledger speaks of the whole table's runs. */
  function TableHistory(holds: map<HoldId, Hold>, log: seq<Timed>): map<HoldId, Hold>
    decreases |log|
  {
    if log == [] then holds else TableHistory(TableAfter(holds, log[0].statement, log[0].now), log[1..])
  }

  lemma {:induction false} TableIsItsRows(holds: map<HoldId, Hold>, log: seq<Timed>, id: HoldId)
    requires id in holds
    ensures id in TableHistory(holds, log) && TableHistory(holds, log)[id] == RowHistory(holds[id], id, log)
    decreases |log|
  {
    if log != [] {
      TableIsItsRows(TableAfter(holds, log[0].statement, log[0].now), log[1..], id);
    }
  }
}
