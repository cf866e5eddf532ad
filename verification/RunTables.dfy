/**
 The lifecycle tables: executions, thread sessions and runs, with the conditional
 UPDATE statements of the run lifecycle as functions on one row.
 */
module RunTables {
  import opened Common

  type RunId = nat

  datatype RunStatus = Active | Closing | Completed | Failed

  datatype Run = Run(
    execution: ExecutionId,
    thread: Option<ThreadKey>,
    status: RunStatus,
    heartbeatAt: Time,
    closeRequestedAt: Option<Time>,
    startedAt: Time,
    finishedAt: Option<Time>)

  /** The two close columns that an execution row and a thread row both carry. */
  datatype Session = Session(closeRequestedAt: Option<Time>, closedAt: Option<Time>)

  const OPEN_SESSION := Session(None, None)

  datatype Tables = Tables(
    executions: map<ExecutionId, Session>,
    threads: map<ThreadKey, Session>,
    runs: map<RunId, Run>)

  /** What a close, a reconciliation or a stale query ranges over. */
  datatype Scope = OfExecution(execution: ExecutionId) | OfThread(thread: ThreadKey)

  predicate Live(run: Run) {
    run.status in {Active, Closing} && run.finishedAt.None?
  }

  predicate IsOpen(s: Session) {
    s.closeRequestedAt.None? && s.closedAt.None?
  }

  predicate InScope(run: Run, scope: Scope) {
    match scope
    case OfExecution(e) => run.execution == e
    case OfThread(k) => run.thread == Some(k)
  }

  /** The rows a claim for (execution, thread) would conflict with, were they live. */
  predicate InClaim(run: Run, e: ExecutionId, thread: Option<ThreadKey>) {
    run.execution == e || (thread.Some? && run.thread == thread)
  }

  predicate Conflict(a: Run, b: Run) {
    a.execution == b.execution || (a.thread.Some? && a.thread == b.thread)
  }

  /** At most one live run per execution and per non-null thread key. */
  ghost predicate UniqueLive(runs: map<RunId, Run>) {
    forall r1, r2 :: r1 in runs && r2 in runs && r1 != r2 && Live(runs[r1]) && Live(runs[r2])
      ==> !Conflict(runs[r1], runs[r2])
  }

  predicate Closing?(t: Tables, scope: Scope) {
    match scope
    case OfExecution(e) => e in t.executions && !IsOpen(t.executions[e])
    case OfThread(k) => k in t.threads && !IsOpen(t.threads[k])
  }

  function LiveRuns(t: Tables, scope: Scope): set<RunId> {
    set r | r in t.runs && Live(t.runs[r]) && InScope(t.runs[r], scope)
  }

  /** UPDATE ... SET status, finished_at WHERE finished_at IS NULL [AND heartbeat_at < before]. */
  function FinishIf(run: Run, status: RunStatus, now: Time, before: Option<Time>): Run {
    if run.finishedAt.None? && (before.Some? ==> run.heartbeatAt < before.value)
    then run.(status := status, finishedAt := Some(now))
    else run
  }

  /** UPDATE ... SET heartbeat_at WHERE the run is live. */
  function BeatIf(run: Run, at: Time): Run {
    if Live(run) then run.(heartbeatAt := at) else run
  }

  /** UPDATE ... SET status = 'closing', close_requested_at WHERE status = 'active' AND unfinished. */
  function CloseIf(run: Run, now: Time): Run {
    if run.status == Active && run.finishedAt.None?
    then run.(status := Closing, closeRequestedAt := Some(now))
    else run
  }

  /** UPDATE ... SET close_requested_at WHERE neither close column is set. */
  function RequestClose(s: Session, now: Time): Session {
    if IsOpen(s) then s.(closeRequestedAt := Some(now)) else s
  }

  /** UPDATE ... SET closed_at WHERE closed_at IS NULL. */
  function MarkClosed(s: Session, now: Time): Session {
    if s.closedAt.None? then s.(closedAt := Some(now)) else s
  }

  /** How any statement of the protocol may change a run row: a finished row is frozen. */
  predicate Evolves(before: Run, after: Run) {
    && after.execution == before.execution
    && after.thread == before.thread
    && before.heartbeatAt <= after.heartbeatAt
    && (before.finishedAt.Some? ==> after == before)
    && (Live(after) ==> Live(before))
    && (after.finishedAt.None? ==> Live(before) ==> Live(after))
  }

  /** No close column is ever cleared; a close request and a thread's close are never rewritten. */
  predicate Grows(before: Session, after: Session) {
    && (before.closeRequestedAt.Some? ==> after.closeRequestedAt == before.closeRequestedAt)
    && (before.closedAt.Some? ==> after.closedAt.Some?)
  }
}
