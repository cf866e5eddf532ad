/**
 The session lifecycle as a transition system over any number of database sessions
 ("pods"). A transaction locks rows, keeps its writes to itself until it commits, and
 reads the committed tables overlaid with its own writes; statements of different
 transactions interleave freely. Heartbeats and a worker's own finish are
 single-statement transactions.
 */
module SessionProtocol {
  import opened Common
  import opened RunTables

  type Pod = nat

  datatype Row = ExecutionRow(execution: ExecutionId) | ThreadRow(thread: ThreadKey) | RunRow(run: RunId)

  /** Where a transaction stands between two of its statements. */
  datatype Phase =
    // try_create_active_run
    | Claiming(execution: ExecutionId, thread: Option<ThreadKey>)   // execution row locked and open
    | Claimable(execution: ExecutionId, thread: Option<ThreadKey>)  // thread row too; reaping
    | Unopposed(execution: ExecutionId, thread: Option<ThreadKey>)  // conflict query came back empty
    | Inserted(execution: ExecutionId, thread: Option<ThreadKey>, run: RunId)
    // the close request
    | CloseFlagged(scope: Scope)
    | CloseMarked(scope: Scope)
    // reconcile, judge, finalize
    | Reconciling(scope: Scope, cutoff: Time)
    | Reaping(scope: Scope, cutoff: Time, todo: set<RunId>)
    | Judged(scope: Scope, cutoff: Time, liveCutoff: Time, gap: set<RunId>)
    | Closed(scope: Scope, cutoff: Time, liveCutoff: Time, gap: set<RunId>)

  datatype Transaction = Transaction(phase: Phase, locked: set<Row>, writes: Tables)

  /** `claimStale` is the raw setting of the claim path, `closeStale` the clamped one of the close path. */
  datatype World = World(
    committed: Tables,
    transactions: map<Pod, Transaction>,
    now: Time,
    claimStale: int,
    closeStale: nat)

  datatype Action =
    | Tick(elapsed: nat)
    | BeginClaim(pod: Pod, execution: ExecutionId, thread: Option<ThreadKey>)
    | LockThread(pod: Pod)
    | ReapForClaim(pod: Pod, run: RunId, cutoff: Time)
    | CheckConflict(pod: Pod)
    | InsertRun(pod: Pod, run: RunId)
    | BeginClose(pod: Pod, scope: Scope)
    | MarkRunsClosing(pod: Pod)
    | BeginReconcile(pod: Pod, scope: Scope)
    | ListStale(pod: Pod)
    | ReapListed(pod: Pod, run: RunId)
    | JudgeLive(pod: Pod)
    | CloseMember(pod: Pod, execution: ExecutionId)
    | CloseScope(pod: Pod)
    | Commit(pod: Pod)
    | Rollback(pod: Pod)
    | Heartbeat(run: RunId, at: Time)
    | FinishOwn(run: RunId, status: RunStatus)

  const NO_WRITES := Tables(map[], map[], map[])

  function Overlay(base: Tables, writes: Tables): Tables {
    Tables(base.executions + writes.executions, base.threads + writes.threads, base.runs + writes.runs)
  }

  /** What a transaction reads: the committed rows under its own writes. */
  function Seen(c: Tables, t: Transaction): Tables {
    Overlay(c, t.writes)
  }

  function View(w: World, p: Pod): Tables
    requires p in w.transactions
  {
    Seen(w.committed, w.transactions[p])
  }

  /** No transaction other than `p` holds the lock on `row`. */
  ghost predicate Free(w: World, p: Pod, row: Row) {
    forall q :: q in w.transactions && q != p ==> row !in w.transactions[q].locked
  }

  ghost predicate FreeForAll(w: World, row: Row) {
    forall q :: q in w.transactions ==> row !in w.transactions[q].locked
  }

  function ScopeRow(scope: Scope): Row {
    match scope
    case OfExecution(e) => ExecutionRow(e)
    case OfThread(k) => ThreadRow(k)
  }

  ghost predicate NoOpposition(t: Tables, e: ExecutionId, thread: Option<ThreadKey>) {
    forall r :: r in t.runs && Live(t.runs[r]) ==> !InClaim(t.runs[r], e, thread)
  }

  function NewRun(e: ExecutionId, thread: Option<ThreadKey>, now: Time): Run {
    Run(e, thread, Active, now, None, now, None)
  }

  ghost predicate Enabled(w: World, a: Action) {
    match a
    case Tick(_) => true
    case BeginClaim(p, e, _) =>
      p !in w.transactions && e in w.committed.executions
      && FreeForAll(w, ExecutionRow(e)) && IsOpen(w.committed.executions[e])
    case LockThread(p) =>
      p in w.transactions && w.transactions[p].phase.Claiming?
      && (var k := w.transactions[p].phase.thread;
          k.Some? ==>
            Free(w, p, ThreadRow(k.value))
            && (k.value in w.committed.threads ==> IsOpen(w.committed.threads[k.value])))
    case ReapForClaim(p, r, cutoff) =>
      p in w.transactions && w.transactions[p].phase.Claimable?
      && r in View(w, p).runs && Free(w, p, RunRow(r)) && cutoff <= w.now - w.claimStale
      && InClaim(View(w, p).runs[r], w.transactions[p].phase.execution, w.transactions[p].phase.thread)
    case CheckConflict(p) =>
      p in w.transactions && w.transactions[p].phase.Claimable?
      && NoOpposition(View(w, p), w.transactions[p].phase.execution, w.transactions[p].phase.thread)
    case InsertRun(p, r) =>
      p in w.transactions && w.transactions[p].phase.Unopposed?
      && r !in w.committed.runs && FreeForAll(w, RunRow(r))
    case BeginClose(p, scope) =>
      p !in w.transactions && FreeForAll(w, ScopeRow(scope))
      && (scope.OfExecution? ==> scope.execution in w.committed.executions)
    case MarkRunsClosing(p) =>
      p in w.transactions && w.transactions[p].phase.CloseFlagged?
      && forall r :: r in LiveRuns(View(w, p), w.transactions[p].phase.scope) ==> Free(w, p, RunRow(r))
    case BeginReconcile(p, scope) =>
      p !in w.transactions && Closing?(w.committed, scope)
    case ListStale(p) =>
      p in w.transactions && w.transactions[p].phase.Reconciling?
    case ReapListed(p, r) =>
      p in w.transactions && w.transactions[p].phase.Reaping?
      && r in w.transactions[p].phase.todo && r in View(w, p).runs && Free(w, p, RunRow(r))
    case JudgeLive(p) =>
      p in w.transactions && w.transactions[p].phase.Reaping? && w.transactions[p].phase.todo == {}
      && Blocking(w.committed, w.transactions[p], w.now - w.closeStale) == {}
    case CloseMember(p, e) =>
      p in w.transactions && w.transactions[p].phase.Judged? && w.transactions[p].phase.scope.OfThread?
      && e in View(w, p).executions && Free(w, p, ExecutionRow(e))
    case CloseScope(p) =>
      p in w.transactions && w.transactions[p].phase.Judged?
      && Free(w, p, ScopeRow(w.transactions[p].phase.scope))
      && ScopeExists(View(w, p), w.transactions[p].phase.scope)
    case Commit(p) => p in w.transactions
    case Rollback(p) => p in w.transactions
    case Heartbeat(r, at) =>
      r in w.committed.runs && FreeForAll(w, RunRow(r)) && w.committed.runs[r].heartbeatAt <= at <= w.now
    case FinishOwn(r, status) =>
      r in w.committed.runs && FreeForAll(w, RunRow(r)) && status in {RunStatus.Completed, Failed}
  }

  function Put(w: World, p: Pod, t: Transaction): World {
    w.(transactions := w.transactions[p := t])
  }

  function WriteRun(t: Transaction, r: RunId, run: Run): Transaction {
    t.(locked := t.locked + {RunRow(r)}, writes := t.writes.(runs := t.writes.runs[r := run]))
  }

  function WriteExecution(t: Transaction, e: ExecutionId, s: Session): Transaction {
    t.(locked := t.locked + {ExecutionRow(e)}, writes := t.writes.(executions := t.writes.executions[e := s]))
  }

  function WriteThread(t: Transaction, k: ThreadKey, s: Session): Transaction {
    t.(locked := t.locked + {ThreadRow(k)}, writes := t.writes.(threads := t.writes.threads[k := s]))
  }

  function ThreadIn(t: Tables, k: ThreadKey): Session {
    if k in t.threads then t.threads[k] else OPEN_SESSION
  }

  // Statements inside a transaction: committed tables, transaction, clock -> transaction.

  function LockThreadRow(c: Tables, t: Transaction): Transaction
    requires t.phase.Claiming?
  {
    var t' := t.(phase := Claimable(t.phase.execution, t.phase.thread));
    if t.phase.thread.None? then t' else WriteThread(t', t.phase.thread.value, ThreadIn(c, t.phase.thread.value))
  }

  function ReapRun(c: Tables, t: Transaction, r: RunId, cutoff: Time, now: Time): Transaction
    requires r in Seen(c, t).runs
  {
    WriteRun(t, r, FinishIf(Seen(c, t).runs[r], Failed, now, Some(cutoff)))
  }

  function AddRun(t: Transaction, r: RunId, now: Time): Transaction
    requires t.phase.Unopposed?
  {
    WriteRun(t.(phase := Inserted(t.phase.execution, t.phase.thread, r)), r,
             NewRun(t.phase.execution, t.phase.thread, now))
  }

  function FlagClose(c: Tables, scope: Scope, now: Time): Transaction
    requires scope.OfExecution? ==> scope.execution in c.executions
  {
    var t := Transaction(CloseFlagged(scope), {}, NO_WRITES);
    match scope
    case OfExecution(e) => WriteExecution(t, e, RequestClose(c.executions[e], now))
    case OfThread(k) => WriteThread(t, k, RequestClose(ThreadIn(c, k), now))
  }

  function MarkClosing(c: Tables, t: Transaction, now: Time): Transaction
    requires t.phase.CloseFlagged?
  {
    var v := Seen(c, t);
    var marked := LiveRuns(v, t.phase.scope);
    Transaction(
      CloseMarked(t.phase.scope),
      t.locked + (set r | r in marked :: RunRow(r)),
      t.writes.(runs := t.writes.runs + (map r | r in marked && r in v.runs :: CloseIf(v.runs[r], now))))
  }

  function ListStaleRuns(c: Tables, t: Transaction, cutoff: Time): Transaction
    requires t.phase.Reconciling?
  {
    var v := Seen(c, t);
    t.(phase := Reaping(t.phase.scope, t.phase.cutoff,
         set r | r in LiveRuns(v, t.phase.scope) && r in v.runs && v.runs[r].heartbeatAt < cutoff))
  }

  function ReapListedRun(c: Tables, t: Transaction, r: RunId, now: Time): Transaction
    requires t.phase.Reaping? && r in Seen(c, t).runs
  {
    ReapRun(c, t, r, t.phase.cutoff, now).(phase := t.phase.(todo := t.phase.todo - {r}))
  }

  /** list_non_stale_active_runs for the scope being reconciled. */
  function Blocking(c: Tables, t: Transaction, liveCutoff: Time): set<RunId>
    requires t.phase.Reaping?
  {
    var v := Seen(c, t);
    set r | r in LiveRuns(v, t.phase.scope) && r in v.runs && v.runs[r].heartbeatAt >= liveCutoff
  }

  function Judge(c: Tables, t: Transaction, liveCutoff: Time): Transaction
    requires t.phase.Reaping?
  {
    t.(phase := Judged(t.phase.scope, t.phase.cutoff, liveCutoff, LiveRuns(Seen(c, t), t.phase.scope)))
  }

  /** `closed_at` of a member execution is assigned through its loaded row, without an IS NULL guard. */
  function CloseExecutionRow(c: Tables, t: Transaction, e: ExecutionId, now: Time): Transaction
    requires e in Seen(c, t).executions
  {
    WriteExecution(t, e, Seen(c, t).executions[e].(closedAt := Some(now)))
  }

  ghost predicate ScopeExists(v: Tables, scope: Scope) {
    match scope
    case OfExecution(e) => e in v.executions
    case OfThread(k) => k in v.threads
  }

  /** An execution closes through its loaded row; a thread through the guarded statement. */
  ghost function CloseScopeRow(c: Tables, t: Transaction, now: Time): Transaction
    requires t.phase.Judged? && ScopeExists(Seen(c, t), t.phase.scope)
  {
    var t' := t.(phase := Closed(t.phase.scope, t.phase.cutoff, t.phase.liveCutoff, t.phase.gap));
    match t.phase.scope
    case OfExecution(e) => CloseExecutionRow(c, t', e, now)
    case OfThread(k) => WriteThread(t', k, MarkClosed(Seen(c, t).threads[k], now))
  }

  ghost function WithRun(w: World, r: RunId, run: Run): World {
    w.(committed := w.committed.(runs := w.committed.runs[r := run]))
  }

  ghost function Do(w: World, a: Action): World
    requires Enabled(w, a)
  {
    match a
    case Tick(d) => w.(now := w.now + d)
    case BeginClaim(p, e, k) => Put(w, p, Transaction(Claiming(e, k), {ExecutionRow(e)}, NO_WRITES))
    case LockThread(p) => Put(w, p, LockThreadRow(w.committed, w.transactions[p]))
    case ReapForClaim(p, r, cutoff) => Put(w, p, ReapRun(w.committed, w.transactions[p], r, cutoff, w.now))
    case CheckConflict(p) =>
      var t := w.transactions[p];
      Put(w, p, t.(phase := Unopposed(t.phase.execution, t.phase.thread)))
    case InsertRun(p, r) => Put(w, p, AddRun(w.transactions[p], r, w.now))
    case BeginClose(p, scope) => Put(w, p, FlagClose(w.committed, scope, w.now))
    case MarkRunsClosing(p) => Put(w, p, MarkClosing(w.committed, w.transactions[p], w.now))
    case BeginReconcile(p, scope) =>
      Put(w, p, Transaction(Reconciling(scope, w.now - w.closeStale), {}, NO_WRITES))
    case ListStale(p) => Put(w, p, ListStaleRuns(w.committed, w.transactions[p], w.now - w.closeStale))
    case ReapListed(p, r) => Put(w, p, ReapListedRun(w.committed, w.transactions[p], r, w.now))
    case JudgeLive(p) => Put(w, p, Judge(w.committed, w.transactions[p], w.now - w.closeStale))
    case CloseMember(p, e) => Put(w, p, CloseExecutionRow(w.committed, w.transactions[p], e, w.now))
    case CloseScope(p) => Put(w, p, CloseScopeRow(w.committed, w.transactions[p], w.now))
    case Commit(p) => w.(committed := View(w, p), transactions := w.transactions - {p})
    case Rollback(p) => w.(transactions := w.transactions - {p})
    case Heartbeat(r, at) =>
      WithRun(w, r, BeatIf(w.committed.runs[r], at))
    case FinishOwn(r, status) =>
      WithRun(w, r, FinishIf(w.committed.runs[r], status, w.now, None))
  }

  // ------------------------------------------------------------------ runs

  ghost predicate Possible(w: World, actions: seq<Action>)
    decreases |actions|
  {
    actions == [] || (Enabled(w, actions[0]) && Possible(Do(w, actions[0]), actions[1..]))
  }

  ghost function After(w: World, actions: seq<Action>): World
    requires Possible(w, actions)
    decreases |actions|
  {
    if actions == [] then w else After(Do(w, actions[0]), actions[1..])
  }

  /** Facts about rows alone; the migration leaves rows like this. */
  ghost predicate RowsSound(t: Tables, now: Time) {
    && UniqueLive(t.runs)
    && (forall r :: r in t.runs ==> RunPast(t.runs[r], now))
    && (forall k :: k in t.threads && t.threads[k].closedAt.Some? ==> t.threads[k].closeRequestedAt.Some?)
  }

  ghost predicate RunPast(run: Run, now: Time) {
    run.heartbeatAt <= now && (run.finishedAt.None? ==> Live(run))
  }

  /** A deployment starts with no open transaction. */
  ghost predicate Init(w: World) {
    w.transactions == map[] && RowsSound(w.committed, w.now)
  }
}
