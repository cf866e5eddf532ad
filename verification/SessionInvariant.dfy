/**
 The invariant of the session protocol, and that every statement of every transaction
 keeps it. Soundness is stated of one transaction against the committed tables, so a
 statement's proof never looks at the other transactions; what a commit does to a
 bystander is one separate argument.
 */
module SessionInvariant {
  import opened Common
  import opened RunTables
  import opened SessionProtocol

  ghost predicate Disjoint(p: Transaction, q: Transaction) {
    forall row :: row in p.locked ==> row !in q.locked
  }

  ghost predicate LocksDisjoint(w: World) {
    forall p, q :: p in w.transactions && q in w.transactions && p != q
      ==> Disjoint(w.transactions[p], w.transactions[q])
  }

  ghost predicate ThreadGrows(c: Tables, k: ThreadKey, s: Session) {
    && Grows(ThreadIn(c, k), s)
    && (ThreadIn(c, k).closedAt.Some? ==> s.closedAt == ThreadIn(c, k).closedAt)
    && (s.closedAt.Some? ==> s.closeRequestedAt.Some?)
  }

  ghost predicate RunWriteSound(c: Tables, phase: Phase, r: RunId, run: Run) {
    if r in c.runs then Evolves(c.runs[r], run) else phase.Inserted? && phase.run == r
  }

  /** Every uncommitted write is to a locked row and only moves that row forward. */
  ghost predicate WritesSound(c: Tables, t: Transaction, now: Time) {
    && (forall e :: e in t.writes.executions ==>
          ExecutionRow(e) in t.locked && e in c.executions && Grows(c.executions[e], t.writes.executions[e]))
    && (forall k :: k in t.writes.threads ==>
          ThreadRow(k) in t.locked && ThreadGrows(c, k, t.writes.threads[k]))
    && (forall r :: r in t.writes.runs ==>
          RunRow(r) in t.locked && RunWriteSound(c, t.phase, r, t.writes.runs[r]) && RunPast(t.writes.runs[r], now))
  }

  /** The rows a claim depends on are locked by its transaction and, as it sees them, open. */
  ghost predicate Holds(c: Tables, t: Transaction, e: ExecutionId, thread: Option<ThreadKey>) {
    var v := Seen(c, t);
    && ExecutionRow(e) in t.locked && e in v.executions && IsOpen(v.executions[e])
    && (thread.Some? ==>
          ThreadRow(thread.value) in t.locked && thread.value in v.threads && IsOpen(v.threads[thread.value]))
  }

  ghost predicate PhaseSound(c: Tables, t: Transaction, staleBefore: Time) {
    var v := Seen(c, t);
    match t.phase
    case Claiming(e, _) => Holds(c, t, e, None)
    case Claimable(e, k) => Holds(c, t, e, k)
    case Unopposed(e, k) => Holds(c, t, e, k) && NoOpposition(v, e, k)
    case Inserted(e, k, r) =>
      && Holds(c, t, e, k)
      && r in t.writes.runs && r !in c.runs
      && Live(v.runs[r]) && v.runs[r].execution == e && v.runs[r].thread == k
      && (forall r2 :: r2 in v.runs && r2 != r && Live(v.runs[r2]) ==> !InClaim(v.runs[r2], e, k))
    case CloseFlagged(_) => true
    case CloseMarked(_) => true
    case Reconciling(scope, cutoff) => Closing?(c, scope) && cutoff <= staleBefore
    case Reaping(scope, cutoff, todo) =>
      && Closing?(c, scope) && cutoff <= staleBefore
      && (forall r :: r in LiveRuns(v, scope) && v.runs[r].heartbeatAt < cutoff ==> r in todo)
    case Judged(scope, cutoff, live, gap) => Closing?(c, scope) && LiveRuns(v, scope) <= gap && (gap != {} ==> cutoff < live)
    case Closed(scope, cutoff, live, gap) => Closing?(c, scope) && LiveRuns(v, scope) <= gap && (gap != {} ==> cutoff < live)
  }

  ghost predicate Sound(c: Tables, t: Transaction, now: Time, staleBefore: Time) {
    WritesSound(c, t, now) && PhaseSound(c, t, staleBefore)
  }

  ghost predicate SoundIn(w: World, p: Pod)
    requires p in w.transactions
  {
    Sound(w.committed, w.transactions[p], w.now, w.now - w.closeStale)
  }

  ghost predicate Inv(w: World) {
    && RowsSound(w.committed, w.now)
    && LocksDisjoint(w)
    && (forall p :: p in w.transactions ==> SoundIn(w, p))
  }

  // ------------------------------------------------------------------ own statements

  lemma SeenIsPast(c: Tables, t: Transaction, now: Time)
    requires RowsSound(c, now) && WritesSound(c, t, now)
    ensures forall r :: r in Seen(c, t).runs ==> RunPast(Seen(c, t).runs[r], now)
  {
  }

  lemma LockThreadSound(c: Tables, t: Transaction, now: Time, sb: Time)
    requires RowsSound(c, now) && Sound(c, t, now, sb) && t.phase.Claiming?
    requires t.phase.thread.Some? && t.phase.thread.value in c.threads ==> IsOpen(c.threads[t.phase.thread.value])
    ensures Sound(c, LockThreadRow(c, t), now, sb)
  {
    var t' := LockThreadRow(c, t);
    assert Seen(c, t').executions == Seen(c, t).executions;
    assert Holds(c, t', t.phase.execution, t.phase.thread);
  }

  /** Overwriting one run row with a later version of it. */
  lemma WriteRunSound(c: Tables, t: Transaction, r: RunId, run: Run, now: Time)
    requires WritesSound(c, t, now) && r in c.runs
    requires Evolves(Seen(c, t).runs[r], run) && RunPast(run, now)
    ensures WritesSound(c, WriteRun(t, r, run), now)
    ensures Seen(c, WriteRun(t, r, run)).runs == Seen(c, t).runs[r := run]
  {
    var t' := WriteRun(t, r, run);
    assert Evolves(c.runs[r], run);
    forall r2 | r2 in t'.writes.runs
      ensures RunRow(r2) in t'.locked && RunWriteSound(c, t'.phase, r2, t'.writes.runs[r2])
              && RunPast(t'.writes.runs[r2], now)
    {
    }
  }

  lemma ReapRunWrites(c: Tables, t: Transaction, r: RunId, cutoff: Time, now: Time)
    requires RowsSound(c, now) && WritesSound(c, t, now) && !t.phase.Inserted? && r in Seen(c, t).runs
    ensures WritesSound(c, ReapRun(c, t, r, cutoff, now), now)
    ensures Seen(c, ReapRun(c, t, r, cutoff, now)).runs
            == Seen(c, t).runs[r := FinishIf(Seen(c, t).runs[r], Failed, now, Some(cutoff))]
  {
    SeenIsPast(c, t, now);
    WriteRunSound(c, t, r, FinishIf(Seen(c, t).runs[r], Failed, now, Some(cutoff)), now);
  }

  lemma ReapForClaimSound(c: Tables, t: Transaction, r: RunId, cutoff: Time, now: Time, sb: Time)
    requires RowsSound(c, now) && Sound(c, t, now, sb) && t.phase.Claimable? && r in Seen(c, t).runs
    ensures Sound(c, ReapRun(c, t, r, cutoff, now), now, sb)
  {
    ReapRunWrites(c, t, r, cutoff, now);
    assert Holds(c, ReapRun(c, t, r, cutoff, now), t.phase.execution, t.phase.thread);
  }

  lemma CheckConflictSound(c: Tables, t: Transaction, now: Time, sb: Time)
    requires Sound(c, t, now, sb) && t.phase.Claimable?
    requires NoOpposition(Seen(c, t), t.phase.execution, t.phase.thread)
    ensures Sound(c, t.(phase := Unopposed(t.phase.execution, t.phase.thread)), now, sb)
  {
    assert Holds(c, t.(phase := Unopposed(t.phase.execution, t.phase.thread)), t.phase.execution, t.phase.thread);
  }

  lemma AddRunWrites(c: Tables, t: Transaction, r: RunId, now: Time)
    requires WritesSound(c, t, now) && t.phase.Unopposed? && r !in c.runs
    ensures WritesSound(c, AddRun(t, r, now), now)
    ensures r !in Seen(c, t).runs
    ensures Seen(c, AddRun(t, r, now)).runs
            == Seen(c, t).runs[r := NewRun(t.phase.execution, t.phase.thread, now)]
  {
    var t' := AddRun(t, r, now);
    forall r2 | r2 in t'.writes.runs
      ensures RunRow(r2) in t'.locked && RunWriteSound(c, t'.phase, r2, t'.writes.runs[r2])
              && RunPast(t'.writes.runs[r2], now)
    {
      if r2 != r { assert RunWriteSound(c, t.phase, r2, t.writes.runs[r2]); }
    }
  }

  lemma AddRunSound(c: Tables, t: Transaction, r: RunId, now: Time, sb: Time)
    requires Sound(c, t, now, sb) && t.phase.Unopposed? && r !in c.runs
    ensures Sound(c, AddRun(t, r, now), now, sb)
  {
    AddRunWrites(c, t, r, now);
    assert Holds(c, AddRun(t, r, now), t.phase.execution, t.phase.thread);
  }

  lemma MarkClosingSound(c: Tables, t: Transaction, now: Time, sb: Time)
    requires RowsSound(c, now) && Sound(c, t, now, sb) && t.phase.CloseFlagged?
    ensures Sound(c, MarkClosing(c, t, now), now, sb)
  {
    SeenIsPast(c, t, now);
    var t', v := MarkClosing(c, t, now), Seen(c, t);
    forall r | r in t'.writes.runs
      ensures RunRow(r) in t'.locked && RunWriteSound(c, t'.phase, r, t'.writes.runs[r])
              && RunPast(t'.writes.runs[r], now)
    {
      if r in LiveRuns(v, t.phase.scope) {
        assert RunWriteSound(c, t.phase, r, v.runs[r]) by {
          if r !in t.writes.runs { assert Evolves(c.runs[r], c.runs[r]); }
        }
        assert Evolves(v.runs[r], CloseIf(v.runs[r], now));
      }
    }
  }

  lemma BeginReconcileSound(c: Tables, scope: Scope, now: Time, sb: Time)
    requires Closing?(c, scope)
    ensures Sound(c, Transaction(Reconciling(scope, sb), {}, NO_WRITES), now, sb)
  {
  }

  lemma ListStaleSound(c: Tables, t: Transaction, now: Time, sb: Time)
    requires Sound(c, t, now, sb) && t.phase.Reconciling?
    ensures Sound(c, ListStaleRuns(c, t, sb), now, sb)
  {
    var t' := ListStaleRuns(c, t, sb);
    assert Seen(c, t') == Seen(c, t);
    forall r | r in t'.writes.runs
      ensures RunWriteSound(c, t'.phase, r, t'.writes.runs[r])
    {
      assert RunWriteSound(c, t.phase, r, t.writes.runs[r]);
    }
  }

  lemma ReapListedSound(c: Tables, t: Transaction, r: RunId, now: Time, sb: Time)
    requires RowsSound(c, now) && Sound(c, t, now, sb) && t.phase.Reaping? && r in Seen(c, t).runs
    ensures Sound(c, ReapListedRun(c, t, r, now), now, sb)
  {
    ReapRunWrites(c, t, r, t.phase.cutoff, now);
    var t1, t' := ReapRun(c, t, r, t.phase.cutoff, now), ReapListedRun(c, t, r, now);
    assert Seen(c, t') == Seen(c, t1);
    forall r2 | r2 in t'.writes.runs
      ensures RunWriteSound(c, t'.phase, r2, t'.writes.runs[r2])
    {
      assert RunWriteSound(c, t1.phase, r2, t1.writes.runs[r2]);
    }
  }

  /** Runs that neither the reaping cutoff caught nor the live check sees. */
  lemma GapLiesBetweenCutoffs(c: Tables, t: Transaction, sb: Time)
    requires PhaseSound(c, t, sb) && t.phase.Reaping? && t.phase.todo == {} && Blocking(c, t, sb) == {}
    ensures forall r :: r in LiveRuns(Seen(c, t), t.phase.scope) ==>
              t.phase.cutoff <= Seen(c, t).runs[r].heartbeatAt < sb
  {
    forall r | r in LiveRuns(Seen(c, t), t.phase.scope) ensures t.phase.cutoff <= Seen(c, t).runs[r].heartbeatAt < sb {
      assert r !in Blocking(c, t, sb);
    }
  }

  lemma JudgeSound(c: Tables, t: Transaction, now: Time, sb: Time)
    requires Sound(c, t, now, sb) && t.phase.Reaping? && t.phase.todo == {} && Blocking(c, t, sb) == {}
    ensures Sound(c, Judge(c, t, sb), now, sb)
  {
    var t' := Judge(c, t, sb);
    assert Seen(c, t') == Seen(c, t);
    GapLiesBetweenCutoffs(c, t, sb);
    forall r | r in t'.writes.runs
      ensures RunWriteSound(c, t'.phase, r, t'.writes.runs[r])
    {
      assert RunWriteSound(c, t.phase, r, t.writes.runs[r]);
    }
  }

  lemma CloseExecutionRowSound(c: Tables, t: Transaction, e: ExecutionId, now: Time, sb: Time)
    requires Sound(c, t, now, sb) && (t.phase.Judged? || t.phase.Closed?) && e in Seen(c, t).executions
    ensures Sound(c, CloseExecutionRow(c, t, e, now), now, sb)
  {
    assert Seen(c, CloseExecutionRow(c, t, e, now)).runs == Seen(c, t).runs;
  }

  lemma CloseScopeSound(c: Tables, t: Transaction, now: Time, sb: Time)
    requires RowsSound(c, now) && Sound(c, t, now, sb) && t.phase.Judged? && ScopeExists(Seen(c, t), t.phase.scope)
    ensures Sound(c, CloseScopeRow(c, t, now), now, sb)
  {
    var t1 := t.(phase := Closed(t.phase.scope, t.phase.cutoff, t.phase.liveCutoff, t.phase.gap));
    assert Seen(c, t1) == Seen(c, t);
    assert WritesSound(c, t1, now) by {
      forall r | r in t1.writes.runs
        ensures RunWriteSound(c, t1.phase, r, t1.writes.runs[r])
      {
        assert RunWriteSound(c, t.phase, r, t.writes.runs[r]);
      }
    }
    match t.phase.scope
    case OfExecution(e) => CloseExecutionRowSound(c, t1, e, now, sb);
    case OfThread(k) =>
      var s := Seen(c, t).threads[k];
      assert k in c.threads && ThreadGrows(c, k, s);
      assert ThreadGrows(c, k, MarkClosed(s, now));
      assert Seen(c, CloseScopeRow(c, t, now)).runs == Seen(c, t).runs;
  }

  /** A sound statement of `p`, touching only rows it may lock, disturbs no one else. */
  lemma OwnStatementKeeps(w: World, p: Pod, t: Transaction)
    requires Inv(w)
    requires forall row :: row in t.locked && (p in w.transactions ==> row !in w.transactions[p].locked)
               ==> Free(w, p, row)
    requires Sound(w.committed, t, w.now, w.now - w.closeStale)
    ensures Inv(Put(w, p, t))
  {
    var w' := Put(w, p, t);
    forall q | q in w'.transactions ensures SoundIn(w', q) {
      if q != p { assert SoundIn(w, q); }
    }
    forall q | q in w'.transactions && q != p ensures Disjoint(t, w.transactions[q]) {
      forall row | row in t.locked ensures row !in w.transactions[q].locked {
        if p !in w.transactions || row !in w.transactions[p].locked {
          assert Free(w, p, row);
        } else {
          assert Disjoint(w.transactions[p], w.transactions[q]);
        }
      }
    }
  }

  // ------------------------------------------------------------------ bystanders

  /**
   How the committed tables may move under a transaction `q` that did not cause the
   move: its locked rows stand still, the rest moves forward, and a run that appears
   belongs to a scope that is open and that `q` has not locked.
   */
  ghost predicate MovesAround(c: Tables, c': Tables, q: Transaction) {
    && (forall e :: e in c.executions ==>
          e in c'.executions && Grows(c.executions[e], c'.executions[e])
          && (ExecutionRow(e) in q.locked ==> c'.executions[e] == c.executions[e]))
    && (forall k :: k in c.threads ==> k in c'.threads)
    && (forall k :: k in c'.threads ==>
          ThreadGrows(c, k, c'.threads[k])
          && (ThreadRow(k) in q.locked ==> k in c.threads && c'.threads[k] == c.threads[k]))
    && (forall r :: r in c.runs ==>
          r in c'.runs && Evolves(c.runs[r], c'.runs[r])
          && (RunRow(r) in q.locked ==> c'.runs[r] == c.runs[r]))
    && (forall r :: r in c'.runs && r !in c.runs ==> RunRow(r) !in q.locked && ArrivesOpen(c, c'.runs[r], q))
  }

  ghost predicate ArrivesOpen(c: Tables, run: Run, q: Transaction) {
    && ExecutionRow(run.execution) !in q.locked
    && !Closing?(c, OfExecution(run.execution))
    && (run.thread.Some? ==>
          ThreadRow(run.thread.value) !in q.locked && !Closing?(c, OfThread(run.thread.value)))
  }

  lemma BystanderWritesKeep(c: Tables, c': Tables, t: Transaction, now: Time)
    requires MovesAround(c, c', t) && WritesSound(c, t, now)
    ensures WritesSound(c', t, now)
  {
    forall r | r in t.writes.runs
      ensures RunRow(r) in t.locked && RunWriteSound(c', t.phase, r, t.writes.runs[r])
    {
      assert RunWriteSound(c, t.phase, r, t.writes.runs[r]);
    }
    forall k | k in t.writes.threads
      ensures ThreadRow(k) in t.locked && ThreadGrows(c', k, t.writes.threads[k])
    {
      if k in c'.threads { assert c'.threads[k] == c.threads[k]; }
    }
  }

  /** Live runs of a closing scope, as a bystander sees them, only shrink and only beat forward. */
  lemma BystanderScopeShrinks(c: Tables, c': Tables, t: Transaction, now: Time, scope: Scope)
    requires MovesAround(c, c', t) && WritesSound(c, t, now) && Closing?(c, scope)
    ensures Closing?(c', scope)
    ensures LiveRuns(Seen(c', t), scope) <= LiveRuns(Seen(c, t), scope)
    ensures forall r :: r in LiveRuns(Seen(c', t), scope) ==>
              Seen(c, t).runs[r].heartbeatAt <= Seen(c', t).runs[r].heartbeatAt
  {
    var v, v' := Seen(c, t), Seen(c', t);
    forall r | r in LiveRuns(v', scope)
      ensures r in LiveRuns(v, scope) && v.runs[r].heartbeatAt <= v'.runs[r].heartbeatAt
    {
      if r !in t.writes.runs && r !in c.runs { assert false; }
    }
  }

  /** A claim keeps its locks, its open rows, and whatever absence of rivals it has seen. */
  lemma BystanderClaimKeeps(c: Tables, c': Tables, t: Transaction, now: Time, e: ExecutionId, k: Option<ThreadKey>)
    requires MovesAround(c, c', t) && WritesSound(c, t, now) && Holds(c, t, e, k)
    ensures Holds(c', t, e, k)
    ensures forall r :: r in Seen(c', t).runs && Live(Seen(c', t).runs[r]) && InClaim(Seen(c', t).runs[r], e, k)
              ==> r in Seen(c, t).runs && Live(Seen(c, t).runs[r]) && InClaim(Seen(c, t).runs[r], e, k)
  {
    var v, v' := Seen(c, t), Seen(c', t);
    forall r | r in v'.runs && Live(v'.runs[r]) && InClaim(v'.runs[r], e, k)
      ensures r in v.runs && Live(v.runs[r]) && InClaim(v.runs[r], e, k)
    {
      if r !in t.writes.runs && r !in c.runs { assert false; }
    }
  }

  lemma BystanderKeeps(c: Tables, c': Tables, t: Transaction, now: Time, sb: Time)
    requires MovesAround(c, c', t) && Sound(c, t, now, sb)
    ensures Sound(c', t, now, sb)
  {
    BystanderWritesKeep(c, c', t, now);
    match t.phase
    case Claiming(e, _) => BystanderClaimKeeps(c, c', t, now, e, None);
    case Claimable(e, k) => BystanderClaimKeeps(c, c', t, now, e, k);
    case Unopposed(e, k) => BystanderClaimKeeps(c, c', t, now, e, k);
    case Inserted(e, k, r) => BystanderClaimKeeps(c, c', t, now, e, k);
    case CloseFlagged(_) =>
    case CloseMarked(_) =>
    case Reconciling(scope, _) => BystanderScopeShrinks(c, c', t, now, scope);
    case Reaping(scope, cutoff, todo) => BystanderScopeShrinks(c, c', t, now, scope);
    case Judged(scope, _, _, gap) => BystanderScopeShrinks(c, c', t, now, scope);
    case Closed(scope, _, _, gap) => BystanderScopeShrinks(c, c', t, now, scope);
  }

  // ------------------------------------------------------------------ commits

  lemma CommitMovesSessionsAround(c: Tables, p: Transaction, q: Transaction, now: Time)
    requires RowsSound(c, now) && WritesSound(c, p, now) && Disjoint(p, q)
    ensures forall e :: e in c.executions ==>
              e in Seen(c, p).executions && Grows(c.executions[e], Seen(c, p).executions[e])
              && (ExecutionRow(e) in q.locked ==> Seen(c, p).executions[e] == c.executions[e])
    ensures forall k :: k in Seen(c, p).threads ==>
              ThreadGrows(c, k, Seen(c, p).threads[k])
              && (ThreadRow(k) in q.locked ==> k in c.threads && Seen(c, p).threads[k] == c.threads[k])
  {
  }

  lemma CommitMovesRunsAround(c: Tables, p: Transaction, q: Transaction, now: Time, sb: Time)
    requires Sound(c, p, now, sb) && Disjoint(p, q)
    ensures forall r :: r in c.runs ==>
              r in Seen(c, p).runs && Evolves(c.runs[r], Seen(c, p).runs[r])
              && (RunRow(r) in q.locked ==> Seen(c, p).runs[r] == c.runs[r])
    ensures forall r :: r in Seen(c, p).runs && r !in c.runs ==>
              RunRow(r) !in q.locked && ArrivesOpen(c, Seen(c, p).runs[r], q)
  {
    var c' := Seen(c, p);
    forall r | r in c.runs ensures Evolves(c.runs[r], c'.runs[r]) {
      if r in p.writes.runs { assert RunWriteSound(c, p.phase, r, p.writes.runs[r]); }
    }
    forall r | r in c'.runs && r !in c.runs ensures RunRow(r) !in q.locked && ArrivesOpen(c, c'.runs[r], q) {
      assert RunWriteSound(c, p.phase, r, p.writes.runs[r]);
      assert Holds(c, p, c'.runs[r].execution, p.phase.thread);
    }
  }

  /** A commit moves the tables around every other transaction. */
  lemma CommitMovesAround(c: Tables, p: Transaction, q: Transaction, now: Time, sb: Time)
    requires RowsSound(c, now) && Sound(c, p, now, sb) && Disjoint(p, q)
    ensures MovesAround(c, Seen(c, p), q)
  {
    CommitMovesSessionsAround(c, p, q, now);
    CommitMovesRunsAround(c, p, q, now, sb);
  }

  lemma CommitKeepsUnique(c: Tables, t: Transaction, now: Time, sb: Time)
    requires RowsSound(c, now) && Sound(c, t, now, sb)
    ensures UniqueLive(Seen(c, t).runs)
  {
    var v := Seen(c, t);
    forall r1, r2 | r1 in v.runs && r2 in v.runs && r1 != r2 && Live(v.runs[r1]) && Live(v.runs[r2])
      ensures !Conflict(v.runs[r1], v.runs[r2])
    {
      assert r1 in t.writes.runs ==> RunWriteSound(c, t.phase, r1, t.writes.runs[r1]);
      assert r2 in t.writes.runs ==> RunWriteSound(c, t.phase, r2, t.writes.runs[r2]);
      if r1 in c.runs && r2 in c.runs {
        assert Live(c.runs[r1]) && Live(c.runs[r2]);
      } else {
        assert t.phase.Inserted?;
      }
    }
  }

  lemma CommitKeepsRows(c: Tables, t: Transaction, now: Time, sb: Time)
    requires RowsSound(c, now) && Sound(c, t, now, sb)
    ensures RowsSound(Seen(c, t), now)
  {
    CommitKeepsUnique(c, t, now, sb);
    forall k | k in Seen(c, t).threads && Seen(c, t).threads[k].closedAt.Some?
      ensures Seen(c, t).threads[k].closeRequestedAt.Some?
    {
      if k in t.writes.threads { assert ThreadGrows(c, k, t.writes.threads[k]); }
    }
  }

  lemma CommitKeeps(w: World, p: Pod)
    requires Inv(w) && p in w.transactions
    ensures Inv(Do(w, Commit(p)))
  {
    var w' := Do(w, Commit(p));
    assert SoundIn(w, p);
    CommitKeepsRows(w.committed, w.transactions[p], w.now, w.now - w.closeStale);
    forall q | q in w'.transactions ensures SoundIn(w', q) {
      assert SoundIn(w, q);
      CommitMovesAround(w.committed, w.transactions[p], w.transactions[q], w.now, w.now - w.closeStale);
      BystanderKeeps(w.committed, w'.committed, w.transactions[q], w.now, w.now - w.closeStale);
    }
  }

  lemma RowStatementMovesAround(w: World, r: RunId, run: Run, q: Transaction)
    requires RowsSound(w.committed, w.now)
    requires r in w.committed.runs && RunRow(r) !in q.locked && Evolves(w.committed.runs[r], run)
    ensures MovesAround(w.committed, WithRun(w, r, run).committed, q)
  {
  }

  /** A single-statement transaction on one unlocked, committed run row. */
  lemma RowStatementKeeps(w: World, r: RunId, run: Run)
    requires Inv(w) && r in w.committed.runs && FreeForAll(w, RunRow(r))
    requires Evolves(w.committed.runs[r], run) && RunPast(run, w.now)
    ensures Inv(WithRun(w, r, run))
  {
    var w' := WithRun(w, r, run);
    forall q | q in w'.transactions ensures SoundIn(w', q) {
      assert SoundIn(w, q);
      RowStatementMovesAround(w, r, run, w.transactions[q]);
      BystanderKeeps(w.committed, w'.committed, w.transactions[q], w.now, w.now - w.closeStale);
    }
  }

  lemma LaterStillSound(c: Tables, t: Transaction, now: Time, sb: Time, later: nat)
    requires Sound(c, t, now, sb)
    ensures Sound(c, t, now + later, sb + later)
  {
  }

  lemma LaterStillSoundIn(w: World, d: nat, p: Pod)
    requires p in w.transactions && SoundIn(w, p)
    ensures SoundIn(w.(now := w.now + d), p)
  {
    LaterStillSound(w.committed, w.transactions[p], w.now, w.now - w.closeStale, d);
  }

  lemma TickKeeps(w: World, d: nat, w': World)
    requires Inv(w) && w' == w.(now := w.now + d)
    ensures Inv(w')
  {
    forall p | p in w'.transactions ensures SoundIn(w', p) {
      LaterStillSoundIn(w, d, p);
    }
  }

  // ------------------------------------------------------------------ every action

  lemma BeginClaimKeeps(w: World, p: Pod, e: ExecutionId, k: Option<ThreadKey>, w': World)
    requires Inv(w) && Enabled(w, BeginClaim(p, e, k)) && w' == Do(w, BeginClaim(p, e, k))
    ensures Inv(w')
  {
    OwnStatementKeeps(w, p, Transaction(Claiming(e, k), {ExecutionRow(e)}, NO_WRITES));
  }

  lemma LockThreadKeeps(w: World, p: Pod, w': World)
    requires Inv(w) && Enabled(w, LockThread(p)) && w' == Do(w, LockThread(p))
    ensures Inv(w')
  {
    assert SoundIn(w, p);
    LockThreadSound(w.committed, w.transactions[p], w.now, w.now - w.closeStale);
    OwnStatementKeeps(w, p, LockThreadRow(w.committed, w.transactions[p]));
  }

  lemma ReapForClaimKeeps(w: World, p: Pod, r: RunId, cutoff: Time, w': World)
    requires Inv(w) && Enabled(w, ReapForClaim(p, r, cutoff)) && w' == Do(w, ReapForClaim(p, r, cutoff))
    ensures Inv(w')
  {
    assert SoundIn(w, p);
    ReapForClaimSound(w.committed, w.transactions[p], r, cutoff, w.now, w.now - w.closeStale);
    OwnStatementKeeps(w, p, ReapRun(w.committed, w.transactions[p], r, cutoff, w.now));
  }

  lemma CheckConflictKeeps(w: World, p: Pod, w': World)
    requires Inv(w) && Enabled(w, CheckConflict(p)) && w' == Do(w, CheckConflict(p))
    ensures Inv(w')
  {
    assert SoundIn(w, p);
    var t := w.transactions[p];
    CheckConflictSound(w.committed, t, w.now, w.now - w.closeStale);
    OwnStatementKeeps(w, p, t.(phase := Unopposed(t.phase.execution, t.phase.thread)));
  }

  lemma InsertRunKeeps(w: World, p: Pod, r: RunId, w': World)
    requires Inv(w) && Enabled(w, InsertRun(p, r)) && w' == Do(w, InsertRun(p, r))
    ensures Inv(w')
  {
    assert SoundIn(w, p);
    AddRunSound(w.committed, w.transactions[p], r, w.now, w.now - w.closeStale);
    OwnStatementKeeps(w, p, AddRun(w.transactions[p], r, w.now));
  }

  lemma BeginCloseKeeps(w: World, p: Pod, scope: Scope, w': World)
    requires Inv(w) && Enabled(w, BeginClose(p, scope)) && w' == Do(w, BeginClose(p, scope))
    ensures Inv(w')
  {
    OwnStatementKeeps(w, p, FlagClose(w.committed, scope, w.now));
  }

  lemma MarkRunsClosingKeeps(w: World, p: Pod, w': World)
    requires Inv(w) && Enabled(w, MarkRunsClosing(p)) && w' == Do(w, MarkRunsClosing(p))
    ensures Inv(w')
  {
    assert SoundIn(w, p);
    MarkClosingSound(w.committed, w.transactions[p], w.now, w.now - w.closeStale);
    OwnStatementKeeps(w, p, MarkClosing(w.committed, w.transactions[p], w.now));
  }

  lemma BeginReconcileKeeps(w: World, p: Pod, scope: Scope, w': World)
    requires Inv(w) && p !in w.transactions && Closing?(w.committed, scope)
    requires w' == Put(w, p, Transaction(Reconciling(scope, w.now - w.closeStale), {}, NO_WRITES))
    ensures Inv(w')
  {
    BeginReconcileSound(w.committed, scope, w.now, w.now - w.closeStale);
    OwnStatementKeeps(w, p, Transaction(Reconciling(scope, w.now - w.closeStale), {}, NO_WRITES));
  }

  lemma ListStaleSoundIn(w: World, p: Pod)
    requires p in w.transactions && w.transactions[p].phase.Reconciling? && SoundIn(w, p)
    ensures Sound(w.committed, ListStaleRuns(w.committed, w.transactions[p], w.now - w.closeStale), w.now,
                  w.now - w.closeStale)
  {
    ListStaleSound(w.committed, w.transactions[p], w.now, w.now - w.closeStale);
  }

  lemma ListStaleKeeps(w: World, p: Pod, w': World)
    requires Inv(w) && p in w.transactions && w.transactions[p].phase.Reconciling?
    requires w' == Put(w, p, ListStaleRuns(w.committed, w.transactions[p], w.now - w.closeStale))
    ensures Inv(w')
  {
    ListStaleSoundIn(w, p);
    OwnStatementKeeps(w, p, ListStaleRuns(w.committed, w.transactions[p], w.now - w.closeStale));
  }

  lemma ReapListedKeeps(w: World, p: Pod, r: RunId, w': World)
    requires Inv(w) && Enabled(w, ReapListed(p, r)) && w' == Do(w, ReapListed(p, r))
    ensures Inv(w')
  {
    assert SoundIn(w, p);
    ReapListedSound(w.committed, w.transactions[p], r, w.now, w.now - w.closeStale);
    OwnStatementKeeps(w, p, ReapListedRun(w.committed, w.transactions[p], r, w.now));
  }

  lemma JudgeLiveSoundIn(w: World, p: Pod)
    requires p in w.transactions && w.transactions[p].phase.Reaping? && SoundIn(w, p)
    requires w.transactions[p].phase.todo == {} && Blocking(w.committed, w.transactions[p], w.now - w.closeStale) == {}
    ensures Sound(w.committed, Judge(w.committed, w.transactions[p], w.now - w.closeStale), w.now,
                  w.now - w.closeStale)
  {
    JudgeSound(w.committed, w.transactions[p], w.now, w.now - w.closeStale);
  }

  lemma JudgeLiveKeeps(w: World, p: Pod, w': World)
    requires Inv(w) && p in w.transactions && w.transactions[p].phase.Reaping? && w.transactions[p].phase.todo == {}
    requires Blocking(w.committed, w.transactions[p], w.now - w.closeStale) == {}
    requires w' == Put(w, p, Judge(w.committed, w.transactions[p], w.now - w.closeStale))
    ensures Inv(w')
  {
    JudgeLiveSoundIn(w, p);
    OwnStatementKeeps(w, p, Judge(w.committed, w.transactions[p], w.now - w.closeStale));
  }

  lemma CloseMemberKeeps(w: World, p: Pod, e: ExecutionId, w': World)
    requires Inv(w) && Enabled(w, CloseMember(p, e)) && w' == Do(w, CloseMember(p, e))
    ensures Inv(w')
  {
    assert SoundIn(w, p);
    CloseExecutionRowSound(w.committed, w.transactions[p], e, w.now, w.now - w.closeStale);
    OwnStatementKeeps(w, p, CloseExecutionRow(w.committed, w.transactions[p], e, w.now));
  }

  lemma CloseScopeKeeps(w: World, p: Pod, w': World)
    requires Inv(w) && p in w.transactions && w.transactions[p].phase.Judged?
    requires Free(w, p, ScopeRow(w.transactions[p].phase.scope)) && ScopeExists(View(w, p), w.transactions[p].phase.scope)
    requires w' == Put(w, p, CloseScopeRow(w.committed, w.transactions[p], w.now))
    ensures Inv(w')
  {
    assert SoundIn(w, p);
    CloseScopeSound(w.committed, w.transactions[p], w.now, w.now - w.closeStale);
    OwnStatementKeeps(w, p, CloseScopeRow(w.committed, w.transactions[p], w.now));
  }

  lemma RollbackKeeps(w: World, p: Pod, w': World)
    requires Inv(w) && p in w.transactions && w' == w.(transactions := w.transactions - {p})
    ensures Inv(w')
  {
    forall q | q in w'.transactions ensures SoundIn(w', q) {
      assert w'.transactions[q] == w.transactions[q] && SoundIn(w, q);
    }
  }

  lemma ClaimStepKeeps(w: World, a: Action, w': World)
    requires Inv(w) && Enabled(w, a) && w' == Do(w, a)
    requires a.BeginClaim? || a.LockThread? || a.ReapForClaim? || a.CheckConflict? || a.InsertRun?
    ensures Inv(w')
  {
    match a
    case BeginClaim(p, e, k) => BeginClaimKeeps(w, p, e, k, w');
    case LockThread(p) => LockThreadKeeps(w, p, w');
    case ReapForClaim(p, r, cutoff) => ReapForClaimKeeps(w, p, r, cutoff, w');
    case CheckConflict(p) => CheckConflictKeeps(w, p, w');
    case InsertRun(p, r) => InsertRunKeeps(w, p, r, w');
  }

  lemma CloseStepKeeps(w: World, a: Action, w': World)
    requires Inv(w) && Enabled(w, a) && w' == Do(w, a)
    requires a.BeginClose? || a.MarkRunsClosing? || a.CloseMember? || a.CloseScope?
    ensures Inv(w')
  {
    match a
    case BeginClose(p, scope) => BeginCloseKeeps(w, p, scope, w');
    case MarkRunsClosing(p) => MarkRunsClosingKeeps(w, p, w');
    case CloseMember(p, e) => CloseMemberKeeps(w, p, e, w');
    case CloseScope(p) => CloseScopeKeeps(w, p, w');
  }

  lemma BeginReconcileIs(w: World, p: Pod, scope: Scope)
    requires Enabled(w, BeginReconcile(p, scope))
    ensures p !in w.transactions && Closing?(w.committed, scope)
    ensures Do(w, BeginReconcile(p, scope))
            == Put(w, p, Transaction(Reconciling(scope, w.now - w.closeStale), {}, NO_WRITES))
  {
  }

  lemma ListStaleIs(w: World, p: Pod)
    requires Enabled(w, ListStale(p))
    ensures p in w.transactions && w.transactions[p].phase.Reconciling?
    ensures Do(w, ListStale(p)) == Put(w, p, ListStaleRuns(w.committed, w.transactions[p], w.now - w.closeStale))
  {
  }

  lemma JudgeLiveIs(w: World, p: Pod)
    requires Enabled(w, JudgeLive(p))
    ensures p in w.transactions && w.transactions[p].phase.Reaping? && w.transactions[p].phase.todo == {}
    ensures Blocking(w.committed, w.transactions[p], w.now - w.closeStale) == {}
    ensures Do(w, JudgeLive(p)) == Put(w, p, Judge(w.committed, w.transactions[p], w.now - w.closeStale))
  {
  }

  lemma ImmediateStepKeeps(w: World, a: Action, w': World)
    requires Inv(w) && Enabled(w, a) && w' == Do(w, a)
    requires a.Tick? || a.Commit? || a.Rollback? || a.Heartbeat? || a.FinishOwn?
    ensures Inv(w')
  {
    match a
    case Tick(d) => TickKeeps(w, d, w');
    case Commit(p) => CommitKeeps(w, p);
    case Rollback(p) => RollbackKeeps(w, p, w');
    case Heartbeat(r, at) => RowStatementKeeps(w, r, BeatIf(w.committed.runs[r], at));
    case FinishOwn(r, status) => RowStatementKeeps(w, r, FinishIf(w.committed.runs[r], status, w.now, None));
  }

  /** Every step of every actor keeps the invariant. */
  lemma StepKeeps(w: World, a: Action, w': World)
    requires Inv(w) && Enabled(w, a) && w' == Do(w, a)
    ensures Inv(w')
  {
    if a.BeginClaim? || a.LockThread? || a.ReapForClaim? || a.CheckConflict? || a.InsertRun? {
      ClaimStepKeeps(w, a, w');
    } else if a.BeginClose? || a.MarkRunsClosing? || a.CloseMember? || a.CloseScope? {
      CloseStepKeeps(w, a, w');
    } else if a.Tick? || a.Commit? || a.Rollback? || a.Heartbeat? || a.FinishOwn? {
      ImmediateStepKeeps(w, a, w');
    } else if a.ReapListed? {
      ReapListedKeeps(w, a.pod, a.run, w');
    } else if a.BeginReconcile? {
      BeginReconcileIs(w, a.pod, a.scope);
      BeginReconcileKeeps(w, a.pod, a.scope, w');
    } else if a.ListStale? {
      ListStaleIs(w, a.pod);
      ListStaleKeeps(w, a.pod, w');
    } else {
      JudgeLiveIs(w, a.pod);
      JudgeLiveKeeps(w, a.pod, w');
    }
  }

  lemma {:induction false} RunKeeps(w: World, actions: seq<Action>)
    requires Inv(w) && Possible(w, actions)
    ensures Inv(After(w, actions))
    decreases |actions|
  {
    if actions != [] {
      StepKeeps(w, actions[0], Do(w, actions[0]));
      RunKeeps(Do(w, actions[0]), actions[1..]);
    }
  }
}
