/**
 What each statement of the session protocol writes, field by field: the row it changes, the
 value it gives it, and that all else stands. And, from the heartbeats alone, that a run
 whose worker keeps beating is never taken away.
 */
module SessionSteps {
  import opened Common
  import opened RunTables
  import opened SessionProtocol
  import opened SessionInvariant
  import opened SessionSafety

  // ------------------------------------------------------------------ statements outside transactions

  /** A heartbeat moves the time of its own live run and nothing else. */
  lemma HeartbeatMovesItsRun(w: World, r: RunId, at: Time)
    requires Enabled(w, Heartbeat(r, at))
    ensures var w', run := Do(w, Heartbeat(r, at)), w.committed.runs[r];
            && w'.committed.runs == (if run.status in {Active, Closing} && run.finishedAt == None
                                     then w.committed.runs[r := run.(heartbeatAt := at)] else w.committed.runs)
            && w'.committed.executions == w.committed.executions && w'.committed.threads == w.committed.threads
            && w'.transactions == w.transactions && w'.now == w.now
  {
    assert w.committed.runs[r := w.committed.runs[r]] == w.committed.runs;
  }

  /** A worker's finish gives an unfinished run its status and time, once. */
  lemma FinishRecordsStatus(w: World, r: RunId, status: RunStatus)
    requires Enabled(w, FinishOwn(r, status))
    ensures var w', run := Do(w, FinishOwn(r, status)), w.committed.runs[r];
            && w'.committed.runs == (if run.finishedAt == None
                                     then w.committed.runs[r := run.(status := status, finishedAt := Some(w.now))]
                                     else w.committed.runs)
            && w'.committed.executions == w.committed.executions && w'.committed.threads == w.committed.threads
            && w'.transactions == w.transactions && w'.now == w.now
  {
    assert w.committed.runs[r := w.committed.runs[r]] == w.committed.runs;
  }

  /** A commit publishes the transaction's rows over the committed ones. */
  lemma CommitPublishes(w: World, p: Pod)
    requires Enabled(w, Commit(p))
    ensures var c', t := Do(w, Commit(p)).committed, w.transactions[p];
            && (forall r :: r in c'.runs <==> r in w.committed.runs || r in t.writes.runs)
            && (forall r :: r in c'.runs ==> c'.runs[r] == if r in t.writes.runs then t.writes.runs[r] else w.committed.runs[r])
            && (forall e :: e in c'.executions ==>
                  c'.executions[e] == if e in t.writes.executions then t.writes.executions[e] else w.committed.executions[e])
            && (forall k :: k in c'.threads ==>
                  c'.threads[k] == if k in t.writes.threads then t.writes.threads[k] else w.committed.threads[k])
            && p !in Do(w, Commit(p)).transactions
  {
  }

  // ------------------------------------------------------------------ statements of a transaction

  /** A claim's insert adds one active run, started now, and writes nothing else. */
  lemma InsertAddsTheRun(w: World, p: Pod, r: RunId)
    requires Enabled(w, InsertRun(p, r))
    ensures var v, v', phase := View(w, p), View(Do(w, InsertRun(p, r)), p), w.transactions[p].phase;
            && v'.runs == v.runs[r := Run(phase.execution, phase.thread, Active, w.now, None, w.now, None)]
            && v'.executions == v.executions && v'.threads == v.threads
  {
  }

  /** A close request stamps a session that has no close column yet, and leaves any other as it is. */
  lemma CloseRequestStamps(w: World, p: Pod, scope: Scope)
    requires Enabled(w, BeginClose(p, scope))
    ensures var c, v := w.committed, View(Do(w, BeginClose(p, scope)), p);
            && v.runs == c.runs
            && (scope.OfExecution? ==>
                  var s := c.executions[scope.execution];
                  && v.threads == c.threads
                  && v.executions == c.executions[scope.execution :=
                       if s.closeRequestedAt == None && s.closedAt == None then s.(closeRequestedAt := Some(w.now)) else s])
            && (scope.OfThread? ==>
                  var s := if scope.thread in c.threads then c.threads[scope.thread] else Session(None, None);
                  && v.executions == c.executions
                  && v.threads == c.threads[scope.thread :=
                       if s.closeRequestedAt == None && s.closedAt == None then s.(closeRequestedAt := Some(w.now)) else s])
  {
  }

  /** Marking a closing scope turns each of its active unfinished runs to closing, stamped, and touches no other run. */
  lemma CloseMarksRuns(w: World, p: Pod)
    requires Enabled(w, MarkRunsClosing(p))
    ensures var v, v', scope := View(w, p), View(Do(w, MarkRunsClosing(p)), p), w.transactions[p].phase.scope;
            && v'.runs.Keys == v.runs.Keys
            && (forall r :: r in v.runs ==>
                  v'.runs[r] == if InScope(v.runs[r], scope) && v.runs[r].status == Active && v.runs[r].finishedAt == None
                                then v.runs[r].(status := RunStatus.Closing, closeRequestedAt := Some(w.now)) else v.runs[r])
            && v'.executions == v.executions && v'.threads == v.threads
  {
  }

  /** A finalizer's listing holds exactly the scope's live runs older than the bound. */
  lemma ListingIsExact(w: World, p: Pod, r: RunId)
    requires Enabled(w, ListStale(p))
    ensures var v, phase, phase' := View(w, p), w.transactions[p].phase, Do(w, ListStale(p)).transactions[p].phase;
            && phase'.Reaping? && phase'.scope == phase.scope && phase'.cutoff == phase.cutoff
            && (r in phase'.todo <==>
                r in v.runs && InScope(v.runs[r], phase.scope) && v.runs[r].status in {Active, RunStatus.Closing}
                && v.runs[r].finishedAt == None && v.runs[r].heartbeatAt < w.now - w.closeStale)
  {
  }

  /** What a conditional reap leaves of a run. */
  lemma ReapedRow(c: Tables, t: Transaction, r: RunId, cutoff: Time, now: Time)
    requires r in Seen(c, t).runs
    ensures var run, v' := Seen(c, t).runs[r], Seen(c, ReapRun(c, t, r, cutoff, now));
            && v'.runs == Seen(c, t).runs[r := if run.finishedAt == None && run.heartbeatAt < cutoff
                                               then run.(status := Failed, finishedAt := Some(now)) else run]
            && v'.executions == Seen(c, t).executions && v'.threads == Seen(c, t).threads
  {
  }

  /** Reaping for a claim fails the unfinished run whose heartbeat is below the cutoff, and no other row. */
  lemma ClaimReapsTheStale(w: World, p: Pod, r: RunId, cutoff: Time)
    requires Enabled(w, ReapForClaim(p, r, cutoff))
    ensures var v, v', run := View(w, p), View(Do(w, ReapForClaim(p, r, cutoff)), p), View(w, p).runs[r];
            && v'.runs == v.runs[r := if run.finishedAt == None && run.heartbeatAt < cutoff
                                      then run.(status := Failed, finishedAt := Some(w.now)) else run]
            && v'.executions == v.executions && v'.threads == v.threads
  {
    ReapedRow(w.committed, w.transactions[p], r, cutoff, w.now);
  }

  /** Reaping for a close does the same by the finalizer's cutoff, and takes the run off its list. */
  lemma CloseReapsTheStale(w: World, p: Pod, r: RunId)
    requires Enabled(w, ReapListed(p, r))
    ensures var phase, w' := w.transactions[p].phase, Do(w, ReapListed(p, r));
            var v, v', run := View(w, p), View(w', p), View(w, p).runs[r];
            && v'.runs == v.runs[r := if run.finishedAt == None && run.heartbeatAt < phase.cutoff
                                      then run.(status := Failed, finishedAt := Some(w.now)) else run]
            && v'.executions == v.executions && v'.threads == v.threads
            && w'.transactions[p].phase == phase.(todo := phase.todo - {r})
  {
    ReapedRow(w.committed, w.transactions[p], r, w.transactions[p].phase.cutoff, w.now);
  }

  /** A reconciliation reaps by the bound as of its first reading of the clock. */
  lemma ReconcileReadsTheClock(w: World, p: Pod, scope: Scope)
    requires Enabled(w, BeginReconcile(p, scope))
    ensures Do(w, BeginReconcile(p, scope)).transactions[p].phase == Reconciling(scope, w.now - w.closeStale)
  {
  }

  /** Locking a thread's row creates an open one where there is none and changes none that is there. */
  lemma LockCreatesTheThread(w: World, p: Pod)
    requires Enabled(w, LockThread(p)) && w.transactions[p].writes == NO_WRITES
    ensures var v', k := View(Do(w, LockThread(p)), p), w.transactions[p].phase.thread;
            && v'.runs == w.committed.runs && v'.executions == w.committed.executions
            && v'.threads == if k == None || k.value in w.committed.threads then w.committed.threads
                             else w.committed.threads[k.value := Session(None, None)]
  {
  }

  /** Closing an execution writes its close time, whatever was there. */
  lemma ExecutionCloseWritesTheTime(w: World, p: Pod)
    requires Enabled(w, CloseScope(p)) && w.transactions[p].phase.scope.OfExecution?
    ensures var v, v', e := View(w, p), View(Do(w, CloseScope(p)), p), w.transactions[p].phase.scope.execution;
            && v'.runs == v.runs && v'.threads == v.threads
            && v'.executions == v.executions[e := v.executions[e].(closedAt := Some(w.now))]
  {
  }

  /** Closing a thread writes its close time once. */
  lemma ThreadCloseWritesTheTime(w: World, p: Pod)
    requires Enabled(w, CloseScope(p)) && w.transactions[p].phase.scope.OfThread?
    ensures var v, v', k := View(w, p), View(Do(w, CloseScope(p)), p), w.transactions[p].phase.scope.thread;
            && v'.runs == v.runs && v'.executions == v.executions
            && v'.threads == v.threads[k := if v.threads[k].closedAt == None then v.threads[k].(closedAt := Some(w.now))
                                            else v.threads[k]]
  {
  }

  /** A member execution of a closing thread gets the close time, and nothing else changes. */
  lemma MemberCloseWritesTheTime(w: World, p: Pod, e: ExecutionId)
    requires Enabled(w, CloseMember(p, e))
    ensures var v, v' := View(w, p), View(Do(w, CloseMember(p, e)), p);
            && v'.executions == v.executions[e := v.executions[e].(closedAt := Some(w.now))]
            && v'.threads == v.threads && v'.runs == v.runs
  {
  }

  // ------------------------------------------------------------------ keeping a run by beating

  /**
   The clock never gets further than `bound` past the run's last heartbeat: read off the
   actions alone, from the time of the first state and the last heartbeat before it.
   */
  predicate BeatsOnTime(now: Time, last: Time, actions: seq<Action>, r: RunId, bound: int)
    decreases |actions|
  {
    && now <= last + bound
    && (actions == [] ||
        match actions[0]
        case Tick(elapsed) => BeatsOnTime(now + elapsed, last, actions[1..], r, bound)
        case Heartbeat(run, at) => BeatsOnTime(now, if run == r then at else last, actions[1..], r, bound)
        case _ => BeatsOnTime(now, last, actions[1..], r, bound))
  }

  lemma OnlyTicksMoveTheClock(w: World, a: Action)
    requires Enabled(w, a)
    ensures Do(w, a).now == w.now + (if a.Tick? then a.elapsed else 0)
    ensures Do(w, a).claimStale == w.claimStale && Do(w, a).closeStale == w.closeStale
  {
  }

  /** Beating keeps a run fresh at every state of the run of actions. */
  lemma {:induction false} BeatingKeepsFresh(w: World, last: Time, actions: seq<Action>, r: RunId)
    requires Inv(w) && Possible(w, actions) && Unreaped(w, r) && last <= w.committed.runs[r].heartbeatAt
    requires BeatsOnTime(w.now, last, actions, r, Min(w.claimStale, w.closeStale))
    requires forall a :: a in actions ==> !(a.FinishOwn? && a.run == r)
    ensures FreshThroughout(w, actions, r)
    decreases |actions|
  {
    if actions != [] {
      var a, w1 := actions[0], Do(w, actions[0]);
      assert a in actions && forall b :: b in actions[1..] ==> b in actions;
      FreshStepLeavesUnreaped(w, a, r);
      StepKeeps(w, a, w1);
      OnlyTicksMoveTheClock(w, a);
      HeartbeatAdvances(w, a, r);
      var last' := if a.Heartbeat? && a.run == r then a.at else last;
      BeatingKeepsFresh(w1, last', actions[1..], r);
    }
  }

  /** Its own heartbeat sets the run's time; no other step sets it back. */
  lemma HeartbeatAdvances(w: World, a: Action, r: RunId)
    requires Inv(w) && Enabled(w, a) && Unreaped(w, r) && r in Do(w, a).committed.runs
    ensures Do(w, a).committed.runs[r].heartbeatAt >= w.committed.runs[r].heartbeatAt
    ensures a.Heartbeat? && a.run == r ==> Do(w, a).committed.runs[r].heartbeatAt == a.at
  {
    StepForward(w, a);
    if a.Heartbeat? && a.run == r {
      assert RunPast(w.committed.runs[r], w.now);
      HeartbeatMovesItsRun(w, r, a.at);
    }
  }

  /**
   A run that beats at gaps no longer than both staleness bounds is never taken from its
   worker, whatever every other pod does meanwhile.
   */
  lemma BeatingRunIsNeverReaped(w: World, actions: seq<Action>, r: RunId)
    requires Inv(w) && Possible(w, actions) && Unreaped(w, r)
    requires BeatsOnTime(w.now, w.committed.runs[r].heartbeatAt, actions, r, Min(w.claimStale, w.closeStale))
    requires forall a :: a in actions ==> !(a.FinishOwn? && a.run == r)
    ensures Unreaped(After(w, actions), r) && Live(After(w, actions).committed.runs[r])
  {
    BeatingKeepsFresh(w, w.committed.runs[r].heartbeatAt, actions, r);
    FreshRunIsNeverReaped(w, actions, r);
  }
}
