/**
 When a close is final. Over whole runs: with one clock reading per finalizer a closed
 scope has no unfinished run, ever after; with two, exactly the overlooked runs survive.
 And when a close timestamp is written a second time.
 */
module SessionFinality {
  import opened Common
  import opened RunTables
  import opened SessionProtocol
  import opened SessionInvariant
  import opened SessionSafety

  // ------------------------------------------------------------------ one clock reading

  /** All runs of the scope are finished. */
  ghost predicate Quiet(c: Tables, scope: Scope) {
    forall r :: r in c.runs && InScope(c.runs[r], scope) ==> c.runs[r].finishedAt.Some?
  }

  predicate SameCutoff(phase: Phase) {
    phase.Judged? || phase.Closed? ==> phase.cutoff == phase.liveCutoff
  }

  ghost predicate SameCutoffs(w: World) {
    forall p :: p in w.transactions ==> SameCutoff(w.transactions[p].phase)
  }

  ghost predicate Judges(w: World, a: Action) {
    a.JudgeLive? && a.pod in w.transactions && w.transactions[a.pod].phase.Reaping?
  }

  /** A finalizer that looks for live runs uses the cutoff it reaped by. */
  ghost predicate OneReading(w: World, a: Action) {
    Judges(w, a) ==> w.transactions[a.pod].phase.cutoff == w.now - w.closeStale
  }

  ghost predicate OneReadingRun(w: World, actions: seq<Action>)
    requires Possible(w, actions)
    decreases |actions|
  {
    actions == [] || (OneReading(w, actions[0]) && OneReadingRun(Do(w, actions[0]), actions[1..]))
  }

  /** Some step of the run commits a transaction that closed this very scope. */
  ghost predicate Finalized(w: World, actions: seq<Action>, scope: Scope)
    requires Possible(w, actions)
    decreases |actions|
  {
    actions != [] && (Finalizes(w, actions[0], scope) || Finalized(Do(w, actions[0]), actions[1..], scope))
  }

  ghost predicate Finalizes(w: World, a: Action, scope: Scope) {
    a.Commit? && a.pod in w.transactions && w.transactions[a.pod].phase.Closed? && w.transactions[a.pod].phase.scope == scope
  }

  /** A statement touches the phase of its own transaction alone. */
  lemma OthersKeepPhase(w: World, a: Action, p: Pod)
    requires Enabled(w, a) && p in w.transactions && p in Do(w, a).transactions
    ensures SameCutoff(w.transactions[p].phase) && !a.JudgeLive? ==> SameCutoff(Do(w, a).transactions[p].phase)
    ensures a.JudgeLive? && a.pod != p ==> Do(w, a).transactions[p] == w.transactions[p]
  {
  }

  lemma NewTransactionHasNoCutoffs(w: World, a: Action, p: Pod)
    requires Enabled(w, a) && p !in w.transactions && p in Do(w, a).transactions
    ensures SameCutoff(Do(w, a).transactions[p].phase)
  {
  }

  lemma StepKeepsSameCutoffs(w: World, a: Action)
    requires Inv(w) && SameCutoffs(w) && Enabled(w, a) && OneReading(w, a)
    ensures SameCutoffs(Do(w, a))
  {
    var w' := Do(w, a);
    forall p | p in w'.transactions ensures SameCutoff(w'.transactions[p].phase) {
      if p !in w.transactions {
        NewTransactionHasNoCutoffs(w, a, p);
      } else if a != JudgeLive(p) {
        OthersKeepPhase(w, a, p);
      }
    }
  }

  /** Whatever closes a scope for itself leaves all its runs finished, in every later state. */
  lemma {:induction false} FinalizedIsQuiet(w: World, actions: seq<Action>, scope: Scope)
    requires Inv(w) && SameCutoffs(w) && Possible(w, actions) && OneReadingRun(w, actions) && Finalized(w, actions, scope)
    ensures Quiet(After(w, actions).committed, scope)
    decreases |actions|
  {
    var a, w1 := actions[0], Do(w, actions[0]);
    if Finalizes(w, a, scope) {
      FinalizingCommit(w, a.pod, w1, actions[1..], scope);
    } else {
      StepKeeps(w, a, w1);
      StepKeepsSameCutoffs(w, a);
      FinalizedIsQuiet(w1, actions[1..], scope);
    }
  }

  lemma FinalizingCommit(w: World, p: Pod, w1: World, rest: seq<Action>, scope: Scope)
    requires Inv(w) && SameCutoffs(w) && p in w.transactions && w1 == Do(w, Commit(p)) && Possible(w1, rest)
    requires w.transactions[p].phase.Closed? && w.transactions[p].phase.scope == scope
    ensures Quiet(After(w1, rest).committed, scope)
  {
    assert SameCutoff(w.transactions[p].phase);
    ClosedStaysQuiet(w, p, w1, rest);
  }

  // ------------------------------------------------------------------ who closes what

  /** An uncommitted close belongs to the scope being finalized, or to a member of a thread being finalized. */
  ghost predicate ThreadCloseOwned(c: Tables, t: Transaction, k: ThreadKey) {
    NewlyClosesThread(c, t, k) ==> t.phase.Closed? && t.phase.scope == OfThread(k)
  }

  ghost predicate NewlyClosesThread(c: Tables, t: Transaction, k: ThreadKey) {
    k in t.writes.threads && t.writes.threads[k].closedAt.Some? && ThreadIn(c, k).closedAt.None?
  }

  ghost predicate ExecutionCloseOwned(c: Tables, t: Transaction, e: ExecutionId) {
    NewlyClosesExecution(c, t, e) ==> (t.phase.Closed? && t.phase.scope == OfExecution(e)) || ClosesMembers(t.phase)
  }

  ghost predicate NewlyClosesExecution(c: Tables, t: Transaction, e: ExecutionId) {
    e in t.writes.executions && t.writes.executions[e].closedAt.Some? && e in c.executions && c.executions[e].closedAt.None?
  }

  predicate ClosesMembers(phase: Phase) {
    (phase.Judged? || phase.Closed?) && phase.scope.OfThread?
  }

  ghost predicate ClosesOwned(w: World) {
    forall p :: p in w.transactions ==>
      && (forall k :: ThreadCloseOwned(w.committed, w.transactions[p], k))
      && (forall e :: ExecutionCloseOwned(w.committed, w.transactions[p], e))
  }

  /** Some step commits `e` as closed on behalf of a thread. */
  ghost predicate ClosedAsMember(w: World, actions: seq<Action>, e: ExecutionId)
    requires Possible(w, actions)
    decreases |actions|
  {
    actions != [] && (CommitsMember(w, actions[0], e) || ClosedAsMember(Do(w, actions[0]), actions[1..], e))
  }

  ghost predicate CommitsMember(w: World, a: Action, e: ExecutionId) {
    a.Commit? && a.pod in w.transactions && ClosesMembers(w.transactions[a.pod].phase)
    && e in w.transactions[a.pod].writes.executions
  }

  /** The transaction's own statements, one row at a time; the committed tables stand still. */
  lemma ThreadStatementOwned(w: World, a: Action, p: Pod, k: ThreadKey)
    requires Enabled(w, a) && p in Do(w, a).transactions && Do(w, a).committed == w.committed
    requires p in w.transactions ==> ThreadCloseOwned(w.committed, w.transactions[p], k)
    ensures ThreadCloseOwned(w.committed, Do(w, a).transactions[p], k)
  {
  }

  lemma ExecutionStatementOwned(w: World, a: Action, p: Pod, e: ExecutionId)
    requires Enabled(w, a) && p in Do(w, a).transactions && Do(w, a).committed == w.committed
    requires p in w.transactions ==> ExecutionCloseOwned(w.committed, w.transactions[p], e)
    ensures ExecutionCloseOwned(w.committed, Do(w, a).transactions[p], e)
  {
  }

  /** Another transaction's commit: what was closed stays closed, so no claim of ownership arises. */
  lemma BystanderOwned(c: Tables, c': Tables, t: Transaction, now: Time, k: ThreadKey, e: ExecutionId)
    requires Forward(c, c') && WritesSound(c, t, now)
    requires ThreadCloseOwned(c, t, k) && ExecutionCloseOwned(c, t, e)
    ensures ThreadCloseOwned(c', t, k) && ExecutionCloseOwned(c', t, e)
  {
    if k in c.threads { assert ThreadGrows(c, k, c'.threads[k]); }
    if e in c.executions { assert Grows(c.executions[e], c'.executions[e]); }
  }

  lemma StepKeepsClosesOwned(w: World, a: Action)
    requires Inv(w) && ClosesOwned(w) && Enabled(w, a)
    ensures ClosesOwned(Do(w, a))
  {
    var w' := Do(w, a);
    forall p | p in w'.transactions
      ensures forall k :: ThreadCloseOwned(w'.committed, w'.transactions[p], k)
      ensures forall e :: ExecutionCloseOwned(w'.committed, w'.transactions[p], e)
    {
      forall k ensures ThreadCloseOwned(w'.committed, w'.transactions[p], k) { CloseStaysOwned(w, a, w', p, k, 0); }
      forall e ensures ExecutionCloseOwned(w'.committed, w'.transactions[p], e) { CloseStaysOwned(w, a, w', p, 0, e); }
    }
  }

  lemma CloseStaysOwned(w: World, a: Action, w': World, p: Pod, k: ThreadKey, e: ExecutionId)
    requires Inv(w) && Enabled(w, a) && w' == Do(w, a) && p in w'.transactions
    requires p in w.transactions ==> ThreadCloseOwned(w.committed, w.transactions[p], k)
    requires p in w.transactions ==> ExecutionCloseOwned(w.committed, w.transactions[p], e)
    ensures ThreadCloseOwned(w'.committed, w'.transactions[p], k) && ExecutionCloseOwned(w'.committed, w'.transactions[p], e)
  {
    if w'.committed == w.committed {
      ThreadStatementOwned(w, a, p, k);
      ExecutionStatementOwned(w, a, p, e);
    } else {
      CommittingLeavesOthers(w, a, p);
      assert Forward(w.committed, w'.committed) by { StepForward(w, a); }
      assert WritesSound(w.committed, w.transactions[p], w.now) by { assert SoundIn(w, p); }
      BystanderOwned(w.committed, w'.committed, w.transactions[p], w.now, k, e);
    }
  }

  lemma CommittingLeavesOthers(w: World, a: Action, p: Pod)
    requires Enabled(w, a) && Do(w, a).committed != w.committed && p in Do(w, a).transactions
    ensures p in w.transactions && Do(w, a).transactions[p] == w.transactions[p]
  {
  }

  /** A thread found closed, and not so before, was finalized as such. */
  lemma {:induction false} ClosedThreadWasFinalized(w: World, actions: seq<Action>, k: ThreadKey)
    requires Inv(w) && ClosesOwned(w) && Possible(w, actions)
    requires ThreadIn(w.committed, k).closedAt.None? && ThreadIn(After(w, actions).committed, k).closedAt.Some?
    ensures Finalized(w, actions, OfThread(k))
    decreases |actions|
  {
    var a, w1 := actions[0], Do(w, actions[0]);
    if ThreadIn(w1.committed, k).closedAt.Some? {
      assert a.Commit? && ThreadCloseOwned(w.committed, w.transactions[a.pod], k);
    } else {
      StepKeeps(w, a, w1);
      StepKeepsClosesOwned(w, a);
      ClosedThreadWasFinalized(w1, actions[1..], k);
    }
  }

  /** An execution found closed was finalized itself or closed as a member of a thread. */
  lemma {:induction false} ClosedExecutionWasFinalized(w: World, actions: seq<Action>, e: ExecutionId)
    requires Inv(w) && ClosesOwned(w) && Possible(w, actions) && e in w.committed.executions
    requires w.committed.executions[e].closedAt.None?
    requires e in After(w, actions).committed.executions && After(w, actions).committed.executions[e].closedAt.Some?
    ensures Finalized(w, actions, OfExecution(e)) || ClosedAsMember(w, actions, e)
    decreases |actions|
  {
    var a, w1 := actions[0], Do(w, actions[0]);
    assert e in w1.committed.executions by { StepForward(w, a); }
    if w1.committed.executions[e].closedAt.Some? {
      ClosingCommit(w, a, e);
    } else {
      StepKeeps(w, a, w1);
      StepKeepsClosesOwned(w, a);
      ClosedExecutionWasFinalized(w1, actions[1..], e);
    }
  }

  lemma ClosingCommit(w: World, a: Action, e: ExecutionId)
    requires ClosesOwned(w) && Enabled(w, a) && e in w.committed.executions && w.committed.executions[e].closedAt.None?
    requires e in Do(w, a).committed.executions && Do(w, a).committed.executions[e].closedAt.Some?
    ensures Finalizes(w, a, OfExecution(e)) || CommitsMember(w, a, e)
  {
    assert a.Commit? && ExecutionCloseOwned(w.committed, w.transactions[a.pod], e);
  }

  /**
   Finality. If every finalizer judges by the cutoff it reaped by, then after any run every
   scope finalized in it has all its runs finished: so every thread closed in it, and every
   execution closed in it otherwise than as a thread's member.
   */
  lemma OneReadingClosesQuietly(w: World, actions: seq<Action>)
    requires Init(w) && Possible(w, actions) && OneReadingRun(w, actions)
    ensures var c := After(w, actions).committed;
            && (forall scope :: Finalized(w, actions, scope) ==> Quiet(c, scope))
            && (forall k :: ThreadIn(c, k).closedAt.Some? && ThreadIn(w.committed, k).closedAt.None? ==> Quiet(c, OfThread(k)))
            && (forall e :: e in w.committed.executions && w.committed.executions[e].closedAt.None?
                            && e in c.executions && c.executions[e].closedAt.Some? && !ClosedAsMember(w, actions, e)
                  ==> Quiet(c, OfExecution(e)))
  {
    var c := After(w, actions).committed;
    assert SameCutoffs(w) && ClosesOwned(w);
    forall scope | Finalized(w, actions, scope) ensures Quiet(c, scope) {
      FinalizedIsQuiet(w, actions, scope);
    }
    forall k | ThreadIn(c, k).closedAt.Some? && ThreadIn(w.committed, k).closedAt.None? ensures Quiet(c, OfThread(k)) {
      ClosedThreadWasFinalized(w, actions, k);
      FinalizedIsQuiet(w, actions, OfThread(k));
    }
    forall e | e in w.committed.executions && w.committed.executions[e].closedAt.None?
               && e in c.executions && c.executions[e].closedAt.Some? && !ClosedAsMember(w, actions, e)
      ensures Quiet(c, OfExecution(e))
    {
      ClosedExecutionWasFinalized(w, actions, e);
      FinalizedIsQuiet(w, actions, OfExecution(e));
    }
  }

  // ------------------------------------------------------------------ two clock readings

  /** Nothing in the run ends the transaction of `p`. */
  predicate LeavesOpen(actions: seq<Action>, p: Pod) {
    forall a :: a in actions ==> a != Commit(p) && a != Rollback(p)
  }

  /** From judgement to commit a finalizer keeps its verdict and writes no run. */
  predicate SameVerdict(t: Transaction, t': Transaction) {
    && (t.phase.Judged? || t.phase.Closed?) && (t'.phase.Judged? || t'.phase.Closed?)
    && t'.phase.scope == t.phase.scope && t'.phase.gap == t.phase.gap && t'.writes.runs == t.writes.runs
  }

  lemma VerdictStandsOneStep(w: World, a: Action, p: Pod)
    requires Enabled(w, a) && p in w.transactions && a != Commit(p) && a != Rollback(p)
    requires w.transactions[p].phase.Judged? || w.transactions[p].phase.Closed?
    ensures p in Do(w, a).transactions && SameVerdict(w.transactions[p], Do(w, a).transactions[p])
  {
  }

  lemma {:induction false} VerdictStands(w: World, actions: seq<Action>, p: Pod)
    requires Possible(w, actions) && LeavesOpen(actions, p) && p in w.transactions
    requires w.transactions[p].phase.Judged? || w.transactions[p].phase.Closed?
    ensures p in After(w, actions).transactions && SameVerdict(w.transactions[p], After(w, actions).transactions[p])
    decreases |actions|
  {
    if actions != [] {
      assert actions[0] in actions && forall a :: a in actions[1..] ==> a in actions;
      VerdictStandsOneStep(w, actions[0], p);
      VerdictStands(Do(w, actions[0]), actions[1..], p);
    }
  }

  /** The run is unfinished in the committed tables. */
  predicate Unfinished(c: Tables, r: RunId) {
    r in c.runs && c.runs[r].finishedAt.None?
  }

  /**
   Exactly when a close leaves a run unfinished: its heartbeat lay between the reaping
   cutoff and the live cutoff at the judgement, and neither its worker nor another reaper
   finished it before the close committed.
   */
  lemma ClosesOverExactlyTheOverlooked(w: World, p: Pod, w1: World, actions: seq<Action>, w2: World, r: RunId)
    requires Inv(w) && Enabled(w, JudgeLive(p)) && w1 == Do(w, JudgeLive(p))
    requires Possible(w1, actions) && LeavesOpen(actions, p) && w2 == After(w1, actions)
    ensures var phase := w.transactions[p].phase;
            && p in w2.transactions && Enabled(w2, Commit(p))
            && (r in LiveRuns(Do(w2, Commit(p)).committed, phase.scope) <==>
                r in Overlooked(View(w, p), phase.scope, phase.cutoff, w.now - w.closeStale) && Unfinished(w2.committed, r))
  {
    JudgementIsExact(w, p);
    StepKeeps(w, JudgeLive(p), w1);
    VerdictStands(w1, actions, p);
    JudgedKeepsTables(w, p, w1);
    RunForward(w1, actions);
    RunKeeps(w1, actions);
    assert WritesSound(w.committed, w.transactions[p], w.now) by { assert SoundIn(w, p); }
    assert Sound(w2.committed, w2.transactions[p], w2.now, w2.now - w2.closeStale) by { assert SoundIn(w2, p); }
    SurvivesExactly(w.committed, w.transactions[p], w.now, w2.committed, w2.transactions[p], w2.now, w2.now - w2.closeStale,
                    w.transactions[p].phase.scope, r);
  }

  lemma JudgedKeepsTables(w: World, p: Pod, w1: World)
    requires Enabled(w, JudgeLive(p)) && w1 == Do(w, JudgeLive(p))
    ensures w1.committed == w.committed && p in w1.transactions && w1.transactions[p].phase.Judged?
    ensures w1.transactions[p].phase.scope == w.transactions[p].phase.scope
    ensures w1.transactions[p].phase.gap == LiveRuns(View(w, p), w.transactions[p].phase.scope)
    ensures w1.transactions[p].writes == w.transactions[p].writes
  {
  }

  /** One run row, from what the finalizer saw when it judged to what its commit publishes. */
  lemma SurvivesExactly(c: Tables, t: Transaction, now: Time, c2: Tables, t2: Transaction, now2: Time, sb2: Time,
                        scope: Scope, r: RunId)
    requires WritesSound(c, t, now) && RowsSound(c2, now2) && Sound(c2, t2, now2, sb2) && Forward(c, c2)
    requires (t2.phase.Judged? || t2.phase.Closed?) && t2.phase.scope == scope
    requires t2.phase.gap == LiveRuns(Seen(c, t), scope) && t2.writes.runs == t.writes.runs
    ensures r in LiveRuns(Seen(c2, t2), scope) <==> r in LiveRuns(Seen(c, t), scope) && Unfinished(c2, r)
  {
    if r in t2.writes.runs {
      assert RunWriteSound(c2, t2.phase, r, t2.writes.runs[r]);
    } else if r in c2.runs {
      assert RunPast(c2.runs[r], now2);
    }
  }
}
