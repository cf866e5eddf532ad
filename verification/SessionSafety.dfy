/** What the session protocol guarantees over whole runs, for every interleaving. */
module SessionSafety {
  import opened Common
  import opened RunTables
  import opened SessionProtocol
  import opened SessionInvariant

  lemma InitSound(w: World)
    requires Init(w)
    ensures Inv(w)
  {
  }

  /** Safety of claiming: whatever the interleaving, no two live runs ever share an execution or a thread. */
  lemma AtMostOneLiveRun(w: World, actions: seq<Action>)
    requires Init(w) && Possible(w, actions)
    ensures UniqueLive(After(w, actions).committed.runs)
  {
    RunKeeps(w, actions);
  }

  /** The row locks alone suffice: the partial unique indexes never refuse the insert that follows the check. */
  lemma UniqueIndexNeverFires(w: World, p: Pod, r: RunId)
    requires Inv(w) && Enabled(w, InsertRun(p, r))
    ensures var t := w.transactions[p];
            var run := NewRun(t.phase.execution, t.phase.thread, w.now);
            && Do(w, InsertRun(p, r)).transactions[p].writes.runs[r] == run
            && (forall r2 :: r2 in View(w, p).runs && Live(View(w, p).runs[r2]) ==> !Conflict(run, View(w, p).runs[r2]))
            && (forall q, r2 :: q in w.transactions && q != p && r2 in w.transactions[q].writes.runs
                                && r2 !in w.committed.runs
                  ==> !Conflict(run, w.transactions[q].writes.runs[r2]))
  {
    var t := w.transactions[p];
    var run := NewRun(t.phase.execution, t.phase.thread, w.now);
    assert SoundIn(w, p);
    forall q, r2 | q in w.transactions && q != p && r2 in w.transactions[q].writes.runs && r2 !in w.committed.runs
      ensures !Conflict(run, w.transactions[q].writes.runs[r2])
    {
      RivalInsertsElsewhere(w, p, q, r2);
    }
  }

  lemma RivalInsertsElsewhere(w: World, p: Pod, q: Pod, r: RunId)
    requires Inv(w) && p in w.transactions && w.transactions[p].phase.Unopposed?
    requires q in w.transactions && q != p && r in w.transactions[q].writes.runs && r !in w.committed.runs
    ensures !InClaim(w.transactions[q].writes.runs[r], w.transactions[p].phase.execution, w.transactions[p].phase.thread)
  {
    var tp, tq := w.transactions[p], w.transactions[q];
    assert SoundIn(w, p) && SoundIn(w, q);
    assert RunWriteSound(w.committed, tq.phase, r, tq.writes.runs[r]);
    assert Holds(w.committed, tq, tq.phase.execution, tq.phase.thread);
    assert Holds(w.committed, tp, tp.phase.execution, tp.phase.thread);
  }

  // ------------------------------------------------------------------ the close barrier

  /** Nothing clears a close column or unfinishes a run, and no run enters a closing scope. */
  ghost predicate Forward(c: Tables, c': Tables) {
    && (forall e :: e in c.executions ==> e in c'.executions && Grows(c.executions[e], c'.executions[e]))
    && (forall k :: k in c.threads ==> k in c'.threads && ThreadGrows(c, k, c'.threads[k]))
    && (forall r :: r in c.runs ==> r in c'.runs && Evolves(c.runs[r], c'.runs[r]))
    && (forall r, scope :: r in c'.runs && Closing?(c, scope) && InScope(c'.runs[r], scope) ==> r in c.runs)
  }

  lemma CommitForward(c: Tables, t: Transaction, now: Time, sb: Time)
    requires RowsSound(c, now) && Sound(c, t, now, sb)
    ensures Forward(c, Seen(c, t))
  {
    var nobody := Transaction(CloseMarked(OfExecution(0)), {}, NO_WRITES);
    CommitMovesAround(c, t, nobody, now, sb);
    forall r, scope | r in Seen(c, t).runs && Closing?(c, scope) && InScope(Seen(c, t).runs[r], scope)
      ensures r in c.runs
    {
      if r !in c.runs { assert false; }
    }
  }

  lemma StillForward(c: Tables, now: Time)
    requires RowsSound(c, now)
    ensures Forward(c, c)
  {
  }

  lemma RowStatementForward(w: World, r: RunId, run: Run)
    requires RowsSound(w.committed, w.now) && r in w.committed.runs && Evolves(w.committed.runs[r], run)
    ensures Forward(w.committed, WithRun(w, r, run).committed)
  {
  }

  lemma StepForward(w: World, a: Action)
    requires Inv(w) && Enabled(w, a)
    ensures Forward(w.committed, Do(w, a).committed)
  {
    if a.Commit? {
      assert SoundIn(w, a.pod);
      CommitForward(w.committed, w.transactions[a.pod], w.now, w.now - w.closeStale);
    } else if a.Heartbeat? {
      RowStatementForward(w, a.run, BeatIf(w.committed.runs[a.run], a.at));
    } else if a.FinishOwn? {
      RowStatementForward(w, a.run, FinishIf(w.committed.runs[a.run], a.status, w.now, None));
    } else {
      assert Do(w, a).committed == w.committed;
      StillForward(w.committed, w.now);
    }
  }

  lemma ForwardComposes(a: Tables, b: Tables, c: Tables)
    requires Forward(a, b) && Forward(b, c)
    ensures Forward(a, c)
  {
    forall r, scope | r in c.runs && Closing?(a, scope) && InScope(c.runs[r], scope) ensures r in a.runs {
      assert Closing?(b, scope);
    }
  }

  lemma {:induction false} RunForward(w: World, actions: seq<Action>)
    requires Inv(w) && Possible(w, actions)
    ensures Forward(w.committed, After(w, actions).committed)
    decreases |actions|
  {
    if actions == [] {
      StillForward(w.committed, w.now);
    } else {
      var w1 := Do(w, actions[0]);
      StepForward(w, actions[0]);
      StepKeeps(w, actions[0], Do(w, actions[0]));
      RunForward(w1, actions[1..]);
      ForwardComposes(w.committed, w1.committed, After(w, actions).committed);
    }
  }

  /**
   Close is a barrier: from the committed request on, the scope never gains a run and never
   reopens. A claim is taken to judge the row as its lock returns it: a claim that judged
   attributes its session had loaded before the lock would not be this protocol's.
   */
  lemma CloseIsABarrier(w: World, actions: seq<Action>, scope: Scope)
    requires Inv(w) && Possible(w, actions) && Closing?(w.committed, scope)
    ensures var c := After(w, actions).committed;
            && Closing?(c, scope)
            && (forall r :: r in c.runs && InScope(c.runs[r], scope) ==> r in w.committed.runs)
            && LiveRuns(c, scope) <= LiveRuns(w.committed, scope)
  {
    RunForward(w, actions);
  }

  /**
   A close request, and a thread's close, keep their first timestamp forever; an
   execution's close is never cleared; a closed thread was asked to close first.
   */
  lemma CloseTimestampsStand(w: World, actions: seq<Action>, e: ExecutionId, k: ThreadKey)
    requires Inv(w) && Possible(w, actions)
    ensures var c, c' := w.committed, After(w, actions).committed;
            && (e in c.executions && c.executions[e].closeRequestedAt.Some? ==>
                  e in c'.executions && c'.executions[e].closeRequestedAt == c.executions[e].closeRequestedAt)
            && (e in c.executions && c.executions[e].closedAt.Some? ==>
                  e in c'.executions && c'.executions[e].closedAt.Some?)
            && (k in c.threads && c.threads[k].closeRequestedAt.Some? ==>
                  k in c'.threads && c'.threads[k].closeRequestedAt == c.threads[k].closeRequestedAt)
            && (k in c.threads && c.threads[k].closedAt.Some? ==>
                  k in c'.threads && c'.threads[k].closedAt == c.threads[k].closedAt)
            && (k in c'.threads && c'.threads[k].closedAt.Some? ==> c'.threads[k].closeRequestedAt.Some?)
  {
    RunForward(w, actions);
    RunKeeps(w, actions);
  }

  /** A run finishes at most once: its finished row is the same in every later state. */
  lemma FinishedRunIsFrozen(w: World, actions: seq<Action>, r: RunId)
    requires Inv(w) && Possible(w, actions)
    requires r in w.committed.runs && w.committed.runs[r].finishedAt.Some?
    ensures r in After(w, actions).committed.runs
    ensures After(w, actions).committed.runs[r] == w.committed.runs[r]
  {
    RunForward(w, actions);
  }

  // ------------------------------------------------------------------ finalization

  /** Unfinished runs of the scope that the finalizer neither reaped nor counts as blocking. */
  function Overlooked(v: Tables, scope: Scope, cutoff: Time, liveCutoff: Time): set<RunId> {
    set r | r in LiveRuns(v, scope) && r in v.runs && cutoff <= v.runs[r].heartbeatAt < liveCutoff
  }

  /**
   What the live check lets through, exactly: the reaping cutoff and the live check read
   the clock separately, and the unfinished runs whose heartbeat falls between the two
   readings are the ones the finalizer does not see. With one reading there are none.
   */
  lemma JudgementIsExact(w: World, p: Pod)
    requires Inv(w) && Enabled(w, JudgeLive(p))
    ensures var ph := Do(w, JudgeLive(p)).transactions[p].phase;
            && ph.Judged?
            && ph.gap == Overlooked(View(w, p), ph.scope, ph.cutoff, ph.liveCutoff)
            && (ph.cutoff == ph.liveCutoff ==> ph.gap == {})
  {
    assert SoundIn(w, p);
    GapLiesBetweenCutoffs(w.committed, w.transactions[p], w.now - w.closeStale);
  }

  /**
   From the judgement to the commit that publishes `closed_at`, whatever happens in between:
   the scope's unfinished runs are among the overlooked ones, and with equal cutoffs there is none.
   */
  lemma ClosesOnlyWhenQuiet(w: World, p: Pod)
    requires Inv(w) && p in w.transactions && (w.transactions[p].phase.Judged? || w.transactions[p].phase.Closed?)
    ensures var phase, v := w.transactions[p].phase, View(w, p);
            forall r :: r in v.runs && InScope(v.runs[r], phase.scope) && v.runs[r].finishedAt.None?
              ==> r in phase.gap && phase.cutoff < phase.liveCutoff
  {
    assert Sound(w.committed, w.transactions[p], w.now, w.now - w.closeStale) by { assert SoundIn(w, p); }
    UnfinishedIsInGap(w.committed, w.transactions[p], w.now, w.now - w.closeStale);
  }

  lemma UnfinishedIsInGap(c: Tables, t: Transaction, now: Time, sb: Time)
    requires RowsSound(c, now) && Sound(c, t, now, sb) && (t.phase.Judged? || t.phase.Closed?)
    ensures forall r :: r in Seen(c, t).runs && InScope(Seen(c, t).runs[r], t.phase.scope) && Seen(c, t).runs[r].finishedAt.None?
              ==> r in t.phase.gap && t.phase.cutoff < t.phase.liveCutoff
  {
    SeenIsPast(c, t, now);
    var v := Seen(c, t);
    forall r | r in v.runs && InScope(v.runs[r], t.phase.scope) && v.runs[r].finishedAt.None?
      ensures r in t.phase.gap && t.phase.cutoff < t.phase.liveCutoff
    {
      assert r in LiveRuns(v, t.phase.scope);
    }
  }

  lemma CommittedCloseIsQuiet(c: Tables, t: Transaction, now: Time, sb: Time)
    requires RowsSound(c, now) && Sound(c, t, now, sb) && t.phase.Closed? && t.phase.cutoff == t.phase.liveCutoff
    ensures Closing?(Seen(c, t), t.phase.scope) && LiveRuns(Seen(c, t), t.phase.scope) == {}
  {
    CommitForward(c, t, now, sb);
  }

  /** Committing a close whose two cutoffs agree leaves the scope without unfinished runs in every later state. */
  lemma ClosedStaysQuiet(w: World, p: Pod, w1: World, actions: seq<Action>)
    requires Inv(w) && p in w.transactions && w1 == Do(w, Commit(p)) && Possible(w1, actions)
    requires w.transactions[p].phase.Closed? && w.transactions[p].phase.cutoff == w.transactions[p].phase.liveCutoff
    ensures var c := After(w1, actions).committed;
            forall r :: r in c.runs && InScope(c.runs[r], w.transactions[p].phase.scope) ==> c.runs[r].finishedAt.Some?
  {
    var scope := w.transactions[p].phase.scope;
    assert SoundIn(w, p);
    CommittedCloseIsQuiet(w.committed, w.transactions[p], w.now, w.now - w.closeStale);
    StepKeeps(w, Commit(p), w1);
    CloseIsABarrier(w1, actions, scope);
    RunKeeps(w1, actions);
    var c := After(w1, actions).committed;
    forall r | r in c.runs && InScope(c.runs[r], scope) ensures c.runs[r].finishedAt.Some? {
      assert r !in LiveRuns(c, scope);
    }
  }

  /** Execution 1 is closing; its run 7 last beat at time 0; the staleness bound is 10. */
  const RACING_RUN := Run(1, None, Closing, 0, Some(0), 0, None)
  const RACE_START := World(Tables(map[1 := Session(Some(0), None)], map[], map[7 := RACING_RUN]), map[], 10, 10, 10)

  function RaceAt(now: Time, phase: Phase, closed: bool): World {
    var writes := if closed then NO_WRITES.(executions := map[1 := Session(Some(0), Some(now))]) else NO_WRITES;
    RACE_START.(now := now,
                transactions := map[0 := Transaction(phase, if closed then {ExecutionRow(1)} else {}, writes)])
  }

  lemma RaceListsNothing()
    ensures Enabled(RACE_START, BeginReconcile(0, OfExecution(1)))
    ensures Do(RACE_START, BeginReconcile(0, OfExecution(1))) == RaceAt(10, Reconciling(OfExecution(1), 0), false)
    ensures var w := RaceAt(10, Reconciling(OfExecution(1), 0), false);
            Enabled(w, ListStale(0)) && Do(w, ListStale(0)) == RaceAt(10, Reaping(OfExecution(1), 0, {}), false)
  {
    var w := RaceAt(10, Reconciling(OfExecution(1), 0), false);
    assert View(w, 0) == RACE_START.committed;
    assert ListStaleRuns(w.committed, w.transactions[0], 0).phase == Reaping(OfExecution(1), 0, {});
  }

  lemma RaceBlocksNothing()
    ensures var w := RaceAt(11, Reaping(OfExecution(1), 0, {}), false);
            Enabled(w, JudgeLive(0)) && Do(w, JudgeLive(0)) == RaceAt(11, Judged(OfExecution(1), 0, 1, {7}), false)
  {
    var w := RaceAt(11, Reaping(OfExecution(1), 0, {}), false);
    assert View(w, 0) == RACE_START.committed;
    assert Blocking(w.committed, w.transactions[0], 1) == {};
    assert LiveRuns(RACE_START.committed, OfExecution(1)) == {7};
  }

  lemma RaceCloses()
    ensures var w := RaceAt(11, Judged(OfExecution(1), 0, 1, {7}), false);
            Enabled(w, CloseScope(0)) && Do(w, CloseScope(0)) == RaceAt(11, Closed(OfExecution(1), 0, 1, {7}), true)
  {
    var w := RaceAt(11, Judged(OfExecution(1), 0, 1, {7}), false);
    var t := CloseScopeRow(w.committed, w.transactions[0], 11);
    assert View(w, 0).executions == RACE_START.committed.executions;
    assert t.locked == {ExecutionRow(1)} && t.phase == Closed(OfExecution(1), 0, 1, {7});
    assert t.writes.executions == map[1 := Session(Some(0), Some(11))];
    assert Put(w, 0, t).transactions == RaceAt(11, Closed(OfExecution(1), 0, 1, {7}), true).transactions;
  }

  lemma RaceCommits()
    ensures var w := RaceAt(11, Closed(OfExecution(1), 0, 1, {7}), true);
            Enabled(w, Commit(0)) && Do(w, Commit(0)).committed
                                     == RACE_START.committed.(executions := map[1 := Session(Some(0), Some(11))])
  {
    var w := RaceAt(11, Closed(OfExecution(1), 0, 1, {7}), true);
    var c := Do(w, Commit(0)).committed;
    assert c.executions == map[1 := Session(Some(0), Some(11))];
    assert c.threads == map[] && c.runs == RACE_START.committed.runs;
  }

  ghost predicate Reaches(w: World, w': World) {
    exists actions :: Possible(w, actions) && After(w, actions) == w'
  }

  lemma StepThenReach(w: World, a: Action, w': World)
    requires Enabled(w, a) && Reaches(Do(w, a), w')
    ensures Reaches(w, w')
  {
    var rest :| Possible(Do(w, a), rest) && After(Do(w, a), rest) == w';
    assert ([a] + rest)[1..] == rest;
    assert Possible(w, [a] + rest) && After(w, [a] + rest) == w';
  }

  /**
   The two clock readings do matter: a run exactly one staleness bound old at the reaping
   cutoff, and older at the live check, is still unfinished when its execution is closed.
   */
  lemma TwoClockReadingsCloseOverALiveRun()
    ensures Init(RACE_START)
    ensures exists w :: Reaches(RACE_START, w) && 1 in w.committed.executions
                        && w.committed.executions[1].closedAt.Some? && 7 in LiveRuns(w.committed, OfExecution(1))
  {
    RaceListsNothing();
    var w := RaceEnds();
    StepThenReach(RaceAt(10, Reaping(OfExecution(1), 0, {}), false), Tick(1), w);
    StepThenReach(RaceAt(10, Reconciling(OfExecution(1), 0), false), ListStale(0), w);
    StepThenReach(RACE_START, BeginReconcile(0, OfExecution(1)), w);
  }

  lemma RaceEnds() returns (w: World)
    ensures Reaches(RaceAt(11, Reaping(OfExecution(1), 0, {}), false), w)
    ensures w.committed == RACE_START.committed.(executions := map[1 := Session(Some(0), Some(11))])
  {
    RaceBlocksNothing();
    RaceCloses();
    RaceCommits();
    w := Do(RaceAt(11, Closed(OfExecution(1), 0, 1, {7}), true), Commit(0));
    assert Possible(w, []) && After(w, []) == w;
    StepThenReach(RaceAt(11, Closed(OfExecution(1), 0, 1, {7}), true), Commit(0), w);
    StepThenReach(RaceAt(11, Judged(OfExecution(1), 0, 1, {7}), false), CloseScope(0), w);
    StepThenReach(RaceAt(11, Reaping(OfExecution(1), 0, {}), false), JudgeLive(0), w);
  }

  // ------------------------------------------------------------------ reaping

  /** Only the two conditional reaping statements ever finish a run inside a transaction. */
  lemma ReapingStatement(w: World, a: Action, p: Pod, r: RunId)
    requires Enabled(w, a) && p in w.transactions && p in Do(w, a).transactions
    requires r in View(w, p).runs && View(w, p).runs[r].finishedAt.None?
    requires r in Do(w, a).transactions[p].writes.runs && Do(w, a).transactions[p].writes.runs[r].finishedAt.Some?
    ensures a.ReapForClaim? || a.ReapListed?
    ensures View(w, p).runs[r].heartbeatAt < if a.ReapForClaim? then a.cutoff else w.transactions[p].phase.cutoff
  {
    var t, t' := w.transactions[p], Do(w, a).transactions[p];
    if t'.writes.runs == t.writes.runs { assert false; }
  }

  /** A reaped run was older than the bound at that very update. */
  lemma ReapedMeansStale(w: World, a: Action, p: Pod, r: RunId)
    requires Inv(w) && Enabled(w, a) && p in w.transactions && p in Do(w, a).transactions
    requires r in View(w, p).runs && View(w, p).runs[r].finishedAt.None?
    requires r in Do(w, a).transactions[p].writes.runs && Do(w, a).transactions[p].writes.runs[r].finishedAt.Some?
    ensures a.ReapForClaim? || a.ReapListed?
    ensures View(w, p).runs[r].heartbeatAt < if a.ReapForClaim? then w.now - w.claimStale else w.now - w.closeStale
  {
    ReapingStatement(w, a, p, r);
    assert SoundIn(w, p);
  }

  /** `r` is unfinished and nobody has reaped it, even uncommitted. */
  ghost predicate Unreaped(w: World, r: RunId) {
    && r in w.committed.runs && w.committed.runs[r].finishedAt.None?
    && (forall p :: p in w.transactions && r in w.transactions[p].writes.runs
          ==> w.transactions[p].writes.runs[r].finishedAt.None?)
  }

  ghost predicate Fresh(w: World, r: RunId) {
    r in w.committed.runs
    && w.now <= w.committed.runs[r].heartbeatAt + w.claimStale
    && w.now <= w.committed.runs[r].heartbeatAt + w.closeStale
  }

  lemma FreshIsNotReapedBy(w: World, a: Action, p: Pod, r: RunId)
    requires Inv(w) && Enabled(w, a) && Unreaped(w, r) && Fresh(w, r)
    requires p in w.transactions && p in Do(w, a).transactions && r in Do(w, a).transactions[p].writes.runs
    ensures Do(w, a).transactions[p].writes.runs[r].finishedAt.None?
  {
    assert SoundIn(w, p);
    assert r in w.transactions[p].writes.runs
           ==> RunWriteSound(w.committed, w.transactions[p].phase, r, w.transactions[p].writes.runs[r]);
    assert View(w, p).runs[r].heartbeatAt >= w.committed.runs[r].heartbeatAt;
    if Do(w, a).transactions[p].writes.runs[r].finishedAt.Some? {
      ReapedMeansStale(w, a, p, r);
      assert false;
    }
  }

  lemma UnreapedStaysCommitted(w: World, a: Action, r: RunId)
    requires Enabled(w, a) && Unreaped(w, r)
    requires !(a.FinishOwn? && a.run == r)
    ensures r in Do(w, a).committed.runs && Do(w, a).committed.runs[r].finishedAt.None?
  {
  }

  lemma NewTransactionWritesNoRun(w: World, a: Action, p: Pod)
    requires Enabled(w, a) && p !in w.transactions && p in Do(w, a).transactions
    ensures Do(w, a).transactions[p].writes.runs == map[]
  {
  }

  lemma FreshStepLeavesUnreaped(w: World, a: Action, r: RunId)
    requires Inv(w) && Enabled(w, a) && Unreaped(w, r) && Fresh(w, r)
    requires !(a.FinishOwn? && a.run == r)
    ensures Unreaped(Do(w, a), r)
  {
    UnreapedStaysCommitted(w, a, r);
    var w' := Do(w, a);
    forall p | p in w'.transactions && r in w'.transactions[p].writes.runs
      ensures w'.transactions[p].writes.runs[r].finishedAt.None?
    {
      if p in w.transactions { FreshIsNotReapedBy(w, a, p, r); } else { NewTransactionWritesNoRun(w, a, p); }
    }
  }

  ghost predicate FreshThroughout(w: World, actions: seq<Action>, r: RunId)
    decreases |actions|
  {
    Fresh(w, r)
    && (actions != [] && Enabled(w, actions[0]) ==> FreshThroughout(Do(w, actions[0]), actions[1..], r))
  }

  /** A run that is fresh at every state is never taken from its worker. */
  lemma {:induction false} FreshRunIsNeverReaped(w: World, actions: seq<Action>, r: RunId)
    requires Inv(w) && Possible(w, actions) && Unreaped(w, r) && FreshThroughout(w, actions, r)
    requires forall a :: a in actions ==> !(a.FinishOwn? && a.run == r)
    ensures Unreaped(After(w, actions), r) && Live(After(w, actions).committed.runs[r])
    decreases |actions|
  {
    if actions == [] {
      assert RunPast(w.committed.runs[r], w.now);
    } else {
      assert actions[0] in actions;
      FreshStepLeavesUnreaped(w, actions[0], r);
      StepKeeps(w, actions[0], Do(w, actions[0]));
      FreshRunIsNeverReaped(Do(w, actions[0]), actions[1..], r);
    }
  }
}
