/**
 How often a close timestamp is written. A thread's is written once. An execution's is
 assigned without looking at the row again, so a second finalizer can write it again;
 exactly when, and what recheck would prevent it.
 */
module CloseStamps {
  import opened Common
  import opened RunTables
  import opened SessionProtocol
  import opened SessionInvariant
  import opened SessionSafety

  /** The statement that assigns `closed_at` of execution `e` in the transaction of `p`. */
  ghost predicate StampsRow(w: World, a: Action, p: Pod, e: ExecutionId) {
    && p in w.transactions && e in w.committed.executions
    && (a == CloseMember(p, e)
        || (a == CloseScope(p) && w.transactions[p].phase.Judged? && w.transactions[p].phase.scope == OfExecution(e)))
  }

  function ClosedAt(c: Tables, e: ExecutionId): Option<Time> {
    if e in c.executions then c.executions[e].closedAt else None
  }

  /** The latest such statement of an open transaction: when it ran, and whether the row was closed already. */
  datatype Stamp = Stamp(at: Time, again: bool)

  ghost function NextStamp(w: World, a: Action, p: Pod, e: ExecutionId, stamp: Option<Stamp>): Option<Stamp> {
    if StampsRow(w, a, p, e) then Some(Stamp(w.now, ClosedAt(w.committed, e).Some?))
    else if a == Commit(p) || a == Rollback(p) then None
    else stamp
  }

  /** That statement after a run, if `p` has a transaction open that ran one. */
  ghost function StampAfter(w: World, actions: seq<Action>, p: Pod, e: ExecutionId, stamp: Option<Stamp>): Option<Stamp>
    requires Possible(w, actions)
    decreases |actions|
  {
    if actions == [] then stamp
    else StampAfter(Do(w, actions[0]), actions[1..], p, e, NextStamp(w, actions[0], p, e, stamp))
  }

  /** What the transaction would publish for the row, in terms of its latest stamping statement. */
  ghost predicate Stamped(w: World, p: Pod, e: ExecutionId, stamp: Option<Stamp>) {
    match stamp
    case None =>
      p in w.transactions && e in w.transactions[p].writes.executions ==>
        w.transactions[p].writes.executions[e].closedAt == ClosedAt(w.committed, e)
    case Some(Stamp(at, again)) =>
      && p in w.transactions && e in w.transactions[p].writes.executions && e in w.committed.executions
      && w.transactions[p].writes.executions[e].closedAt == Some(at)
      && (again <==> w.committed.executions[e].closedAt.Some?)
  }

  lemma StampingStatement(w: World, a: Action, p: Pod, e: ExecutionId, stamp: Option<Stamp>)
    requires Enabled(w, a) && StampsRow(w, a, p, e)
    ensures Stamped(Do(w, a), p, e, NextStamp(w, a, p, e, stamp))
  {
  }

  /** Any other statement leaves the transaction's version of the row as it is, or copies the committed close column. */
  lemma OtherStatementWrites(w: World, a: Action, w': World, p: Pod, e: ExecutionId)
    requires Enabled(w, a) && w' == Do(w, a) && w'.committed == w.committed && a != Rollback(p) && a != Commit(p)
    requires !StampsRow(w, a, p, e) && p in w'.transactions
    ensures p in w.transactions ==>
              (e in w'.transactions[p].writes.executions <==> e in w.transactions[p].writes.executions)
    ensures p in w.transactions && e in w.transactions[p].writes.executions && e in w.committed.executions ==>
              w'.transactions[p].writes.executions[e] == w.transactions[p].writes.executions[e]
    ensures p !in w.transactions && e in w'.transactions[p].writes.executions ==>
              w'.transactions[p].writes.executions[e].closedAt == ClosedAt(w.committed, e)
  {
  }

  lemma TransactionStaysOpen(w: World, a: Action, w': World, p: Pod)
    requires Enabled(w, a) && w' == Do(w, a) && a != Rollback(p) && a != Commit(p) && p in w.transactions
    ensures p in w'.transactions
  {
  }

  lemma OtherStatement(w: World, a: Action, w': World, p: Pod, e: ExecutionId, stamp: Option<Stamp>)
    requires Enabled(w, a) && w' == Do(w, a) && w'.committed == w.committed && a != Rollback(p) && a != Commit(p)
    requires !StampsRow(w, a, p, e)
    requires p in w.transactions && e in w.transactions[p].writes.executions ==> e in w.committed.executions
    requires Stamped(w, p, e, stamp)
    ensures Stamped(w', p, e, stamp)
  {
    if p in w.transactions { TransactionStaysOpen(w, a, w', p); }
    if p in w'.transactions { OtherStatementWrites(w, a, w', p, e); }
  }

  lemma CommitDoes(w: World, q: Pod)
    requires q in w.transactions
    ensures Enabled(w, Commit(q)) && Do(w, Commit(q)).committed == View(w, q)
    ensures Do(w, Commit(q)).transactions == w.transactions - {q}
  {
  }

  /** Statements outside any transaction touch run rows alone. */
  lemma RowStatementDoes(w: World, a: Action)
    requires Enabled(w, a) && Do(w, a).committed != w.committed && !a.Commit?
    ensures Do(w, a).committed.executions == w.committed.executions && Do(w, a).transactions == w.transactions
  {
  }

  /** A row in `p`'s writes is locked, so no other commit moves it. */
  lemma LockedRowStands(c: Tables, t: Transaction, q: Transaction, now: Time, e: ExecutionId)
    requires WritesSound(c, t, now) && WritesSound(c, q, now) && Disjoint(t, q) && e in t.writes.executions
    ensures e in c.executions && Seen(c, q).executions[e] == c.executions[e]
  {
  }

  lemma OthersLeaveRow(w: World, a: Action, p: Pod, e: ExecutionId)
    requires Inv(w) && Enabled(w, a) && Do(w, a).committed != w.committed && a != Commit(p)
    requires p in w.transactions && e in w.transactions[p].writes.executions
    ensures p in Do(w, a).transactions && Do(w, a).transactions[p] == w.transactions[p]
    ensures e in w.committed.executions && e in Do(w, a).committed.executions
    ensures Do(w, a).committed.executions[e] == w.committed.executions[e]
  {
    assert WritesSound(w.committed, w.transactions[p], w.now) by { assert SoundIn(w, p); }
    if a.Commit? {
      assert WritesSound(w.committed, w.transactions[a.pod], w.now) by { assert SoundIn(w, a.pod); }
      LockedRowStands(w.committed, w.transactions[p], w.transactions[a.pod], w.now, e);
      CommitDoes(w, a.pod);
    } else {
      RowStatementDoes(w, a);
    }
  }

  lemma NobodyAppears(w: World, a: Action, p: Pod)
    requires Enabled(w, a) && Do(w, a).committed != w.committed && p in Do(w, a).transactions
    ensures p in w.transactions && Do(w, a).transactions[p] == w.transactions[p]
  {
    if !a.Commit? { RowStatementDoes(w, a); }
  }

  lemma OthersLeaveStamp(w: World, a: Action, p: Pod, e: ExecutionId, stamp: Option<Stamp>)
    requires Inv(w) && Enabled(w, a) && Do(w, a).committed != w.committed && a != Commit(p)
    requires Stamped(w, p, e, stamp)
    ensures Stamped(Do(w, a), p, e, stamp)
  {
    if p in w.transactions && e in w.transactions[p].writes.executions {
      OthersLeaveRow(w, a, p, e);
    } else if p in Do(w, a).transactions {
      NobodyAppears(w, a, p);
    }
  }

  lemma StampStep(w: World, a: Action, w': World, p: Pod, e: ExecutionId, stamp: Option<Stamp>)
    requires Inv(w) && Enabled(w, a) && w' == Do(w, a) && Stamped(w, p, e, stamp)
    ensures Stamped(w', p, e, NextStamp(w, a, p, e, stamp))
  {
    if a == Commit(p) || a == Rollback(p) {
      TransactionEnds(w, a, w', p);
    } else if StampsRow(w, a, p, e) {
      StampingStatement(w, a, p, e, stamp);
    } else if w'.committed == w.committed {
      assert p in w.transactions && e in w.transactions[p].writes.executions ==> e in w.committed.executions by {
        if p in w.transactions { assert SoundIn(w, p); }
      }
      OtherStatement(w, a, w', p, e, stamp);
    } else {
      OthersLeaveStamp(w, a, p, e, stamp);
    }
  }

  lemma TransactionEnds(w: World, a: Action, w': World, p: Pod)
    requires Enabled(w, a) && w' == Do(w, a) && (a == Commit(p) || a == Rollback(p))
    ensures p !in w'.transactions
  {
  }

  lemma {:induction false} StampRun(w: World, actions: seq<Action>, p: Pod, e: ExecutionId, stamp: Option<Stamp>)
    requires Inv(w) && Possible(w, actions) && Stamped(w, p, e, stamp)
    ensures Stamped(After(w, actions), p, e, StampAfter(w, actions, p, e, stamp))
    decreases |actions|
  {
    if actions != [] {
      StampStep(w, actions[0], Do(w, actions[0]), p, e, stamp);
      StepKeeps(w, actions[0], Do(w, actions[0]));
      StampRun(Do(w, actions[0]), actions[1..], p, e, NextStamp(w, actions[0], p, e, stamp));
    }
  }

  lemma OnlyCommitsMoveSessions(w: World, a: Action, e: ExecutionId)
    requires Enabled(w, a) && !a.Commit?
    ensures ClosedAt(Do(w, a).committed, e) == ClosedAt(w.committed, e)
  {
  }

  /**
   When a close timestamp is rewritten: a step changes an execution's `closed_at` from one
   time to another exactly when it commits a transaction whose stamping statement ran, at
   the new time, on a row that was closed already.
   */
  lemma RestampedExactly(w: World, actions: seq<Action>, a: Action, e: ExecutionId, before: Time, after: Time)
    requires Init(w) && Possible(w, actions) && Enabled(After(w, actions), a) && before != after
    ensures var w1 := After(w, actions);
            (ClosedAt(w1.committed, e) == Some(before) && ClosedAt(Do(w1, a).committed, e) == Some(after))
            <==> (a.Commit? && ClosedAt(w1.committed, e) == Some(before)
                  && StampAfter(w, actions, a.pod, e, None) == Some(Stamp(after, true)))
  {
    var w1 := After(w, actions);
    if a.Commit? {
      StampRun(w, actions, a.pod, e, None);
    } else {
      OnlyCommitsMoveSessions(w1, a, e);
    }
  }

  // ------------------------------------------------------------------ with a recheck

  /** A finalizer that assigns `closed_at` only while the row is still open. */
  ghost predicate Rechecks(w: World, a: Action) {
    forall p, e :: StampsRow(w, a, p, e) ==> ClosedAt(w.committed, e).None?
  }

  ghost predicate RecheckedRun(w: World, actions: seq<Action>)
    requires Possible(w, actions)
    decreases |actions|
  {
    actions == [] || (Rechecks(w, actions[0]) && RecheckedRun(Do(w, actions[0]), actions[1..]))
  }

  /** No open transaction is about to stamp a closed row. */
  ghost predicate NoneRestamps(w: World, e: ExecutionId) {
    forall p :: p in w.transactions && e in w.transactions[p].writes.executions && ClosedAt(w.committed, e).Some?
      ==> w.transactions[p].writes.executions[e].closedAt == ClosedAt(w.committed, e)
  }

  /** What `p` is about to publish for the row, as a stamp that met an open row. */
  function PendingStamp(w: World, p: Pod, e: ExecutionId): Option<Stamp> {
    if p !in w.transactions || e !in w.transactions[p].writes.executions then None
    else
      var closedAt := w.transactions[p].writes.executions[e].closedAt;
      if closedAt == ClosedAt(w.committed, e) || closedAt.None? then None else Some(Stamp(closedAt.value, false))
  }

  lemma PendingStampHolds(w: World, p: Pod, e: ExecutionId)
    requires NoneRestamps(w, e) && (p in w.transactions ==> WritesSound(w.committed, w.transactions[p], w.now))
    ensures Stamped(w, p, e, PendingStamp(w, p, e))
  {
    if p in w.transactions && e in w.transactions[p].writes.executions {
      assert Grows(w.committed.executions[e], w.transactions[p].writes.executions[e]);
    }
  }

  lemma FirstStampAgrees(w: World, p: Pod, e: ExecutionId, stamp: Option<Stamp>)
    requires Stamped(w, p, e, stamp) && (stamp.Some? ==> !stamp.value.again)
    requires p in w.transactions && e in w.transactions[p].writes.executions && ClosedAt(w.committed, e).Some?
    ensures w.transactions[p].writes.executions[e].closedAt == ClosedAt(w.committed, e)
  {
  }

  lemma CommitKeepsStamp(w: World, q: Pod, e: ExecutionId)
    requires NoneRestamps(w, e) && q in w.transactions && ClosedAt(w.committed, e).Some?
    ensures ClosedAt(View(w, q), e) == ClosedAt(w.committed, e)
  {
  }

  lemma RecheckedStampIsFirst(w: World, a: Action, p: Pod, e: ExecutionId, stamp: Option<Stamp>)
    requires Rechecks(w, a) && (stamp.Some? ==> !stamp.value.again)
    ensures NextStamp(w, a, p, e, stamp).Some? ==> !NextStamp(w, a, p, e, stamp).value.again
  {
  }

  lemma RecheckedRow(w: World, a: Action, w': World, p: Pod, e: ExecutionId)
    requires Inv(w) && Enabled(w, a) && w' == Do(w, a) && Rechecks(w, a) && NoneRestamps(w, e)
    requires p in w'.transactions && e in w'.transactions[p].writes.executions && ClosedAt(w'.committed, e).Some?
    ensures w'.transactions[p].writes.executions[e].closedAt == ClosedAt(w'.committed, e)
  {
    assert p in w.transactions ==> WritesSound(w.committed, w.transactions[p], w.now) by {
      assert p in w.transactions ==> SoundIn(w, p);
    }
    PendingStampHolds(w, p, e);
    StampStep(w, a, w', p, e, PendingStamp(w, p, e));
    RecheckedStampIsFirst(w, a, p, e, PendingStamp(w, p, e));
    FirstStampAgrees(w', p, e, NextStamp(w, a, p, e, PendingStamp(w, p, e)));
  }

  lemma RecheckedStep(w: World, a: Action, w': World, e: ExecutionId)
    requires Inv(w) && Enabled(w, a) && w' == Do(w, a) && Rechecks(w, a) && NoneRestamps(w, e)
    ensures NoneRestamps(w', e)
    ensures ClosedAt(w.committed, e).Some? ==> ClosedAt(w'.committed, e) == ClosedAt(w.committed, e)
  {
    forall p | p in w'.transactions && e in w'.transactions[p].writes.executions && ClosedAt(w'.committed, e).Some?
      ensures w'.transactions[p].writes.executions[e].closedAt == ClosedAt(w'.committed, e)
    {
      RecheckedRow(w, a, w', p, e);
    }
    if !a.Commit? {
      OnlyCommitsMoveSessions(w, a, e);
    } else if ClosedAt(w.committed, e).Some? {
      CommitDoes(w, a.pod);
      CommitKeepsStamp(w, a.pod, e);
    }
  }

  /** Each timestamp is set once: with the recheck a closed execution keeps its first one in every later state. */
  lemma {:induction false} RecheckedStampsStand(w: World, actions: seq<Action>, e: ExecutionId)
    requires Inv(w) && NoneRestamps(w, e) && Possible(w, actions) && RecheckedRun(w, actions)
    ensures ClosedAt(w.committed, e).Some? ==> ClosedAt(After(w, actions).committed, e) == ClosedAt(w.committed, e)
    ensures NoneRestamps(After(w, actions), e)
    decreases |actions|
  {
    if actions != [] {
      RecheckedStep(w, actions[0], Do(w, actions[0]), e);
      StepKeeps(w, actions[0], Do(w, actions[0]));
      RecheckedStampsStand(Do(w, actions[0]), actions[1..], e);
    }
  }

  // ------------------------------------------------------------------ without it

  /** Execution 1, asked to close at time 0, without runs. */
  function Idle(now: Time, closedAt: Option<Time>): World {
    World(Tables(map[1 := Session(Some(0), closedAt)], map[], map[]), map[], now, 10, 10)
  }

  function Finalizing(now: Time, closedAt: Option<Time>, phase: Phase): World {
    Idle(now, closedAt).(transactions := map[0 := Transaction(phase, {}, NO_WRITES)])
  }

  function Closing(now: Time, closedAt: Option<Time>): World {
    Idle(now, closedAt).(transactions := map[0 := Transaction(
      Closed(OfExecution(1), now - 10, now - 10, {}), {ExecutionRow(1)},
      NO_WRITES.(executions := map[1 := Session(Some(0), Some(now))]))])
  }

  lemma BeginsReconcile(now: Time, closedAt: Option<Time>)
    ensures Enabled(Idle(now, closedAt), BeginReconcile(0, OfExecution(1)))
    ensures Do(Idle(now, closedAt), BeginReconcile(0, OfExecution(1)))
            == Finalizing(now, closedAt, Reconciling(OfExecution(1), now - 10))
  {
  }

  lemma ListsNothing(now: Time, closedAt: Option<Time>)
    ensures var w := Finalizing(now, closedAt, Reconciling(OfExecution(1), now - 10));
            Enabled(w, ListStale(0)) && Do(w, ListStale(0)) == Finalizing(now, closedAt, Reaping(OfExecution(1), now - 10, {}))
  {
    var w := Finalizing(now, closedAt, Reconciling(OfExecution(1), now - 10));
    assert ListStaleRuns(w.committed, w.transactions[0], now - 10).phase == Reaping(OfExecution(1), now - 10, {});
  }

  lemma JudgesQuiet(now: Time, closedAt: Option<Time>)
    ensures var w := Finalizing(now, closedAt, Reaping(OfExecution(1), now - 10, {}));
            Enabled(w, JudgeLive(0))
            && Do(w, JudgeLive(0)) == Finalizing(now, closedAt, Judged(OfExecution(1), now - 10, now - 10, {}))
  {
    var w := Finalizing(now, closedAt, Reaping(OfExecution(1), now - 10, {}));
    assert Blocking(w.committed, w.transactions[0], now - 10) == {};
    assert LiveRuns(View(w, 0), OfExecution(1)) == {};
  }

  lemma ClosesAgain(now: Time, closedAt: Option<Time>)
    ensures var w := Finalizing(now, closedAt, Judged(OfExecution(1), now - 10, now - 10, {}));
            Enabled(w, CloseScope(0)) && Do(w, CloseScope(0)) == Closing(now, closedAt)
  {
    var w := Finalizing(now, closedAt, Judged(OfExecution(1), now - 10, now - 10, {}));
    var t := CloseScopeRow(w.committed, w.transactions[0], now);
    assert t.locked == {ExecutionRow(1)};
    assert t.writes.executions == map[1 := Session(Some(0), Some(now))];
  }

  lemma PublishesClose(now: Time, closedAt: Option<Time>)
    ensures Enabled(Closing(now, closedAt), Commit(0)) && Do(Closing(now, closedAt), Commit(0)) == Idle(now, Some(now))
  {
    var w' := Do(Closing(now, closedAt), Commit(0));
    assert w'.committed.executions == map[1 := Session(Some(0), Some(now))];
    assert w'.committed.threads == map[] && w'.committed.runs == map[];
    assert w'.transactions == map[];
  }

  lemma OnePass(now: Time, closedAt: Option<Time>)
    ensures Reaches(Idle(now, closedAt), Idle(now, Some(now)))
  {
    var end := Idle(now, Some(now));
    assert Possible(end, []) && After(end, []) == end;
    PublishesClose(now, closedAt);
    StepThenReach(Closing(now, closedAt), Commit(0), end);
    ClosesAgain(now, closedAt);
    StepThenReach(Finalizing(now, closedAt, Judged(OfExecution(1), now - 10, now - 10, {})), CloseScope(0), end);
    JudgesQuiet(now, closedAt);
    StepThenReach(Finalizing(now, closedAt, Reaping(OfExecution(1), now - 10, {})), JudgeLive(0), end);
    ListsNothing(now, closedAt);
    StepThenReach(Finalizing(now, closedAt, Reconciling(OfExecution(1), now - 10)), ListStale(0), end);
    BeginsReconcile(now, closedAt);
    StepThenReach(Idle(now, closedAt), BeginReconcile(0, OfExecution(1)), end);
  }

  /**
   Two close requests on one execution, both waiting for it to fall quiet: the first
   closes it at time 10, the second, whose own entry check is long past, at time 11.
   */
  lemma SecondFinalizerRestamps()
    ensures Init(Idle(10, None))
    ensures Reaches(Idle(10, None), Idle(10, Some(10))) && Reaches(Idle(10, Some(10)), Idle(11, Some(11)))
  {
    OnePass(10, None);
    OnePass(11, Some(10));
    assert Do(Idle(10, Some(10)), Tick(1)) == Idle(11, Some(10));
    StepThenReach(Idle(10, Some(10)), Tick(1), Idle(11, Some(11)));
  }
}
