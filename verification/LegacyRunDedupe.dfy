/**
 The migration that makes legacy run rows fit the protocol: one pass per execution, then
 one per thread key, each keeping the newest live row of every crowded group.
 */
module LegacyRunDedupe {
  import opened Common
  import opened RunTables
  import opened SessionProtocol

  datatype Column = ByExecution | ByThread

  function Key(run: Run, column: Column): Option<nat> {
    match column
    case ByExecution => Some(run.execution)
    case ByThread => run.thread
  }

  /** Live rows whose non-null key is `value`. */
  function Group(runs: map<RunId, Run>, column: Column, value: nat): set<RunId> {
    set r | r in runs && Live(runs[r]) && Key(runs[r], column) == Some(value)
  }

  /** GROUP BY the column HAVING COUNT(*) > 1. */
  function Crowded(runs: map<RunId, Run>, column: Column): set<nat> {
    set r | r in runs && Key(runs[r], column).Some? && |Group(runs, column, Key(runs[r], column).value)| > 1
      :: Key(runs[r], column).value
  }

  /** ORDER BY heartbeat_at DESC, started_at DESC: `a` may come before `b`. */
  predicate AsNew(a: Run, b: Run) {
    a.heartbeatAt > b.heartbeatAt || (a.heartbeatAt == b.heartbeatAt && a.startedAt >= b.startedAt)
  }

  function Terminalized(run: Run, now: Time): Run {
    run.(status := Completed, finishedAt := Some(now))
  }

  predicate Newest(runs: map<RunId, Run>, rows: set<RunId>, w: RunId) {
    w in rows && w in runs && forall r :: r in rows && r in runs ==> AsNew(runs[w], runs[r])
  }

  lemma {:induction false} NewestExists(runs: map<RunId, Run>, rows: set<RunId>)
    requires rows != {} && forall r :: r in rows ==> r in runs
    ensures exists w :: Newest(runs, rows, w)
    decreases |rows|
  {
    var r :| r in rows;
    var rest := rows - {r};
    if rest == {} {
      assert rows == {r};
      assert Newest(runs, rows, r);
    } else {
      NewestExists(runs, rest);
      var w :| Newest(runs, rest, w);
      assert Newest(runs, rows, if AsNew(runs[w], runs[r]) then w else r);
    }
  }

  /** What one pass does: every crowded group keeps exactly one of its newest rows; all else stands. */
  ghost predicate Deduped(before: map<RunId, Run>, after: map<RunId, Run>, column: Column, now: Time) {
    && after.Keys == before.Keys
    && (forall r :: r in before ==> after[r] == before[r] || Loses(before, after, column, now, r))
    && OneLivePerKey(after, column)
  }

  ghost predicate OneLivePerKey(runs: map<RunId, Run>, column: Column) {
    forall r1, r2 ::
      r1 in runs && r2 in runs && r1 != r2 && Live(runs[r1]) && Live(runs[r2]) && Key(runs[r1], column).Some?
      ==> Key(runs[r1], column) != Key(runs[r2], column)
  }

  /** `r` was terminalized in favour of a row of its group that is as new and survives the pass. */
  ghost predicate Loses(before: map<RunId, Run>, after: map<RunId, Run>, column: Column, now: Time, r: RunId)
    requires r in before && after.Keys == before.Keys
  {
    && Live(before[r]) && after[r] == Terminalized(before[r], now)
    && exists w :: w in before && w != r && Live(before[w]) && after[w] == before[w]
                   && Key(before[r], column).Some? && Key(before[w], column) == Key(before[r], column)
                   && AsNew(before[w], before[r])
  }

  function KeepOnly(runs: map<RunId, Run>, rows: set<RunId>, keep: RunId, now: Time): map<RunId, Run> {
    map r | r in runs :: if r in rows - {keep} then Terminalized(runs[r], now) else runs[r]
  }

  /** Between two groups of a pass: rows outside the finished groups stand, the others stand or lost. */
  ghost predicate Progress(before: map<RunId, Run>, runs: map<RunId, Run>, column: Column, now: Time, groups: set<nat>) {
    && runs.Keys == before.Keys
    && (forall r :: r in before ==> runs[r] == before[r] || Loses(before, runs, column, now, r))
    && (forall r :: r in before && Key(before[r], column).Some? && Key(before[r], column).value in groups
          ==> runs[r] == before[r])
  }

  /** What each turn of a pass keeps, `groups` being the crowded groups still to do. */
  ghost predicate InPass(before: map<RunId, Run>, runs: map<RunId, Run>, column: Column, now: Time, groups: set<nat>) {
    && groups <= Crowded(before, column)
    && Progress(before, runs, column, now, groups)
    && (forall v :: v in Crowded(before, column) - groups ==> |Group(runs, column, v)| <= 1)
  }

  class Migration {
    var runs: map<RunId, Run>

    /** UPDATE ... SET status = 'completed', finished_at for every row of the group but the kept one. */
    method TerminalizeRest(rest: set<RunId>, now: Time)
      requires forall r :: r in rest ==> r in runs && Live(runs[r])
      modifies this`runs
      ensures runs == map r | r in old(runs) :: if r in rest then Terminalized(old(runs)[r], now) else old(runs)[r]
    {
      var todo := rest;
      while todo != {}
        invariant todo <= rest
        invariant runs == map r | r in old(runs) ::
                            if r in rest - todo then Terminalized(old(runs)[r], now) else old(runs)[r]
        decreases todo
      {
        var r :| r in todo;
        runs := runs[r := Terminalized(runs[r], now)];
        todo := todo - {r};
      }
    }

    /** One crowded group: keep a newest row, terminalize the rest. */
    method DedupeGroup(column: Column, value: nat, now: Time) returns (keep: RunId)
      requires Group(runs, column, value) != {}
      modifies this`runs
      ensures runs.Keys == old(runs).Keys
      ensures keep in old(runs) && Live(old(runs)[keep]) && runs[keep] == old(runs)[keep]
      ensures forall r :: r in old(runs) && Live(old(runs)[r]) && Key(old(runs)[r], column) == Some(value) ==>
                old(runs)[r].heartbeatAt < old(runs)[keep].heartbeatAt
                || (old(runs)[r].heartbeatAt == old(runs)[keep].heartbeatAt && old(runs)[r].startedAt <= old(runs)[keep].startedAt)
      ensures forall r :: r in old(runs) ==>
                runs[r] == if r != keep && Live(old(runs)[r]) && Key(old(runs)[r], column) == Some(value)
                           then old(runs)[r].(status := Completed, finishedAt := Some(now)) else old(runs)[r]
      ensures Newest(old(runs), Group(old(runs), column, value), keep)
      ensures runs == KeepOnly(old(runs), Group(old(runs), column, value), keep, now)
    {
      var rows := Group(runs, column, value);
      NewestExists(runs, rows);
      keep :| Newest(runs, rows, keep);
      TerminalizeRest(rows - {keep}, now);
    }

    method DedupePass(column: Column, now: Time)
      modifies this`runs
      ensures Deduped(old(runs), runs, column, now)
    {
      var groups := Crowded(runs, column);
      ghost var before := runs;
      while groups != {}
        invariant InPass(before, runs, column, now, groups)
        decreases groups
      {
        var value :| value in groups;
        DedupeNext(column, value, now, before, groups);
        groups := groups - {value};
      }
      NoneCrowded(before, runs, column, now);
    }

    /** The body of a pass's loop. */
    method DedupeNext(column: Column, value: nat, now: Time, ghost before: map<RunId, Run>, ghost groups: set<nat>)
      requires InPass(before, runs, column, now, groups) && value in groups
      modifies this`runs
      ensures InPass(before, runs, column, now, groups - {value})
    {
      ghost var was := runs;
      CrowdedIsNonEmpty(before, was, column, now, value, groups);
      var keep := DedupeGroup(column, value, now);
      GroupStep(before, was, runs, column, now, value, groups, keep);
      GroupsShrink(was, runs, column, value, keep, now);
    }

    /** Both passes, executions first. */
    method DedupeActiveRuns(now: Time)
      modifies this`runs
      ensures UniqueLive(runs) && runs.Keys == old(runs).Keys
      ensures forall r :: r in old(runs) ==>
                runs[r] == old(runs)[r]
                || (Outranked(old(runs), r) && runs[r] == old(runs)[r].(status := Completed, finishedAt := Some(now)))
    {
      DedupePass(ByExecution, now);
      ghost var middle := runs;
      DedupePass(ByThread, now);
      SecondPassKeepsTheFirst(old(runs), middle, runs, now);
      TerminalizedWereOutranked(old(runs), middle, runs, now);
    }
  }

  /** A live row some other live row, at least as new, conflicts with. */
  ghost predicate Outranked(runs: map<RunId, Run>, r: RunId)
    requires r in runs
  {
    Live(runs[r]) && exists w :: w in runs && w != r && Live(runs[w]) && Conflict(runs[w], runs[r]) && AsNew(runs[w], runs[r])
  }

  lemma CardinalityOfSubset<T>(a: set<T>, b: set<T>)
    requires a <= b
    ensures |a| <= |b|
  {
    assert b == a + (b - a);
  }

  lemma CrowdedIsNonEmpty(before: map<RunId, Run>, runs: map<RunId, Run>, column: Column, now: Time,
                          value: nat, groups: set<nat>)
    requires Progress(before, runs, column, now, groups) && value in groups && value in Crowded(before, column)
    ensures Group(runs, column, value) == Group(before, column, value) != {}
  {
  }

  lemma GroupStep(before: map<RunId, Run>, was: map<RunId, Run>, runs: map<RunId, Run>, column: Column, now: Time,
                  value: nat, groups: set<nat>, keep: RunId)
    requires Progress(before, was, column, now, groups) && value in groups
    requires Newest(was, Group(was, column, value), keep)
    requires runs == KeepOnly(was, Group(was, column, value), keep, now)
    ensures Progress(before, runs, column, now, groups - {value})
  {
    var rows := Group(was, column, value);
    forall r | r in before && runs[r] != before[r] ensures Loses(before, runs, column, now, r) {
      if r in rows - {keep} {
        assert was[r] == before[r] && was[keep] == before[keep];
        assert runs[keep] == before[keep] && AsNew(before[keep], before[r]);
      } else {
        var w :| w in before && w != r && Live(before[w]) && was[w] == before[w]
                 && Key(before[r], column).Some? && Key(before[w], column) == Key(before[r], column)
                 && AsNew(before[w], before[r]);
        assert w !in rows;
        assert runs[w] == before[w];
      }
    }
  }

  lemma GroupsShrink(was: map<RunId, Run>, runs: map<RunId, Run>, column: Column, value: nat, keep: RunId, now: Time)
    requires keep in was && runs == KeepOnly(was, Group(was, column, value), keep, now)
    ensures |Group(runs, column, value)| <= 1
    ensures forall v :: |Group(runs, column, v)| <= |Group(was, column, v)|
  {
    assert Group(runs, column, value) <= {keep};
    CardinalityOfSubset(Group(runs, column, value), {keep});
    forall v ensures |Group(runs, column, v)| <= |Group(was, column, v)| {
      assert Group(runs, column, v) <= Group(was, column, v);
      CardinalityOfSubset(Group(runs, column, v), Group(was, column, v));
    }
  }

  lemma NoneCrowded(before: map<RunId, Run>, after: map<RunId, Run>, column: Column, now: Time)
    requires after.Keys == before.Keys
    requires forall r :: r in before ==> after[r] == before[r] || Loses(before, after, column, now, r)
    requires forall v :: v in Crowded(before, column) ==> |Group(after, column, v)| <= 1
    ensures OneLivePerKey(after, column)
  {
    forall r1, r2 | r1 in after && r2 in after && r1 != r2 && Live(after[r1]) && Live(after[r2])
                    && Key(after[r1], column).Some?
      ensures Key(after[r1], column) != Key(after[r2], column)
    {
      if Key(after[r1], column) == Key(after[r2], column) {
        var v := Key(after[r1], column).value;
        CardinalityOfSubset({r1, r2}, Group(before, column, v));
        assert v in Crowded(before, column);
        CardinalityOfSubset({r1, r2}, Group(after, column, v));
        assert false;
      }
    }
  }

  /** The thread pass only finishes rows, so at most one live row per execution is still all there is. */
  lemma SecondPassKeepsTheFirst(a: map<RunId, Run>, b: map<RunId, Run>, c: map<RunId, Run>, now: Time)
    requires Deduped(a, b, ByExecution, now) && Deduped(b, c, ByThread, now)
    ensures UniqueLive(c)
  {
    forall r1, r2 | r1 in c && r2 in c && r1 != r2 && Live(c[r1]) && Live(c[r2]) ensures !Conflict(c[r1], c[r2]) {
      assert c[r1] == b[r1] && c[r2] == b[r2];
      assert Key(b[r1], ByExecution) != Key(b[r2], ByExecution);
    }
  }

  lemma TerminalizedWereOutranked(a: map<RunId, Run>, b: map<RunId, Run>, c: map<RunId, Run>, now: Time)
    requires Deduped(a, b, ByExecution, now) && Deduped(b, c, ByThread, now)
    ensures c.Keys == a.Keys
    ensures forall r :: r in a ==> c[r] == a[r] || (Outranked(a, r) && c[r] == Terminalized(a[r], now))
  {
    forall r | r in a && c[r] != a[r] ensures Outranked(a, r) && c[r] == Terminalized(a[r], now) {
      if b[r] != a[r] {
        assert Loses(a, b, ByExecution, now, r);
      } else {
        assert Loses(b, c, ByThread, now, r);
      }
    }
  }

  /** A live row that conflicts with no other live row always survives the migration untouched. */
  lemma UnrivalledRunSurvives(before: map<RunId, Run>, middle: map<RunId, Run>, after: map<RunId, Run>,
                              now: Time, r: RunId)
    requires Deduped(before, middle, ByExecution, now) && Deduped(middle, after, ByThread, now)
    requires r in before && forall w :: w in before && w != r && Live(before[w]) ==> !Conflict(before[w], before[r])
    ensures r in after && after[r] == before[r]
  {
    TerminalizedWereOutranked(before, middle, after, now);
  }

  /**
   From the migration to the protocol. Rows the migration leaves, with legacy heartbeats in
   the past and every unfinished legacy run active or closing, are rows a deployment may start on.
   */
  lemma MigrationLeavesAStart(before: map<RunId, Run>, after: map<RunId, Run>, executions: map<ExecutionId, Session>,
                              threads: map<ThreadKey, Session>, at: Time, now: Time, claimStale: int, closeStale: nat)
    requires UniqueLive(after) && after.Keys == before.Keys
    requires forall r :: r in before ==>
               after[r] == before[r] || (Outranked(before, r) && after[r] == Terminalized(before[r], at))
    requires forall r :: r in before ==> before[r].heartbeatAt <= now && (before[r].finishedAt.None? ==> Live(before[r]))
    requires forall k :: k in threads && threads[k].closedAt.Some? ==> threads[k].closeRequestedAt.Some?
    ensures Init(World(Tables(executions, threads, after), map[], now, claimStale, closeStale))
  {
    forall r | r in after ensures RunPast(after[r], now) {
      assert r in before;
    }
  }
}
