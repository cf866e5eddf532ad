/**
 The run lifecycle service and the close finalizer as they execute inside one
 transaction: statements that update the tables in place, each clock reading a
 parameter. Interleaving with other transactions is the session protocol's subject.
 */
module RunLifecycle {
  import opened Common
  import opened RunTables

  datatype ClaimResult =
    | Claimed(run: RunId)
    | Conflicting                        // None: a rival run is live
    | NoExecution                        // None: no such row
    | SessionRejected(alreadyClosed: bool)  // RunClaimError: session_closed / session_closing

  datatype CloseStatus = CloseDone | CloseInProgress

  /** Ids of live runs in the scope whose heartbeat is older than `before`. */
  function StaleIds(runs: map<RunId, Run>, scope: Scope, before: Time): set<RunId> {
    set r | r in runs && Live(runs[r]) && InScope(runs[r], scope) && runs[r].heartbeatAt < before
  }

  function Older(runs: map<RunId, Run>, listed: set<RunId>, cutoff: Time): set<RunId> {
    set r | r in listed && r in runs && runs[r].heartbeatAt < cutoff
  }

  function Failing(runs: map<RunId, Run>, ids: set<RunId>, now: Time): map<RunId, Run> {
    map r | r in runs :: if r in ids then runs[r].(status := Failed, finishedAt := Some(now)) else runs[r]
  }

  /** Parents of the failed runs fail too, except the ones already completed. */
  function FailingParents(statuses: map<ExecutionId, ExecutionStatus>, runs: map<RunId, Run>, ids: set<RunId>)
    : map<ExecutionId, ExecutionStatus>
  {
    map e | e in statuses ::
      if statuses[e] != ExecutionCompleted && (exists r :: r in ids && r in runs && runs[r].execution == e)
      then ExecutionFailed else statuses[e]
  }

  /** Taking one listed run off the list. */
  lemma OneRunFewer(runs: map<RunId, Run>, listed: set<RunId>, cutoff: Time, todo: set<RunId>, r: RunId)
    requires r in todo && todo <= listed && r in runs
    ensures var ids := Older(runs, listed, cutoff);
            && r !in ids - todo
            && ids - (todo - {r}) == (if runs[r].heartbeatAt < cutoff then (ids - todo) + {r} else ids - todo)
            && |ids - (todo - {r})| == |ids - todo| + (if runs[r].heartbeatAt < cutoff then 1 else 0)
  {
    var ids := Older(runs, listed, cutoff);
    if runs[r].heartbeatAt < cutoff {
      assert ids - (todo - {r}) == (ids - todo) + {r};
    } else {
      assert ids - (todo - {r}) == ids - todo;
    }
  }

  /** Reaping, row by row: which run fails, and which execution with it. */
  lemma ReapedRowByRow(runs: map<RunId, Run>, statuses: map<ExecutionId, ExecutionStatus>, scope: Scope, before: Time, now: Time)
    ensures var ids := StaleIds(runs, scope, before); var reaped := Failing(runs, ids, now);
            && reaped.Keys == runs.Keys
            && (forall r :: r in runs ==>
                  reaped[r] == if runs[r].status in {Active, Closing} && runs[r].finishedAt == None && InScope(runs[r], scope)
                                  && runs[r].heartbeatAt < before
                               then runs[r].(status := Failed, finishedAt := Some(now)) else runs[r])
    ensures var parents := FailingParents(statuses, runs, StaleIds(runs, scope, before));
            && parents.Keys == statuses.Keys
            && (forall e :: e in statuses ==>
                  parents[e] == if statuses[e] != ExecutionCompleted
                                   && (exists r :: r in StaleIds(runs, scope, before) && r in runs && runs[r].execution == e)
                                then ExecutionFailed else statuses[e])
  {
  }

  lemma FailingNone(runs: map<RunId, Run>, statuses: map<ExecutionId, ExecutionStatus>, now: Time)
    ensures Failing(runs, {}, now) == runs && FailingParents(statuses, runs, {}) == statuses
  {
  }

  /** One more row: what a single conditional UPDATE adds to the rows already failed. */
  lemma FailingOneMore(runs: map<RunId, Run>, statuses: map<ExecutionId, ExecutionStatus>, done: set<RunId>,
                       r: RunId, now: Time)
    requires r in runs && r !in done
    ensures Failing(runs, done + {r}, now)
            == Failing(runs, done, now)[r := runs[r].(status := Failed, finishedAt := Some(now))]
    ensures forall e :: e in statuses ==>
              FailingParents(statuses, runs, done + {r})[e] ==
                if e == runs[r].execution && FailingParents(statuses, runs, done)[e] != ExecutionCompleted
                then ExecutionFailed else FailingParents(statuses, runs, done)[e]
  {
    forall e | e in statuses
      ensures FailingParents(statuses, runs, done + {r})[e] ==
                if e == runs[r].execution && FailingParents(statuses, runs, done)[e] != ExecutionCompleted
                then ExecutionFailed else FailingParents(statuses, runs, done)[e]
    {
      if e == runs[r].execution {
        assert r in done + {r};
      } else {
        assert (exists q :: q in done + {r} && q in runs && runs[q].execution == e)
          <==> (exists q :: q in done && q in runs && runs[q].execution == e);
      }
    }
  }

  function Rivals(runs: map<RunId, Run>, e: ExecutionId, thread: Option<ThreadKey>): set<RunId> {
    set r | r in runs && Live(runs[r]) && InClaim(runs[r], e, thread)
  }

  /** The runs after both staleness passes of a claim: the execution's, then the thread's. */
  function AfterClaimReaping(runs: map<RunId, Run>, e: ExecutionId, thread: Option<ThreadKey>,
                             executionCutoff: Time, threadCutoff: Time, now: Time): map<RunId, Run> {
    var first := Failing(runs, StaleIds(runs, OfExecution(e), executionCutoff), now);
    if thread.None? then first
    else Failing(first, StaleIds(first, OfThread(thread.value), threadCutoff), now)
  }

  /** The parent executions after the same two passes. */
  function ParentsAfterClaimReaping(statuses: map<ExecutionId, ExecutionStatus>, runs: map<RunId, Run>, e: ExecutionId,
                                    thread: Option<ThreadKey>, executionCutoff: Time, threadCutoff: Time, now: Time)
    : map<ExecutionId, ExecutionStatus>
  {
    var ids := StaleIds(runs, OfExecution(e), executionCutoff);
    var first, parents := Failing(runs, ids, now), FailingParents(statuses, runs, ids);
    if thread.None? then parents
    else FailingParents(parents, first, StaleIds(first, OfThread(thread.value), threadCutoff))
  }

  class RunLifecycleService {
    var executions: map<ExecutionId, Session>
    var statuses: map<ExecutionId, ExecutionStatus>
    var threads: map<ThreadKey, Session>
    var runs: map<RunId, Run>

    method HeartbeatRun(r: RunId, now: Time) returns (beaten: bool)
      modifies this`runs
      ensures beaten == (r in old(runs) && Live(old(runs)[r]))
      ensures runs == if beaten then old(runs)[r := old(runs)[r].(heartbeatAt := now)] else old(runs)
    {
      beaten := r in runs && Live(runs[r]);
      if beaten {
        runs := runs[r := runs[r].(heartbeatAt := now)];
      }
    }

    method FinishRun(r: RunId, status: RunStatus, now: Time, before: Option<Time>,
                     preserveCompleted: bool, updateExecution: bool) returns (finished: bool)
      modifies this`runs, this`statuses
      ensures finished == (r in old(runs) && old(runs)[r].finishedAt.None?
                           && (before.Some? ==> old(runs)[r].heartbeatAt < before.value))
      ensures runs == if finished then old(runs)[r := old(runs)[r].(status := status, finishedAt := Some(now))] else old(runs)
      ensures statuses.Keys == old(statuses).Keys
      ensures forall e :: e in statuses ==>
                statuses[e] ==
                  if !finished || !updateExecution || e != old(runs)[r].execution then old(statuses)[e]
                  else if status == RunStatus.Completed then ExecutionCompleted
                  else if status == Failed && !(preserveCompleted && old(statuses)[e] == ExecutionCompleted)
                  then ExecutionFailed
                  else old(statuses)[e]
    {
      finished := r in runs && runs[r].finishedAt.None? && (before.Some? ==> runs[r].heartbeatAt < before.value);
      if !finished {
        return;
      }
      var e := runs[r].execution;
      runs := runs[r := runs[r].(status := status, finishedAt := Some(now))];
      if updateExecution && e in statuses {
        if status == RunStatus.Completed {
          statuses := statuses[e := ExecutionCompleted];
        } else if status == Failed {
          if !preserveCompleted || statuses[e] != ExecutionCompleted {
            statuses := statuses[e := ExecutionFailed];
          }
        }
      }
    }

    /**
     The cutoff is read before the listing reads the clock again; a run listed only by
     the later reading fails the update's own heartbeat test. `count` is the rows updated.
     */
    method MarkStaleRunsFailed(scope: Scope, stale: int, cutoffAt: Time, listedAt: Time, now: Time)
      returns (count: nat)
      requires cutoffAt <= listedAt
      modifies this`runs, this`statuses
      ensures var ids := StaleIds(old(runs), scope, cutoffAt - stale);
              count == |ids| && runs == Failing(old(runs), ids, now)
              && statuses == FailingParents(old(statuses), old(runs), ids)
    {
      var listed := StaleIds(runs, scope, listedAt - stale);
      count := FailEach(listed, cutoffAt - stale, now);
      assert Older(old(runs), listed, cutoffAt - stale) == StaleIds(old(runs), scope, cutoffAt - stale);
    }

    /** The loop over the listed runs, shared by every reaper. */
    method FailEach(listed: set<RunId>, cutoff: Time, now: Time) returns (count: nat)
      requires forall r :: r in listed ==> r in runs && Live(runs[r])
      modifies this`runs, this`statuses
      ensures var ids := Older(old(runs), listed, cutoff);
              count == |ids| && runs == Failing(old(runs), ids, now)
              && statuses == FailingParents(old(statuses), old(runs), ids)
    {
      var todo := listed;
      ghost var before, parents := runs, statuses;
      ghost var ids := Older(before, listed, cutoff);
      count := 0;
      assert ids - todo == {};
      FailingNone(runs, statuses, now);
      while todo != {}
        invariant todo <= listed
        invariant runs == Failing(before, ids - todo, now)
        invariant statuses == FailingParents(parents, before, ids - todo)
        invariant count == |ids - todo|
        decreases todo
      {
        var r :| r in todo;
        OneRunFewer(before, listed, cutoff, todo, r);
        var finished := FailListed(r, cutoff, now, before, parents, ids - todo);
        todo := todo - {r};
        if finished {
          count := count + 1;
        }
      }
      assert ids - {} == ids;
    }

    /** The loop body: one conditional finish, in terms of the rows failed so far. */
    method FailListed(r: RunId, cutoff: Time, now: Time, ghost before: map<RunId, Run>,
                      ghost parents: map<ExecutionId, ExecutionStatus>, ghost done: set<RunId>)
      returns (finished: bool)
      requires r in before && r !in done && Live(before[r])
      requires runs == Failing(before, done, now) && statuses == FailingParents(parents, before, done)
      modifies this`runs, this`statuses
      ensures finished <==> before[r].heartbeatAt < cutoff
      ensures runs == Failing(before, if finished then done + {r} else done, now)
      ensures statuses == FailingParents(parents, before, if finished then done + {r} else done)
    {
      FailingOneMore(before, parents, done, r, now);
      finished := FinishRun(r, Failed, now, Some(cutoff), true, true);
    }

    /**
     A claim under both row locks. It is refused exactly for a missing row, a session
     that is closing, or a rival whose heartbeat is within the bound.
     */
    method TryCreateActiveRun(e: ExecutionId, thread: Option<ThreadKey>, r: RunId, stale: int,
                              executionCutoffAt: Time, threadCutoffAt: Time, now: Time)
      returns (result: ClaimResult)
      requires r !in runs && executionCutoffAt <= threadCutoffAt <= now
      modifies this`runs, this`statuses, this`threads
      ensures result.NoExecution? <==> e !in executions
      ensures result.SessionRejected? <==>
                e in executions
                && (!IsOpen(executions[e])
                    || (thread.Some? && thread.value in old(threads) && !IsOpen(old(threads)[thread.value])))
      ensures result.SessionRejected? ==>
                (result.alreadyClosed <==>
                   if !IsOpen(executions[e]) then executions[e].closedAt.Some?
                   else old(threads)[thread.value].closedAt.Some?)
      ensures result.NoExecution? || result.SessionRejected? ==> runs == old(runs) && statuses == old(statuses)
      ensures result.Claimed? || result.Conflicting? ==>
                var reaped := AfterClaimReaping(old(runs), e, thread,
                                                executionCutoffAt - stale, threadCutoffAt - stale, now);
                && (result.Claimed? <==> Rivals(reaped, e, thread) == {})
                && runs == if result.Claimed?
                           then reaped[r := Run(e, thread, Active, now, None, now, None)] else reaped
      ensures result.Claimed? || result.Conflicting? ==>
                statuses == ParentsAfterClaimReaping(old(statuses), old(runs), e, thread, executionCutoffAt - stale,
                                                     threadCutoffAt - stale, now)
      ensures result.Claimed? ==> result.run == r
      ensures forall k :: k in old(threads) ==> k in threads && threads[k] == old(threads)[k]
      ensures forall k :: k in threads && k !in old(threads) ==> thread == Some(k) && IsOpen(threads[k])
      ensures (result.Claimed? || result.Conflicting?) && thread.Some? ==> thread.value in threads
    {
      if e !in executions {
        return NoExecution;
      }
      if !IsOpen(executions[e]) {
        return SessionRejected(executions[e].closedAt.Some?);
      }
      if thread.Some? {
        if thread.value !in threads {
          threads := threads[thread.value := OPEN_SESSION];
        }
        if !IsOpen(threads[thread.value]) {
          return SessionRejected(threads[thread.value].closedAt.Some?);
        }
      }
      var _ := MarkStaleRunsFailed(OfExecution(e), stale, executionCutoffAt, now, now);
      if thread.Some? {
        var _ := MarkStaleRunsFailed(OfThread(thread.value), stale, threadCutoffAt, now, now);
      }
      if Rivals(runs, e, thread) != {} {
        return Conflicting;
      }
      runs := runs[r := Run(e, thread, Active, now, None, now, None)];
      return Claimed(r);
    }

    /**
     Reap, judge, clean up, close one execution. `cleanup` is whatever deleting the
     runtime and workspace reported.
     */
    method FinalizeExecutionIfReady(e: ExecutionId, stale: nat, reapAt: Time, listAt: Time, judgeAt: Time,
                                    cleanup: bool) returns (status: CloseStatus)
      requires reapAt <= listAt <= judgeAt
      requires e in executions <==> e in statuses
      modifies this`executions, this`statuses, this`runs
      ensures executions.Keys == old(executions).Keys
      ensures forall e2 :: e2 in executions && e2 != e ==> executions[e2] == old(executions)[e2]
      ensures e !in old(executions) || old(executions)[e].closeRequestedAt.None? ==>
                status == CloseDone && runs == old(runs) && executions == old(executions) && statuses == old(statuses)
      ensures e in old(executions) && old(executions)[e].closeRequestedAt.Some? ==>
                var reaped := Failing(old(runs), StaleIds(old(runs), OfExecution(e), reapAt - stale), judgeAt);
                var quiet := NonStale(reaped, OfExecution(e), judgeAt - stale) == {};
                && runs == reaped
                && (if old(executions)[e].closedAt.Some?
                    then executions == old(executions) && (status == CloseDone <==> cleanup)
                    else (status == CloseDone <==> quiet && cleanup)
                         && executions[e] == (if quiet && cleanup
                                              then old(executions)[e].(closedAt := Some(judgeAt))
                                              else old(executions)[e]))
      ensures e in old(executions) && old(executions)[e].closeRequestedAt.Some? ==>
                var ids := StaleIds(old(runs), OfExecution(e), reapAt - stale);
                var parents := FailingParents(old(statuses), old(runs), ids);
                var quiet := NonStale(runs, OfExecution(e), judgeAt - stale) == {};
                statuses == if old(executions)[e].closedAt.None? && quiet && parents[e] != ExecutionCompleted
                            then parents[e := ExecutionFailed] else parents
    {
      if e !in executions || executions[e].closeRequestedAt.None? {
        return CloseDone;
      }
      if executions[e].closedAt.Some? {
        var _ := MarkStaleRunsFailed(OfExecution(e), stale, reapAt, listAt, judgeAt);
        return if cleanup then CloseDone else CloseInProgress;
      }
      var _ := MarkStaleRunsFailed(OfExecution(e), stale, reapAt, listAt, judgeAt);
      if NonStale(runs, OfExecution(e), judgeAt - stale) != {} {
        return CloseInProgress;
      }
      if statuses[e] != ExecutionCompleted {
        statuses := statuses[e := ExecutionFailed];
      }
      if !cleanup {
        return CloseInProgress;
      }
      executions := executions[e := executions[e].(closedAt := Some(judgeAt))];
      return CloseDone;
    }

    /**
     Reap, judge and close one thread: its members first, each once its own cleanup is
     complete, then the runtime, then the thread itself. `members` are the thread's
     executions as listed, `cleaned` those whose sandbox cleanup reports completion.
     */
    method FinalizeThreadIfReady(k: ThreadKey, stale: nat, reapAt: Time, listAt: Time, judgeAt: Time,
                                 members: seq<ExecutionId>, agui: set<ExecutionId>, cleaned: set<ExecutionId>,
                                 runtimeDeleted: bool) returns (status: CloseStatus)
      requires reapAt <= listAt <= judgeAt
      requires executions.Keys == statuses.Keys && forall e :: e in members ==> e in executions
      modifies this`executions, this`statuses, this`threads, this`runs
      ensures k !in old(threads) || old(threads)[k].closeRequestedAt.None? ==>
                status == CloseDone && runs == old(runs) && executions == old(executions)
                && statuses == old(statuses) && threads == old(threads)
      ensures k in old(threads) && old(threads)[k].closeRequestedAt.Some? ==>
                var ids := StaleIds(old(runs), OfThread(k), reapAt - stale);
                var parents := FailingParents(old(statuses), old(runs), ids);
                var quiet := NonStale(runs, OfThread(k), judgeAt - stale) == {};
                var owned := Members(members, agui);
                && runs == Failing(old(runs), ids, judgeAt)
                && (if old(threads)[k].closedAt.Some? || !quiet then
                      executions == old(executions) && statuses == parents && threads == old(threads)
                    else
                      && executions == MembersClosed(old(executions), owned * cleaned, judgeAt)
                      && statuses == MembersFailed(parents, old(executions), owned)
                      && threads == (if status == CloseDone
                                     then old(threads)[k := old(threads)[k].(closedAt := Some(judgeAt))] else old(threads)))
                && (status == CloseDone <==>
                    (old(threads)[k].closedAt.Some? || quiet) && owned <= cleaned && runtimeDeleted)
    {
      if k !in threads || threads[k].closeRequestedAt.None? {
        return CloseDone;
      }
      var _ := MarkStaleRunsFailed(OfThread(k), stale, reapAt, listAt, judgeAt);
      if threads[k].closedAt.Some? {
        var cleanedUp := CleanMembers(members, agui, cleaned);
        return if cleanedUp && runtimeDeleted then CloseDone else CloseInProgress;
      }
      if NonStale(runs, OfThread(k), judgeAt - stale) != {} {
        return CloseInProgress;
      }
      var complete := CloseMembers(members, agui, cleaned, judgeAt);
      if !complete || !runtimeDeleted {
        return CloseInProgress;
      }
      threads := threads[k := threads[k].(closedAt := Some(judgeAt))];
      return CloseDone;
    }

    /** The loop over member executions; a member whose cleanup fails is passed over, not waited for. */
    method CloseMembers(members: seq<ExecutionId>, agui: set<ExecutionId>, cleaned: set<ExecutionId>, now: Time)
      returns (complete: bool)
      requires executions.Keys == statuses.Keys && forall e :: e in members ==> e in executions
      modifies this`executions, this`statuses
      ensures complete <==> Members(members, agui) <= cleaned
      ensures executions == MembersClosed(old(executions), Members(members, agui) * cleaned, now)
      ensures statuses == MembersFailed(old(statuses), old(executions), Members(members, agui))
    {
      complete := true;
      ghost var before, failing := executions, statuses;
      NoMembers(executions, statuses, now);
      assert Members(members[..0], agui) * cleaned == {};
      for n := 0 to |members|
        invariant executions == MembersClosed(before, Members(members[..n], agui) * cleaned, now)
        invariant statuses == MembersFailed(failing, before, Members(members[..n], agui))
        invariant complete <==> Members(members[..n], agui) <= cleaned
      {
        OneMemberMore(before, failing, members, agui, cleaned, n, now);
        if members[n] in agui {
          var cleanedUp := CloseMember(members[n], cleaned, now);
          complete := complete && cleanedUp;
        }
      }
      assert members[..|members|] == members;
    }

    /** The loop body for a member that came in through the thread's own protocol. */
    method CloseMember(e: ExecutionId, cleaned: set<ExecutionId>, now: Time) returns (cleanedUp: bool)
      requires e in executions && e in statuses
      modifies this`executions, this`statuses
      ensures cleanedUp <==> e in cleaned
      ensures statuses == if old(executions)[e].closedAt.None? && old(statuses)[e] != ExecutionCompleted
                          then old(statuses)[e := ExecutionFailed] else old(statuses)
      ensures executions == if old(executions)[e].closedAt.None? && e in cleaned
                            then old(executions)[e := old(executions)[e].(closedAt := Some(now))] else old(executions)
    {
      if executions[e].closedAt.None? && statuses[e] != ExecutionCompleted {
        statuses := statuses[e := ExecutionFailed];
      }
      if e !in cleaned {
        return false;
      }
      if executions[e].closedAt.None? {
        executions := executions[e := executions[e].(closedAt := Some(now))];
      }
      return true;
    }

    /** The same walk for a thread closed before: cleanup is tried again, no row changes. */
    method CleanMembers(members: seq<ExecutionId>, agui: set<ExecutionId>, cleaned: set<ExecutionId>) returns (complete: bool)
      ensures complete <==> Members(members, agui) <= cleaned
    {
      complete := true;
      for n := 0 to |members|
        invariant complete <==> Members(members[..n], agui) <= cleaned
      {
        assert members[..n + 1] == members[..n] + [members[n]];
        if members[n] in agui && members[n] !in cleaned {
          complete := false;
        }
      }
      assert members[..|members|] == members;
    }
  }

  // ------------------------------------------------------------------ member executions of a thread

  /** The listed executions that came in through the thread's own protocol. */
  function Members(members: seq<ExecutionId>, agui: set<ExecutionId>): set<ExecutionId> {
    set e | e in members && e in agui
  }

  /** Exactly these, if still open, get a close timestamp. */
  function MembersClosed(executions: map<ExecutionId, Session>, closing: set<ExecutionId>, now: Time): map<ExecutionId, Session> {
    map e | e in executions ::
      if e in closing && executions[e].closedAt.None? then executions[e].(closedAt := Some(now)) else executions[e]
  }

  /** Every open member that has not completed fails, cleaned or not. */
  function MembersFailed(statuses: map<ExecutionId, ExecutionStatus>, executions: map<ExecutionId, Session>, owned: set<ExecutionId>)
    : map<ExecutionId, ExecutionStatus>
  {
    map e | e in statuses ::
      if e in owned && e in executions && executions[e].closedAt.None? && statuses[e] != ExecutionCompleted
      then ExecutionFailed else statuses[e]
  }

  lemma NoMembers(executions: map<ExecutionId, Session>, statuses: map<ExecutionId, ExecutionStatus>, now: Time)
    ensures MembersClosed(executions, {}, now) == executions && MembersFailed(statuses, executions, {}) == statuses
  {
  }

  /** What the loop body adds, in terms of the rows as it finds them. */
  lemma OneMemberMore(executions: map<ExecutionId, Session>, statuses: map<ExecutionId, ExecutionStatus>, members: seq<ExecutionId>,
                      agui: set<ExecutionId>, cleaned: set<ExecutionId>, n: nat, now: Time)
    requires n < |members| && members[n] in executions && members[n] in statuses
    ensures var e, owned, owned' := members[n], Members(members[..n], agui), Members(members[..n + 1], agui);
            var rows, found := MembersClosed(executions, owned * cleaned, now), MembersFailed(statuses, executions, owned);
            && (e !in agui ==> owned' == owned)
            && (owned' <= cleaned <==> owned <= cleaned && (e in agui ==> e in cleaned))
            && (e in agui ==>
                && MembersFailed(statuses, executions, owned')
                   == (if rows[e].closedAt.None? && found[e] != ExecutionCompleted then found[e := ExecutionFailed] else found)
                && MembersClosed(executions, owned' * cleaned, now)
                   == (if rows[e].closedAt.None? && e in cleaned then rows[e := rows[e].(closedAt := Some(now))] else rows))
  {
    var e, owned := members[n], Members(members[..n], agui);
    assert members[..n + 1] == members[..n] + [e];
    assert Members(members[..n + 1], agui) == owned + (if e in agui then {e} else {});
  }

  /** list_non_stale_active_runs. */
  function NonStale(runs: map<RunId, Run>, scope: Scope, cutoff: Time): set<RunId> {
    set r | r in runs && Live(runs[r]) && InScope(runs[r], scope) && runs[r].heartbeatAt >= cutoff
  }

  /** Two passes leave as rivals exactly the live runs in the claim whose heartbeat is within the bound. */
  lemma RivalsAreTheFreshOnes(runs: map<RunId, Run>, e: ExecutionId, thread: Option<ThreadKey>,
                              executionCutoff: Time, threadCutoff: Time, now: Time, r: RunId)
    requires executionCutoff <= threadCutoff
    ensures r in Rivals(AfterClaimReaping(runs, e, thread, executionCutoff, threadCutoff, now), e, thread) <==>
              r in Rivals(runs, e, thread)
              && (runs[r].execution == e ==> runs[r].heartbeatAt >= executionCutoff)
              && (thread.Some? && runs[r].thread == thread ==> runs[r].heartbeatAt >= threadCutoff)
  {
    var first := Failing(runs, StaleIds(runs, OfExecution(e), executionCutoff), now);
    if thread.Some? && r in runs {
      assert r in StaleIds(first, OfThread(thread.value), threadCutoff) <==>
               Live(first[r]) && first[r].thread == thread && first[r].heartbeatAt < threadCutoff;
    }
  }

  /** A crashed run stops blocking once its staleness bound has passed: then only fresher rivals can. */
  lemma CrashedRunDoesNotBlock(runs: map<RunId, Run>, e: ExecutionId, thread: Option<ThreadKey>,
                               stale: int, executionCutoffAt: Time, threadCutoffAt: Time, now: Time, crashed: RunId)
    requires executionCutoffAt <= threadCutoffAt && crashed in runs
    requires runs[crashed].heartbeatAt + stale < executionCutoffAt
    ensures crashed !in Rivals(AfterClaimReaping(runs, e, thread, executionCutoffAt - stale,
                                                 threadCutoffAt - stale, now), e, thread)
  {
    RivalsAreTheFreshOnes(runs, e, thread, executionCutoffAt - stale, threadCutoffAt - stale, now, crashed);
  }

  /** A granted claim keeps uniqueness: reaping only finishes runs and the newcomer has no rival. */
  lemma ClaimKeepsUnique(runs: map<RunId, Run>, e: ExecutionId, thread: Option<ThreadKey>,
                         executionCutoff: Time, threadCutoff: Time, now: Time, r: RunId)
    requires UniqueLive(runs) && r !in runs
    requires Rivals(AfterClaimReaping(runs, e, thread, executionCutoff, threadCutoff, now), e, thread) == {}
    ensures UniqueLive(AfterClaimReaping(runs, e, thread, executionCutoff, threadCutoff, now)
                       [r := Run(e, thread, Active, now, None, now, None)])
  {
    var reaped := AfterClaimReaping(runs, e, thread, executionCutoff, threadCutoff, now);
    var after := reaped[r := Run(e, thread, Active, now, None, now, None)];
    forall r1, r2 | r1 in after && r2 in after && r1 != r2 && Live(after[r1]) && Live(after[r2])
      ensures !Conflict(after[r1], after[r2])
    {
      if r1 != r && r2 != r {
        assert Live(runs[r1]) && Live(runs[r2]);
      } else {
        assert (if r1 == r then r2 else r1) !in Rivals(reaped, e, thread);
      }
    }
  }

  /** When the finalizer finds nothing blocking, what is still live is exactly what fell between its two cutoffs. */
  lemma QuietLeavesOnlyTheGap(runs: map<RunId, Run>, scope: Scope, cutoff: Time, liveCutoff: Time, now: Time, r: RunId)
    requires var reaped := Failing(runs, StaleIds(runs, scope, cutoff), now);
             NonStale(reaped, scope, liveCutoff) == {} && r in runs && InScope(runs[r], scope)
    ensures var reaped := Failing(runs, StaleIds(runs, scope, cutoff), now);
            Live(reaped[r]) <==> Live(runs[r]) && cutoff <= runs[r].heartbeatAt < liveCutoff
  {
    var reaped := Failing(runs, StaleIds(runs, scope, cutoff), now);
    assert r !in NonStale(reaped, scope, liveCutoff);
  }
}
