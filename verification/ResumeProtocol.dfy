/**
 Orchestrator execute and resume as workers whose settlement is spread over several
 transactions, interleaved with rival requests, stale-claim recovery, reaping, crashes
 and discards. The promise: an execution that says it awaits a response has a hold a
 caller can resume.
 */
module ResumeProtocol {
  import opened Common
  import opened HoldTable

  type WorkerId = nat

  /** Where a request's worker stands between two of its transactions. */
  datatype Stage =
    | Executing
    | Resuming(hold: HoldId)                 // claim and run committed, segment running
    | Saved(hold: HoldId)                    // the next hold persisted, the claim not yet completed
    | RestoringHold(hold: HoldId)            // finally block: give the claim back
    | RestoringExecution(hold: HoldId)       // finally block: execution back to awaiting
    | Finalizing                             // claim completed, result not yet recorded
    | Finishing                              // only the run's own finish is left

  datatype Worker = Worker(execution: ExecutionId, stage: Stage, running: bool, crashed: bool)

  datatype System = System(
    executions: map<ExecutionId, ExecutionStatus>,
    holds: map<HoldId, Hold>,
    workers: map<WorkerId, Worker>)

  datatype Action =
    | StartExecute(worker: WorkerId, execution: ExecutionId)
    | StartResume(worker: WorkerId, execution: ExecutionId, hold: HoldId)
    | RecoverStale(holds: set<HoldId>)
    | Abandon(holds: set<HoldId>)
    | Reap(worker: WorkerId)
    | Crash(worker: WorkerId)
    | Cancelled(worker: WorkerId)
    | ExecuteFails(worker: WorkerId)
    | ExecuteAwaits(worker: WorkerId, newHold: HoldId)
    | ExecuteSucceeds(worker: WorkerId)
    | ResumeFails(worker: WorkerId)
    | ResumeAwaits(worker: WorkerId, newHold: HoldId)
    | CompleteSaved(worker: WorkerId, restoredInVain: bool)
    | ResumeSucceeds(worker: WorkerId)
    | RestoreHold(worker: WorkerId)
    | RestoreExecution(worker: WorkerId)
    | Finalize(worker: WorkerId)
    | FinishRun(worker: WorkerId)

  function StatusOf(s: System, h: HoldId): HoldStatus
    requires h in s.holds
  {
    s.holds[h].status
  }

  /** try_create_active_run's conflict check. */
  ghost predicate NoLiveRun(s: System, e: ExecutionId) {
    forall w :: w in s.workers && s.workers[w].execution == e ==> !s.workers[w].running
  }

  predicate HasHold(stage: Stage) {
    stage.Resuming? || stage.Saved? || stage.RestoringHold? || stage.RestoringExecution?
  }

  /** The worker's process is alive and its rows exist. */
  ghost predicate InStage(s: System, w: WorkerId) {
    w in s.workers && !s.workers[w].crashed && s.workers[w].execution in s.executions
    && (HasHold(s.workers[w].stage) ==> s.workers[w].stage.hold in s.holds)
  }

  ghost predicate Enabled(s: System, a: Action) {
    match a
    case StartExecute(w, e) => w !in s.workers && e in s.executions && NoLiveRun(s, e)
    case StartResume(w, e, h) =>
      w !in s.workers && e in s.executions && NoLiveRun(s, e)
      && h in s.holds && s.holds[h].execution == e && StatusOf(s, h).AwaitingResponse?
    case RecoverStale(hs) => forall h :: h in hs ==> h in s.holds && StatusOf(s, h).Pending?
    case Abandon(hs) => forall h :: h in hs ==> h in s.holds && Active(StatusOf(s, h))
    case Reap(w) => w in s.workers && s.workers[w].running
    case Crash(w) => w in s.workers
    case Cancelled(w) => InStage(s, w) && (s.workers[w].stage.Executing? || s.workers[w].stage.Resuming?)
    case ExecuteFails(w) => InStage(s, w) && s.workers[w].stage.Executing?
    case ExecuteAwaits(w, n) => InStage(s, w) && s.workers[w].stage.Executing? && n !in s.holds
    case ExecuteSucceeds(w) => InStage(s, w) && s.workers[w].stage.Executing?
    case ResumeFails(w) => InStage(s, w) && s.workers[w].stage.Resuming?
    case ResumeAwaits(w, n) => InStage(s, w) && s.workers[w].stage.Resuming? && n !in s.holds
    case CompleteSaved(w, _) => InStage(s, w) && s.workers[w].stage.Saved?
    case ResumeSucceeds(w) => InStage(s, w) && s.workers[w].stage.Resuming?
    case RestoreHold(w) => InStage(s, w) && s.workers[w].stage.RestoringHold?
    case RestoreExecution(w) => InStage(s, w) && s.workers[w].stage.RestoringExecution?
    case Finalize(w) => InStage(s, w) && s.workers[w].stage.Finalizing?
    // from any stage: a statement that fails skips to the run's own finish
    case FinishRun(w) => w in s.workers && !s.workers[w].crashed
  }

  function SetStatus(s: System, h: HoldId, status: HoldStatus): System
    requires h in s.holds
  {
    s.(holds := s.holds[h := s.holds[h].(status := status)])
  }

  function SetExecution(s: System, e: ExecutionId, status: ExecutionStatus): System {
    s.(executions := s.executions[e := status])
  }

  function ToStage(s: System, w: WorkerId, stage: Stage): System
    requires w in s.workers
  {
    s.(workers := s.workers[w := s.workers[w].(stage := stage)])
  }

  function WithAll(s: System, hs: set<HoldId>, status: HoldStatus): System {
    s.(holds := map h | h in s.holds :: if h in hs then s.holds[h].(status := status) else s.holds[h])
  }

  /** Parents of discarded holds that were awaiting a response fail in the same transaction. */
  function FailParents(s: System, hs: set<HoldId>): System {
    s.(executions := map e | e in s.executions ::
         if s.executions[e].Awaiting? && (exists h :: h in hs && h in s.holds && s.holds[h].execution == e)
         then ExecutionFailed else s.executions[e])
  }

  ghost function Do(s: System, a: Action): System
    requires Enabled(s, a)
  {
    match a
    case StartExecute(w, e) =>
      SetExecution(s.(workers := s.workers[w := Worker(e, Executing, true, false)]), e, Running)
    case StartResume(w, e, h) =>
      SetExecution(SetStatus(s, h, Pending).(workers := s.workers[w := Worker(e, Resuming(h), true, false)]), e, Running)
    case RecoverStale(hs) => WithAll(s, hs, AwaitingResponse)
    case Abandon(hs) => FailParents(WithAll(s, hs, Discarded), hs)
    case Reap(w) =>
      var e := s.workers[w].execution;
      var s' := s.(workers := s.workers[w := s.workers[w].(running := false)]);
      if e in s.executions && !s.executions[e].ExecutionCompleted? then SetExecution(s', e, ExecutionFailed) else s'
    case Crash(w) => s.(workers := s.workers[w := s.workers[w].(crashed := true)])
    case Cancelled(w) => ToStage(s, w, Finishing)
    case ExecuteFails(w) => SetExecution(ToStage(s, w, Finishing), s.workers[w].execution, NotStarted)
    case ExecuteAwaits(w, n) => PersistAwaiting(s, w, n, Finishing)
    case ExecuteSucceeds(w) => SetExecution(ToStage(s, w, Finishing), s.workers[w].execution, ExecutionCompleted)
    case ResumeFails(w) => ToStage(s, w, RestoringHold(s.workers[w].stage.hold))
    case ResumeAwaits(w, n) => PersistAwaiting(s, w, n, Saved(s.workers[w].stage.hold))
    case CompleteSaved(w, restoredInVain) =>
      var h := s.workers[w].stage.hold;
      if StatusOf(s, h).Pending? then SetStatus(ToStage(s, w, Finishing), h, Completed)
      // the HTTP error leaves the session block, so the rollback statements roll back too
      else if restoredInVain then ToStage(s, w, RestoringExecution(h))
      else ToStage(s, w, RestoringHold(h))
    case ResumeSucceeds(w) =>
      var h := s.workers[w].stage.hold;
      if StatusOf(s, h).Pending? then SetStatus(ToStage(s, w, Finalizing), h, Completed)
      else ToStage(s, w, RestoringHold(h))
    case RestoreHold(w) =>
      var h := s.workers[w].stage.hold;
      var s' := ToStage(s, w, RestoringExecution(h));
      if StatusOf(s, h).Pending? then SetStatus(s', h, AwaitingResponse) else s'
    case RestoreExecution(w) => SetExecution(ToStage(s, w, Finishing), s.workers[w].execution, Awaiting)
    case Finalize(w) => SetExecution(ToStage(s, w, Finishing), s.workers[w].execution, ExecutionCompleted)
    case FinishRun(w) => s.(workers := s.workers - {w})
  }

  /** _persist_awaiting: the new hold and the execution's status in one transaction. */
  function PersistAwaiting(s: System, w: WorkerId, n: HoldId, next: Stage): System
    requires w in s.workers
  {
    var e := s.workers[w].execution;
    SetExecution(ToStage(s, w, next).(holds := s.holds[n := Hold(e, None, AwaitingResponse, 0)]), e, Awaiting)
  }

  // ------------------------------------------------------------------ what each transaction records

  /** Which status each transaction leaves on its execution; every other execution stands, but for abandoned parents. */
  lemma StatusesRecorded(s: System, a: Action)
    requires Enabled(s, a)
    ensures var after := Do(s, a).executions;
            && (a.StartExecute? || a.StartResume? ==> after == s.executions[a.execution := Running])
            && (a.ExecuteFails? ==> after == s.executions[s.workers[a.worker].execution := NotStarted])
            && (a.ExecuteSucceeds? || a.Finalize? ==> after == s.executions[s.workers[a.worker].execution := ExecutionCompleted])
            && (a.ExecuteAwaits? || a.ResumeAwaits? || a.RestoreExecution? ==>
                  after == s.executions[s.workers[a.worker].execution := Awaiting])
            && (a.RecoverStale? || a.Crash? || a.Cancelled? || a.ResumeFails? ==> after == s.executions)
            && (a.CompleteSaved? || a.ResumeSucceeds? || a.RestoreHold? || a.FinishRun? ==> after == s.executions)
  {
  }

  lemma FailuresRecorded(s: System, a: Action, e: ExecutionId)
    requires Enabled(s, a) && (a.Reap? || a.Abandon?) && e in s.executions
    ensures e in Do(s, a).executions
    ensures a.Reap? ==>
              Do(s, a).executions[e] == (if e == s.workers[a.worker].execution && s.executions[e] != ExecutionCompleted
                                         then ExecutionFailed else s.executions[e])
    ensures a.Abandon? ==>
              Do(s, a).executions[e] == (if s.executions[e] == Awaiting
                                            && (exists h :: h in a.holds && h in s.holds && s.holds[h].execution == e)
                                         then ExecutionFailed else s.executions[e])
  {
  }

  /** Which hold each transaction moves, and where; every other hold stands. */
  lemma HoldsRecorded(s: System, a: Action)
    requires Enabled(s, a)
    ensures var after := Do(s, a).holds;
            && (a.StartResume? ==> after == s.holds[a.hold := s.holds[a.hold].(status := Pending)])
            && (a.ExecuteAwaits? || a.ResumeAwaits? ==>
                  after == s.holds[a.newHold := Hold(s.workers[a.worker].execution, None, AwaitingResponse, 0)])
            && (a.RestoreHold? ==>
                  var h := s.workers[a.worker].stage.hold;
                  after == if s.holds[h].status == Pending then s.holds[h := s.holds[h].(status := AwaitingResponse)] else s.holds)
            && (a.CompleteSaved? || a.ResumeSucceeds? ==>
                  var h := s.workers[a.worker].stage.hold;
                  after == if s.holds[h].status == Pending then s.holds[h := s.holds[h].(status := Completed)] else s.holds)
            && (a.StartExecute? || a.Reap? || a.Crash? || a.Cancelled? || a.ExecuteFails? ==> after == s.holds)
            && (a.ExecuteSucceeds? || a.ResumeFails? || a.RestoreExecution? || a.Finalize? || a.FinishRun? ==> after == s.holds)
  {
  }

  lemma SweptHoldsRecorded(s: System, a: Action, h: HoldId)
    requires Enabled(s, a) && (a.RecoverStale? || a.Abandon?) && h in s.holds
    ensures h in Do(s, a).holds
    ensures Do(s, a).holds[h] == if h !in a.holds then s.holds[h]
                                 else s.holds[h].(status := if a.Abandon? then Discarded else AwaitingResponse)
  {
  }

  ghost predicate Resumable(s: System, e: ExecutionId) {
    exists h :: h in s.holds && s.holds[h].execution == e && s.holds[h].status.AwaitingResponse?
  }

  /** The promise. */
  ghost predicate AwaitingIsResumable(s: System) {
    forall e :: e in s.executions && s.executions[e].Awaiting? ==> Resumable(s, e)
  }

  // ------------------------------------------------------------------ where it can break

  lemma StillResumable(s: System, s': System, e: ExecutionId)
    requires Resumable(s, e)
    requires forall h :: h in s.holds && s.holds[h].status.AwaitingResponse? ==> h in s'.holds && s'.holds[h] == s.holds[h]
    ensures Resumable(s', e)
  {
    var h :| h in s.holds && s.holds[h].execution == e && s.holds[h].status.AwaitingResponse?;
    assert s'.holds[h] == s.holds[h];
  }

  lemma AbandonKeepsPromise(s: System, hs: set<HoldId>)
    requires AwaitingIsResumable(s) && Enabled(s, Abandon(hs))
    ensures AwaitingIsResumable(Do(s, Abandon(hs)))
  {
    var s' := Do(s, Abandon(hs));
    forall e | e in s'.executions && s'.executions[e].Awaiting? ensures Resumable(s', e) {
      var h :| h in s.holds && s.holds[h].execution == e && s.holds[h].status.AwaitingResponse?;
      assert h !in hs;
      assert s'.holds[h] == s.holds[h];
    }
  }

  lemma StartResumeKeepsPromise(s: System, w: WorkerId, e0: ExecutionId, h0: HoldId)
    requires AwaitingIsResumable(s) && Enabled(s, StartResume(w, e0, h0))
    ensures AwaitingIsResumable(Do(s, StartResume(w, e0, h0)))
  {
    var s' := Do(s, StartResume(w, e0, h0));
    forall e | e in s'.executions && s'.executions[e].Awaiting? ensures Resumable(s', e) {
      var h :| h in s.holds && s.holds[h].execution == e && s.holds[h].status.AwaitingResponse?;
      assert s'.holds[h] == s.holds[h];
    }
  }

  lemma PersistKeepsPromise(s: System, w: WorkerId, n: HoldId, next: Stage)
    requires AwaitingIsResumable(s) && w in s.workers && n !in s.holds
    ensures AwaitingIsResumable(PersistAwaiting(s, w, n, next))
  {
    var s' := PersistAwaiting(s, w, n, next);
    assert n in s'.holds;
    forall e | e in s'.executions && s'.executions[e].Awaiting? ensures Resumable(s', e) {
      if e != s.workers[w].execution { StillResumable(s, s', e); }
    }
  }

  lemma OtherStepKeepsPromise(s: System, a: Action)
    requires AwaitingIsResumable(s) && Enabled(s, a)
    requires !a.Abandon? && !a.StartResume? && !a.ExecuteAwaits? && !a.ResumeAwaits? && !a.RestoreExecution?
    ensures AwaitingIsResumable(Do(s, a))
  {
    var s' := Do(s, a);
    forall e | e in s'.executions && s'.executions[e].Awaiting? ensures Resumable(s', e) {
      StillResumable(s, s', e);
    }
  }

  /**
   The only step of the whole protocol that can break the promise is the unconditional
   restore of the execution row, and it does so exactly when no hold is left to resume.
   */
  lemma PromiseBreaksExactlyAtRestore(s: System, a: Action)
    requires AwaitingIsResumable(s) && Enabled(s, a)
    ensures AwaitingIsResumable(Do(s, a)) <==>
              !(a.RestoreExecution? && !Resumable(s, s.workers[a.worker].execution))
  {
    match a
    case Abandon(hs) => AbandonKeepsPromise(s, hs);
    case StartResume(w, e, h) => StartResumeKeepsPromise(s, w, e, h);
    case ExecuteAwaits(w, n) => PersistKeepsPromise(s, w, n, Finishing);
    case ResumeAwaits(w, n) => PersistKeepsPromise(s, w, n, Saved(s.workers[w].stage.hold));
    case RestoreExecution(w) =>
      var s' := Do(s, a);
      var e0 := s.workers[w].execution;
      assert s'.executions[e0].Awaiting? && s'.holds == s.holds;
      if Resumable(s, e0) {
        forall e | e in s'.executions && s'.executions[e].Awaiting? ensures Resumable(s', e) {
          StillResumable(s, s', e);
        }
      } else {
        assert !Resumable(s', e0);
      }
    case _ => OtherStepKeepsPromise(s, a);
  }

  // ------------------------------------------------------------------ the provisos

  predicate Gripped(w: Worker, h: HoldId) {
    HasHold(w.stage) && w.stage.hold == h
  }

  predicate Settles(a: Action) {
    a.ExecuteFails? || a.ExecuteAwaits? || a.ExecuteSucceeds? || a.ResumeFails? || a.ResumeAwaits?
    || a.CompleteSaved? || a.ResumeSucceeds? || a.RestoreHold? || a.RestoreExecution? || a.Finalize?
  }

  /** The two provisos, one step at a time. */
  datatype Proviso =
    | SettleWhileRunning   // a worker settles only while its own run is unfinished
    | SpareClaims          // nobody discards a hold that a worker with an unfinished run has claimed

  ghost predicate Obeys(s: System, a: Action, proviso: Proviso) {
    match proviso
    case SettleWhileRunning => Settles(a) ==> a.worker in s.workers && s.workers[a.worker].running
    case SpareClaims =>
      a.Abandon? ==> forall h, w :: h in a.holds && w in s.workers && s.workers[w].running ==> !Gripped(s.workers[w], h)
  }

  ghost predicate Orderly(s: System, a: Action) {
    Obeys(s, a, SettleWhileRunning) && Obeys(s, a, SpareClaims)
  }

  /** A running resume's hold is still its own to settle: pending, or recovered to awaiting, never spent. */
  ghost predicate GripSound(s: System, w: WorkerId)
    requires w in s.workers
  {
    var k := s.workers[w];
    k.running ==>
      && k.execution in s.executions
      && (HasHold(k.stage) ==>
            k.stage.hold in s.holds && s.holds[k.stage.hold].execution == k.execution
            && Active(s.holds[k.stage.hold].status))
      && (k.stage.RestoringExecution? ==> s.holds[k.stage.hold].status.AwaitingResponse?)
  }

  ghost predicate OneRunPerExecution(s: System) {
    forall w1, w2 :: w1 in s.workers && w2 in s.workers && w1 != w2 && s.workers[w1].running && s.workers[w2].running
      ==> s.workers[w1].execution != s.workers[w2].execution
  }

  ghost predicate Inv(s: System) {
    && AwaitingIsResumable(s)
    && OneRunPerExecution(s)
    && (forall w :: w in s.workers ==> GripSound(s, w))
  }

  lemma OwnGripKeeps(s: System, a: Action, w: WorkerId)
    requires Settles(a) && a.worker == w && Enabled(s, a) && Orderly(s, a) && GripSound(s, w)
    ensures w in Do(s, a).workers && GripSound(Do(s, a), w)
  {
  }

  lemma RivalGripKeeps(s: System, a: Action, w: WorkerId)
    requires Settles(a) && a.worker != w && Enabled(s, a) && w in s.workers && s.workers[w].running
    requires a.worker in s.workers && s.workers[a.worker].execution != s.workers[w].execution
    requires GripSound(s, w) && GripSound(s, a.worker) && s.workers[a.worker].running
    ensures w in Do(s, a).workers && GripSound(Do(s, a), w)
  {
  }

  lemma EnvironmentKeepsGrip(s: System, a: Action, w: WorkerId)
    requires !Settles(a) && Enabled(s, a) && Orderly(s, a) && w in s.workers && s.workers[w].running && GripSound(s, w)
    requires w in Do(s, a).workers
    ensures GripSound(Do(s, a), w)
  {
    if a.Abandon? {
      assert forall h :: h in a.holds ==> !Gripped(s.workers[w], h);
    }
  }

  lemma NewcomerGripSound(s: System, a: Action, w: WorkerId)
    requires Enabled(s, a) && w in Do(s, a).workers && (w in s.workers ==> !s.workers[w].running)
    ensures GripSound(Do(s, a), w)
  {
  }

  lemma GripKeeps(s: System, a: Action, w: WorkerId)
    requires OneRunPerExecution(s) && Enabled(s, a) && Orderly(s, a)
    requires forall v :: v in s.workers ==> GripSound(s, v)
    requires w in Do(s, a).workers
    ensures GripSound(Do(s, a), w)
  {
    if w !in s.workers || !s.workers[w].running {
      NewcomerGripSound(s, a, w);
    } else if !Settles(a) {
      EnvironmentKeepsGrip(s, a, w);
    } else if a.worker == w {
      OwnGripKeeps(s, a, w);
    } else {
      RivalGripKeeps(s, a, w);
    }
  }

  lemma RunsKeepApart(s: System, a: Action)
    requires OneRunPerExecution(s) && Enabled(s, a)
    ensures OneRunPerExecution(Do(s, a))
  {
  }

  lemma StepKeeps(s: System, a: Action, s': System)
    requires Inv(s) && Enabled(s, a) && Orderly(s, a) && s' == Do(s, a)
    ensures Inv(s')
  {
    RunsKeepApart(s, a);
    forall w | w in s'.workers ensures GripSound(s', w) {
      GripKeeps(s, a, w);
    }
    if a.RestoreExecution? {
      assert GripSound(s, a.worker);
      var h := s.workers[a.worker].stage.hold;
      assert s.holds[h].status.AwaitingResponse?;
    }
    PromiseBreaksExactlyAtRestore(s, a);
  }

  ghost predicate Possible(s: System, actions: seq<Action>)
    decreases |actions|
  {
    actions == [] || (Enabled(s, actions[0]) && Possible(Do(s, actions[0]), actions[1..]))
  }

  ghost function After(s: System, actions: seq<Action>): System
    requires Possible(s, actions)
    decreases |actions|
  {
    if actions == [] then s else After(Do(s, actions[0]), actions[1..])
  }

  ghost predicate OrderlyRun(s: System, actions: seq<Action>)
    requires Possible(s, actions)
    decreases |actions|
  {
    actions == [] || (Orderly(s, actions[0]) && OrderlyRun(Do(s, actions[0]), actions[1..]))
  }

  ghost predicate Init(s: System) {
    s.workers == map[] && AwaitingIsResumable(s)
  }

  lemma {:induction false} RunKeeps(s: System, actions: seq<Action>)
    requires Inv(s) && Possible(s, actions) && OrderlyRun(s, actions)
    ensures Inv(After(s, actions))
    decreases |actions|
  {
    if actions != [] {
      StepKeeps(s, actions[0], Do(s, actions[0]));
      RunKeeps(Do(s, actions[0]), actions[1..]);
    }
  }

  /** In every orderly run, whatever the interleaving, an awaiting execution can be resumed. */
  lemma AwaitingAlwaysResumable(s: System, actions: seq<Action>)
    requires Init(s) && Possible(s, actions) && OrderlyRun(s, actions)
    ensures AwaitingIsResumable(After(s, actions))
  {
    RunKeeps(s, actions);
  }

  // ------------------------------------------------------------------ neither proviso can be dropped

  ghost predicate RunObeys(s: System, actions: seq<Action>, proviso: Proviso)
    requires Possible(s, actions)
    decreases |actions|
  {
    actions == [] || (Obeys(s, actions[0], proviso) && RunObeys(Do(s, actions[0]), actions[1..], proviso))
  }

  lemma {:induction false} OrderlyIsBoth(s: System, actions: seq<Action>)
    requires Possible(s, actions)
    ensures OrderlyRun(s, actions) <==> RunObeys(s, actions, SettleWhileRunning) && RunObeys(s, actions, SpareClaims)
    decreases |actions|
  {
    if actions != [] { OrderlyIsBoth(Do(s, actions[0]), actions[1..]); }
  }

  /** Some run from here respects the one proviso and still breaks the promise. */
  ghost predicate Breakable(s: System, proviso: Proviso) {
    exists actions :: Possible(s, actions) && RunObeys(s, actions, proviso) && !AwaitingIsResumable(After(s, actions))
  }

  lemma BrokenNow(s: System, proviso: Proviso)
    requires !AwaitingIsResumable(s)
    ensures Breakable(s, proviso)
  {
    assert Possible(s, []) && RunObeys(s, [], proviso) && After(s, []) == s;
  }

  lemma OneStepEarlier(s: System, a: Action, next: System, proviso: Proviso)
    requires Enabled(s, a) && Obeys(s, a, proviso) && Do(s, a) == next && Breakable(next, proviso)
    ensures Breakable(s, proviso)
  {
    var rest :| Possible(next, rest) && RunObeys(next, rest, proviso) && !AwaitingIsResumable(After(next, rest));
    var actions := [a] + rest;
    assert actions[0] == a && actions[1..] == rest;
    assert Possible(s, actions) && RunObeys(s, actions, proviso) && After(s, actions) == After(next, rest);
  }

  /** One execution with one hold, numbered 5. */
  function Holding(status: ExecutionStatus, hold: HoldStatus, workers: map<WorkerId, Worker>): System {
    System(map[1 := status], map[5 := Hold(1, None, hold, 0)], workers)
  }

  function WorkerAt(stage: Stage, running: bool): Worker {
    Worker(1, stage, running, false)
  }

  lemma StartResumeDoes(status: ExecutionStatus, workers: map<WorkerId, Worker>, w: WorkerId)
    requires w !in workers && forall v :: v in workers ==> !workers[v].running
    ensures Enabled(Holding(status, AwaitingResponse, workers), StartResume(w, 1, 5))
    ensures Do(Holding(status, AwaitingResponse, workers), StartResume(w, 1, 5))
            == Holding(Running, Pending, workers[w := WorkerAt(Resuming(5), true)])
  {
    var s' := Do(Holding(status, AwaitingResponse, workers), StartResume(w, 1, 5));
    assert s'.executions == map[1 := Running];
    assert s'.holds == map[5 := Hold(1, None, Pending, 0)];
  }

  lemma AbandonDoes(workers: map<WorkerId, Worker>)
    ensures Enabled(Holding(Running, Pending, workers), Abandon({5}))
    ensures Do(Holding(Running, Pending, workers), Abandon({5})) == Holding(Running, Discarded, workers)
  {
    var s' := Do(Holding(Running, Pending, workers), Abandon({5}));
    assert s'.executions == map[1 := Running];
    assert s'.holds == map[5 := Hold(1, None, Discarded, 0)];
  }

  lemma ReapDoes(hold: HoldStatus, w: WorkerId, stage: Stage)
    ensures Enabled(Holding(Running, hold, map[w := WorkerAt(stage, true)]), Reap(w))
    ensures Do(Holding(Running, hold, map[w := WorkerAt(stage, true)]), Reap(w))
            == Holding(ExecutionFailed, hold, map[w := WorkerAt(stage, false)])
  {
    var s' := Do(Holding(Running, hold, map[w := WorkerAt(stage, true)]), Reap(w));
    assert s'.executions == map[1 := ExecutionFailed];
    assert s'.workers == map[w := WorkerAt(stage, false)];
  }

  lemma ResumeFailsDoes(status: ExecutionStatus, hold: HoldStatus, workers: map<WorkerId, Worker>, w: WorkerId, running: bool)
    requires w in workers && workers[w] == WorkerAt(Resuming(5), running)
    ensures Enabled(Holding(status, hold, workers), ResumeFails(w))
    ensures Do(Holding(status, hold, workers), ResumeFails(w))
            == Holding(status, hold, workers[w := WorkerAt(RestoringHold(5), running)])
  {
  }

  lemma RestoreHoldDoes(status: ExecutionStatus, hold: HoldStatus, workers: map<WorkerId, Worker>, w: WorkerId, running: bool)
    requires w in workers && workers[w] == WorkerAt(RestoringHold(5), running)
    ensures Enabled(Holding(status, hold, workers), RestoreHold(w))
    ensures Do(Holding(status, hold, workers), RestoreHold(w))
            == Holding(status, if hold.Pending? then AwaitingResponse else hold,
                       workers[w := WorkerAt(RestoringExecution(5), running)])
  {
    var s' := Do(Holding(status, hold, workers), RestoreHold(w));
    assert s'.holds == map[5 := Hold(1, None, if hold.Pending? then AwaitingResponse else hold, 0)];
  }

  lemma RestoreExecutionDoes(status: ExecutionStatus, hold: HoldStatus, workers: map<WorkerId, Worker>, w: WorkerId, running: bool)
    requires w in workers && workers[w] == WorkerAt(RestoringExecution(5), running)
    ensures Enabled(Holding(status, hold, workers), RestoreExecution(w))
    ensures Do(Holding(status, hold, workers), RestoreExecution(w))
            == Holding(Awaiting, hold, workers[w := WorkerAt(Finishing, running)])
  {
    var s' := Do(Holding(status, hold, workers), RestoreExecution(w));
    assert s'.executions == map[1 := Awaiting];
  }

  /** The last step of both runs: nothing awaits, and the execution says it does. */
  lemma VainRestore(status: ExecutionStatus, hold: HoldStatus, workers: map<WorkerId, Worker>, w: WorkerId,
                    running: bool, proviso: Proviso)
    requires w in workers && workers[w] == WorkerAt(RestoringExecution(5), running)
    requires !hold.AwaitingResponse? && (proviso.SettleWhileRunning? ==> running)
    ensures Breakable(Holding(status, hold, workers), proviso)
  {
    var s, end := Holding(status, hold, workers), Holding(Awaiting, hold, workers[w := WorkerAt(Finishing, running)]);
    RestoreExecutionDoes(status, hold, workers, w, running);
    assert end.executions[1].Awaiting? && !Resumable(end, 1);
    BrokenNow(end, proviso);
    OneStepEarlier(s, RestoreExecution(w), end, proviso);
  }

  lemma VainRestoreHold(status: ExecutionStatus, hold: HoldStatus, workers: map<WorkerId, Worker>, running: bool, proviso: Proviso)
    requires 0 in workers && workers[0] == WorkerAt(RestoringHold(5), running)
    requires proviso.SettleWhileRunning? ==> running
    requires Breakable(Holding(status, if hold.Pending? then AwaitingResponse else hold,
                               workers[0 := WorkerAt(RestoringExecution(5), running)]), proviso)
    ensures Breakable(Holding(status, hold, workers), proviso)
  {
    RestoreHoldDoes(status, hold, workers, 0, running);
    OneStepEarlier(Holding(status, hold, workers), RestoreHold(0),
                   Holding(status, if hold.Pending? then AwaitingResponse else hold,
                           workers[0 := WorkerAt(RestoringExecution(5), running)]), proviso);
  }

  lemma FailingResume(status: ExecutionStatus, hold: HoldStatus, workers: map<WorkerId, Worker>, running: bool, proviso: Proviso)
    requires 0 in workers && workers[0] == WorkerAt(Resuming(5), running)
    requires proviso.SettleWhileRunning? ==> running
    requires Breakable(Holding(status, if hold.Pending? then AwaitingResponse else hold,
                               workers[0 := WorkerAt(RestoringExecution(5), running)]), proviso)
    ensures Breakable(Holding(status, hold, workers), proviso)
  {
    var next := workers[0 := WorkerAt(RestoringHold(5), running)];
    assert next[0 := WorkerAt(RestoringExecution(5), running)] == workers[0 := WorkerAt(RestoringExecution(5), running)];
    VainRestoreHold(status, hold, next, running, proviso);
    ResumeFailsDoes(status, hold, workers, 0, running);
    OneStepEarlier(Holding(status, hold, workers), ResumeFails(0), Holding(status, hold, next), proviso);
  }

  lemma StartsFirst(proviso: Proviso)
    requires Breakable(Holding(Running, Pending, map[0 := WorkerAt(Resuming(5), true)]), proviso)
    ensures Breakable(ONE_HOLD, proviso)
  {
    StartResumeDoes(Awaiting, map[], 0);
    assert map[][0 := WorkerAt(Resuming(5), true)] == map[0 := WorkerAt(Resuming(5), true)];
    OneStepEarlier(ONE_HOLD, StartResume(0, 1, 5), Holding(Running, Pending, map[0 := WorkerAt(Resuming(5), true)]), proviso);
  }

  /** One execution awaiting a response on its hold, nobody at work. */
  const ONE_HOLD := Holding(Awaiting, AwaitingResponse, map[])

  lemma OneHoldIsResumable()
    ensures Init(ONE_HOLD)
  {
    assert 5 in ONE_HOLD.holds;
    assert Resumable(ONE_HOLD, 1);
  }

  /**
   The claims proviso is needed: although every worker settles only while its run is
   unfinished, a close that abandons a claimed hold lets the failing resume announce it.
   */
  lemma AbandoningAClaimBreaksThePromise()
    ensures Init(ONE_HOLD)
    ensures exists actions :: && Possible(ONE_HOLD, actions) && RunObeys(ONE_HOLD, actions, SettleWhileRunning)
                              && !AwaitingIsResumable(After(ONE_HOLD, actions))
  {
    OneHoldIsResumable();
    var resuming := map[0 := WorkerAt(Resuming(5), true)];
    var restoring := resuming[0 := WorkerAt(RestoringExecution(5), true)];
    VainRestore(Running, Discarded, restoring, 0, true, SettleWhileRunning);
    FailingResume(Running, Discarded, resuming, true, SettleWhileRunning);
    AbandonDoes(resuming);
    OneStepEarlier(Holding(Running, Pending, resuming), Abandon({5}), Holding(Running, Discarded, resuming), SettleWhileRunning);
    StartsFirst(SettleWhileRunning);
  }

  /**
   The settling proviso is needed: although nobody discards a claimed hold, a reaped worker
   that still settles overwrites the status of the rival that took its hold over.
   */
  lemma SettlingAfterReapBreaksThePromise()
    ensures Init(ONE_HOLD)
    ensures exists actions :: && Possible(ONE_HOLD, actions) && RunObeys(ONE_HOLD, actions, SpareClaims)
                              && !AwaitingIsResumable(After(ONE_HOLD, actions))
  {
    OneHoldIsResumable();
    var reaped := map[0 := WorkerAt(Resuming(5), false)];
    var restoring := reaped[0 := WorkerAt(RestoringExecution(5), false)];
    VainRestore(Running, Pending, restoring[2 := WorkerAt(Resuming(5), true)], 0, false, SpareClaims);
    StartResumeDoes(ExecutionFailed, restoring, 2);
    OneStepEarlier(Holding(ExecutionFailed, AwaitingResponse, restoring), StartResume(2, 1, 5),
                   Holding(Running, Pending, restoring[2 := WorkerAt(Resuming(5), true)]), SpareClaims);
    FailingResume(ExecutionFailed, Pending, reaped, false, SpareClaims);
    ReapDoes(Pending, 0, Resuming(5));
    OneStepEarlier(Holding(Running, Pending, map[0 := WorkerAt(Resuming(5), true)]), Reap(0),
                   Holding(ExecutionFailed, Pending, reaped), SpareClaims);
    StartsFirst(SpareClaims);
  }
}
