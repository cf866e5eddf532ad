/**
 What a segment of the agent loop is, turn by turn: what each prompt holds, what became of
 each call, and what the segment returns, each said in terms of the model, the tools and
 the rendering alone.
 */
module TurnLaws {
  import opened Common
  import opened Conversation
  import opened BatchResume
  import opened ToolLoop

  // ------------------------------------------------------------------ one call

  /** What became of the agent's `number`-th call, outcome by outcome. */
  ghost predicate CallRan(env: Env, path: seq<int>, depth: nat, number: int, call: Call, e: Executed) {
    var o := env.tool(path, number, call);
    && e.call == call
    && (o.Completed? ==> e == Done(call, Plain(o.value)))
    && (o.AwaitsUser? ==> e == Waiting(call, o.displayName))
    && (o.Crashes? ==> e == Crashed(call))
    && (o.Delegate? ==> e.Done? && Delegated(env, depth, o.prompt, e.output))
  }

  /** A delegation is refused for the first reason that applies, otherwise it reports what the child returned. */
  ghost predicate Delegated(env: Env, depth: nat, prompt: string, output: Output) {
    && (!env.subagentsEnabled <==> output == Refused(SubagentsDisabled))
    && (env.subagentsEnabled && prompt == "" <==> output == Refused(PromptRequired))
    && (env.subagentsEnabled && prompt != "" && depth >= env.maxDepth <==> output == Refused(DepthReached))
    && (env.subagentsEnabled && prompt != "" && depth < env.maxDepth <==> output.Summary?)
  }

  lemma FaithfulMeans(env: Env, path: seq<int>, depth: nat, number: int, e: Executed)
    ensures Faithful(env, path, depth, number, e) <==> CallRan(env, path, depth, number, e.call, e)
  {
  }

  // ------------------------------------------------------------------ one turn after another

  /** How many of these calls finished. */
  function Finished(calls: seq<Executed>): nat {
    if calls == [] then 0
    else Finished(calls[..|calls| - 1]) + (if calls[|calls| - 1].Done? then 1 else 0)
  }

  /**
   What the model is shown after a turn: the prompt, its own reply, then one message per
   finished call, in call order, with the call's id and name and the output as its content.
   */
  ghost predicate Carries(env: Env, t: Turn, m: seq<Message>) {
    && t.reply.Reply?
    && |m| == |t.prompt| + 1 + Finished(t.calls)
    && m[..|t.prompt|] == t.prompt
    && m[|t.prompt|] == Assistant(t.reply.text, t.reply.calls)
    && (forall k :: 0 <= k < |t.calls| && t.calls[k].Done? ==> ResultAtItsPlace(env, t, m, k))
  }

  ghost predicate ResultAtItsPlace(env: Env, t: Turn, m: seq<Message>, k: nat)
    requires k < |t.calls| && t.calls[k].Done?
  {
    var call := t.calls[k].call;
    var place := |t.prompt| + 1 + Finished(t.calls[..k]);
    place < |m| && m[place] == ToolResult(call.id, call.name, env.render(call, t.calls[k].output))
  }

  lemma {:induction false} FinishedGrows(calls: seq<Executed>, k: nat)
    requires k < |calls| && calls[k].Done?
    ensures Finished(calls[..k]) < Finished(calls)
    decreases |calls|
  {
    var n := |calls| - 1;
    if k < n {
      assert calls[..n][..k] == calls[..k];
      FinishedGrows(calls[..n], k);
    }
  }

  lemma {:induction false} ResultsInPlace(env: Env, calls: seq<Executed>, k: nat)
    requires k < |calls| && calls[k].Done?
    ensures |ResultsOf(env, calls)| == Finished(calls) > Finished(calls[..k])
    ensures ResultsOf(env, calls)[Finished(calls[..k])]
         == ToolResult(calls[k].call.id, calls[k].call.name, env.render(calls[k].call, calls[k].output))
    decreases |calls|
  {
    var n := |calls| - 1;
    ResultsLength(env, calls);
    ResultsLength(env, calls[..n]);
    FinishedGrows(calls, k);
    if k < n {
      assert calls[..n][..k] == calls[..k];
      ResultsInPlace(env, calls[..n], k);
    }
  }

  lemma {:induction false} ResultsLength(env: Env, calls: seq<Executed>)
    ensures |ResultsOf(env, calls)| == Finished(calls)
  {
    if calls != [] { ResultsLength(env, calls[..|calls| - 1]); }
  }

  lemma AfterCarries(env: Env, t: Turn)
    requires t.reply.Reply?
    ensures Carries(env, t, After(env, t))
  {
    var head := t.prompt + [Assistant(t.reply.text, t.reply.calls)];
    ResultsLength(env, t.calls);
    assert After(env, t)[..|t.prompt|] == t.prompt;
    forall k | 0 <= k < |t.calls| && t.calls[k].Done? ensures ResultAtItsPlace(env, t, After(env, t), k) {
      ResultsInPlace(env, t.calls, k);
      assert After(env, t)[|head| + Finished(t.calls[..k])] == ResultsOf(env, t.calls)[Finished(t.calls[..k])];
    }
  }

  ghost predicate AllDone(t: Turn) {
    && t.reply.Reply? && |t.calls| == |t.reply.calls| > 0
    && (forall j :: 0 <= j < |t.calls| ==> t.calls[j].Done?)
  }

  ghost predicate CallsRan(env: Env, path: seq<int>, depth: nat, t: Turn) {
    && (t.reply.UpstreamFailure? ==> t.calls == [])
    && (t.reply.Reply? ==> |t.calls| <= |t.reply.calls|)
    && (forall j :: 0 <= j < |t.calls| ==> CallRan(env, path, depth, t.before + j + 1, t.reply.calls[j], t.calls[j]))
  }

  lemma {:induction false} NoneWaits(calls: seq<Executed>, k: nat)
    requires PendingOf(calls) == [] && k < |calls|
    ensures !calls[k].Waiting?
    decreases |calls|
  {
    var n := |calls| - 1;
    if k < n { NoneWaits(calls[..n], k); }
  }

  /**
   A segment, turn by turn: the first prompt is the start, each later one carries every
   result of the turn before, the model is asked with its interaction number, and the calls
   run in the order of the reply, numbered on from those before.
   */
  lemma SegmentTurnByTurn(env: Env, path: seq<int>, depth: nat, start: seq<Message>, total: int, interactions: nat,
                          turns: seq<Turn>, k: nat)
    requires Chain(env, path, depth, start, total, interactions, turns) && k < |turns|
    ensures turns[k].reply == env.model(path, interactions + k + 1, turns[k].prompt)
    ensures CallsRan(env, path, depth, turns[k])
    ensures k == 0 ==> turns[0].prompt == start && turns[0].before == total
    ensures k > 0 ==> AllDone(turns[k - 1]) && Carries(env, turns[k - 1], turns[k].prompt)
    ensures k > 0 ==> turns[k].before == turns[k - 1].before + |turns[k - 1].calls|
  {
    assert LinkOk(env, path, depth, start, total, interactions, turns, k);
    TurnRan(env, path, depth, interactions + k + 1, turns[k]);
    if k > 0 {
      assert LinkOk(env, path, depth, start, total, interactions, turns, k - 1);
      CompleteMeans(env, turns[k - 1]);
      assert turns[..k][..k - 1] == turns[..k - 1];
    }
  }

  lemma TurnRan(env: Env, path: seq<int>, depth: nat, n: nat, t: Turn)
    requires TurnOk(env, path, depth, n, t)
    ensures CallsRan(env, path, depth, t)
  {
    if t.reply.Reply? {
      forall j | 0 <= j < |t.calls|
        ensures CallRan(env, path, depth, t.before + j + 1, t.reply.calls[j], t.calls[j])
      {
        FaithfulMeans(env, path, depth, t.before + j + 1, t.calls[j]);
      }
    }
  }

  lemma CompleteMeans(env: Env, t: Turn)
    requires Complete(t)
    ensures AllDone(t) && Carries(env, t, After(env, t))
  {
    AfterCarries(env, t);
    forall j | 0 <= j < |t.calls| ensures t.calls[j].Done? { NoneWaits(t.calls, j); }
  }

  /** A segment starts from the messages it was given, or from the system prompt and the request. */
  lemma StartSays(initial: seq<Message>, system: string, request: string)
    ensures initial != [] ==> StartMessages(initial, system, request) == initial
    ensures var m := StartMessages([], system, request);
            && m[|m| - 1] == User(request)
            && (system == "" ==> |m| == 1) && (system != "" ==> |m| == 2 && m[0] == System(system))
  {
  }

  // ------------------------------------------------------------------ what a segment returns

  /** How many of these calls wait for the user. */
  function Awaited(calls: seq<Executed>): nat {
    if calls == [] then 0
    else Awaited(calls[..|calls| - 1]) + (if calls[|calls| - 1].Waiting? then 1 else 0)
  }

  /** What a pause stores: the conversation so far, the counters, and each waiting call in order. */
  ghost predicate Stores(env: Env, request: string, maxCalls: int, t: Turn, c: Counters, interactions: nat, s: Snapshot) {
    && Carries(env, t, s.messages)
    && s.request == request && s.maxCalls == Some(maxCalls)
    && s.segmentCount == c.segment && s.totalCount == Some(c.total) && s.toolCallCount == Some(c.total)
    && s.interactions == interactions
    && |s.pendingTools| == Awaited(t.calls) > 0 && s.pendingTool == Some(s.pendingTools[0])
    && (forall k :: 0 <= k < |t.calls| && t.calls[k].Waiting? ==> WaitsAtItsPlace(t, s.pendingTools, k))
  }

  ghost predicate WaitsAtItsPlace(t: Turn, pending: seq<Pending>, k: nat)
    requires k < |t.calls| && t.calls[k].Waiting?
  {
    var call := t.calls[k].call;
    var place := Awaited(t.calls[..k]);
    place < |pending| && pending[place] == Pending(call.id, t.calls[k].displayName, call.arguments, call.id)
  }

  lemma {:induction false} PendingInPlace(calls: seq<Executed>, k: nat)
    requires k < |calls| && calls[k].Waiting?
    ensures |PendingOf(calls)| == Awaited(calls) > Awaited(calls[..k])
    ensures PendingOf(calls)[Awaited(calls[..k])]
         == Pending(calls[k].call.id, calls[k].displayName, calls[k].call.arguments, "")
    decreases |calls|
  {
    var n := |calls| - 1;
    PendingLength(calls);
    PendingLength(calls[..n]);
    if k < n {
      assert calls[..n][..k] == calls[..k];
      PendingInPlace(calls[..n], k);
    }
  }

  lemma {:induction false} PendingLength(calls: seq<Executed>)
    ensures |PendingOf(calls)| == Awaited(calls)
  {
    if calls != [] { PendingLength(calls[..|calls| - 1]); }
  }

  lemma PauseStores(env: Env, request: string, maxCalls: int, t: Turn, c: Counters, interactions: nat)
    requires t.reply.Reply? && PendingOf(t.calls) != []
    ensures Stores(env, request, maxCalls, t, c, interactions,
                   SnapshotOf(After(env, t), request, maxCalls, c, interactions, PendingOf(t.calls)))
  {
    var pending := PendingOf(t.calls);
    AfterCarries(env, t);
    PendingLength(t.calls);
    EnrichLength(pending);
    forall k | 0 <= k < |t.calls| && t.calls[k].Waiting? ensures WaitsAtItsPlace(t, Enrich(pending), k) {
      PendingInPlace(t.calls, k);
      EnrichAt(pending, Awaited(t.calls[..k]));
    }
  }

  ghost predicate SomeCrashed(t: Turn) {
    t.reply.UpstreamFailure? || exists k :: 0 <= k < |t.calls| && t.calls[k].Crashed?
  }

  ghost predicate SomeWaits(t: Turn) {
    exists k :: 0 <= k < |t.calls| && t.calls[k].Waiting?
  }

  /** The result of a segment whose last turn this is, case by case. */
  ghost predicate EndsAs(env: Env, request: string, maxCalls: int, t: Turn, c: Counters, interactions: nat, r: Result) {
    && r.made == c.total && r.madeNow == c.segment
    && (SomeCrashed(t) ==> r.Failed?)
    && (!SomeCrashed(t) ==>
      && (t.reply.calls == [] ==> r.Answered? && r.response == t.reply.text)
      && (|t.calls| < |t.reply.calls| ==> r.MaxToolCalls? && r.partial == t.reply.text)
      && (|t.calls| == |t.reply.calls| && SomeWaits(t) ==>
        r.Paused? && Stores(env, request, maxCalls, t, c, interactions, r.state))
      && (AllDone(t) ==> r.MaxToolCalls? && r.partial == LastOutput(env, t)))
  }

  /** The last output of a turn that finished all its calls. */
  function LastOutput(env: Env, t: Turn): string
    requires t.calls != [] && t.calls[|t.calls| - 1].Done?
  {
    var last := t.calls[|t.calls| - 1];
    env.render(last.call, last.output)
  }

  lemma LastMessageOfTurn(env: Env, t: Turn)
    requires AllDone(t)
    ensures LastContent(After(env, t)) == LastOutput(env, t)
  {
    var n := |t.calls| - 1;
    var head := t.prompt + [Assistant(t.reply.text, t.reply.calls)];
    assert After(env, t) == head + ResultsOf(env, t.calls[..n]) + ResultOf(env, t.calls[n]);
  }

  lemma {:induction false} SomeoneWaits(calls: seq<Executed>) returns (k: nat)
    requires PendingOf(calls) != []
    ensures k < |calls| && calls[k].Waiting?
  {
    var n := |calls| - 1;
    if calls[n].Waiting? { k := n; } else { k := SomeoneWaits(calls[..n]); }
  }

  /** What a segment returns, by what happened in its last turn. */
  lemma EndingByCases(env: Env, path: seq<int>, depth: nat, request: string, maxCalls: int, start: seq<Message>,
                      c: Counters, total: int, first: nat, interactions: nat, turns: seq<Turn>)
    requires Chain(env, path, depth, start, total, first, turns) && turns != []
    ensures EndsAs(env, request, maxCalls, turns[|turns| - 1], c, interactions,
                   Ending(env, request, maxCalls, start, c, interactions, turns))
  {
    var t := turns[|turns| - 1];
    SegmentTurnByTurn(env, path, depth, start, total, first, turns, |turns| - 1);
    EndOfTurnByCases(env, path, depth, request, maxCalls, c, interactions, t);
  }

  lemma EndOfTurnByCases(env: Env, path: seq<int>, depth: nat, request: string, maxCalls: int, c: Counters,
                         interactions: nat, t: Turn)
    requires CallsRan(env, path, depth, t)
    ensures EndsAs(env, request, maxCalls, t, c, interactions, EndOfTurn(env, request, maxCalls, t, c, interactions))
  {
    if !SomeCrashed(t) {
      if PendingOf(t.calls) != [] {
        PauseStores(env, request, maxCalls, t, c, interactions);
        var k := SomeoneWaits(t.calls);
      } else {
        forall k | 0 <= k < |t.calls| ensures !t.calls[k].Waiting? { NoneWaits(t.calls, k); }
        if AllDone(t) { LastMessageOfTurn(env, t); }
      }
    }
  }

  /** A segment without a single turn hands back the last message it was given. */
  lemma NoTurnEnds(env: Env, request: string, maxCalls: int, before: seq<Message>, last: Message, c: Counters, interactions: nat)
    ensures var r := Ending(env, request, maxCalls, before + [last], c, interactions, []);
            r == MaxToolCalls(if last.ToolResult? then last.content else last.text, c.total, c.segment)
  {
  }
}
