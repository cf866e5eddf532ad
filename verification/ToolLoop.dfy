/**
 The agent loop: call the model, run the tools it asks for, pause when a tool waits for the
 user, delegate to nested subagents. The model and the tools are arbitrary functions of
 everything they could depend on. `Chain` and `Ending` say what a segment of the loop is;
 the methods are proved against them.
 */
module ToolLoop {
  import opened Common
  import opened Conversation
  import opened BatchResume

  datatype Reply = Reply(text: string, calls: seq<Call>) | UpstreamFailure

  datatype Outcome =
    | Completed(value: string)
    | AwaitsUser(displayName: string)
    | Delegate(prompt: string, system: string)
    | Crashes

  datatype Refusal = SubagentsDisabled | PromptRequired | DepthReached

  datatype Output = Plain(value: string) | Refused(why: Refusal) | Summary(child: Result)

  /** One tool call the loop has started, and what became of it. */
  datatype Executed =
    | Done(call: Call, output: Output)
    | Waiting(call: Call, displayName: string)
    | Crashed(call: Call)

  /** What a pause stores. `totalCount` is absent from snapshots older than that field. */
  datatype Snapshot = Snapshot(messages: seq<Message>, request: string, maxCalls: Option<int>,
                               segmentCount: int, totalCount: Option<int>, toolCallCount: Option<int>,
                               interactions: nat, pendingTools: seq<Pending>, pendingTool: Option<Pending>)

  datatype Result =
    | Answered(response: string, made: int, madeNow: int)
    | MaxToolCalls(partial: string, made: int, madeNow: int)
    | Paused(state: Snapshot, made: int, madeNow: int)
    | Failed(made: int, madeNow: int)

  /** `path` names an agent of the subagent tree: the call numbers leading to it. */
  datatype Env = Env(model: (seq<int>, nat, seq<Message>) -> Reply,
                     tool: (seq<int>, int, Call) -> Outcome,
                     render: (Call, Output) -> string,
                     subagentsEnabled: bool, subagentCalls: int, maxDepth: int, defaultCalls: int)

  /** One model call of one agent: `before` tool calls had been counted when it was made. */
  datatype Turn = Turn(prompt: seq<Message>, reply: Reply, calls: seq<Executed>, before: int)

  datatype Counters = Counters(segment: int, total: int)

  function Plus(c: Counters, n: nat): Counters {
    Counters(c.segment + n, c.total + n)
  }

  function SnapshotOf(messages: seq<Message>, request: string, maxCalls: int, c: Counters,
                      interactions: nat, pending: seq<Pending>): Snapshot
  {
    var stored := Enrich(pending);
    Snapshot(messages, request, Some(maxCalls), c.segment, Some(c.total), Some(c.total), interactions, stored,
             if stored == [] then None else Some(stored[0]))
  }

  // ------------------------------------------------------------------ what a segment of the loop is

  function RefusalFor(env: Env, depth: nat, prompt: string): Option<Refusal> {
    if !env.subagentsEnabled then Some(SubagentsDisabled)
    else if prompt == "" then Some(PromptRequired)
    else if depth >= env.maxDepth then Some(DepthReached)
    else None
  }

  /** What must become of the agent's `number`-th call. */
  predicate Faithful(env: Env, path: seq<int>, depth: nat, number: int, e: Executed) {
    match env.tool(path, number, e.call)
    case Completed(value) => e == Done(e.call, Plain(value))
    case AwaitsUser(name) => e == Waiting(e.call, name)
    case Crashes => e.Crashed?
    case Delegate(prompt, _) =>
      && e.Done?
      && match RefusalFor(env, depth, prompt)
         case Some(why) => e.output == Refused(why)
         case None => e.output.Summary?
  }

  /** The results of the finished calls, in call order. */
  function ResultsOf(env: Env, calls: seq<Executed>): seq<Message> {
    if calls == [] then []
    else
      ResultsOf(env, calls[..|calls| - 1]) + ResultOf(env, calls[|calls| - 1])
  }

  function ResultOf(env: Env, e: Executed): seq<Message> {
    if e.Done? then [ToolResult(e.call.id, e.call.name, env.render(e.call, e.output))] else []
  }

  function PendingOf(calls: seq<Executed>): seq<Pending> {
    if calls == [] then []
    else
      var last := calls[|calls| - 1];
      PendingOf(calls[..|calls| - 1])
      + (if last.Waiting? then [Pending(last.call.id, last.displayName, last.call.arguments, "")] else [])
  }

  predicate AnyCrashed(calls: seq<Executed>) {
    exists k :: 0 <= k < |calls| && calls[k].Crashed?
  }

  predicate InOrder(calls: seq<Call>, executed: seq<Executed>) {
    |executed| <= |calls| && forall k :: 0 <= k < |executed| ==> executed[k].call == calls[k]
  }

  predicate Runs(env: Env, path: seq<int>, depth: nat, before: int, calls: seq<Call>, executed: seq<Executed>) {
    && InOrder(calls, executed)
    && (forall k :: 0 <= k < |executed| ==> Faithful(env, path, depth, before + k + 1, executed[k]))
  }

  predicate TurnOk(env: Env, path: seq<int>, depth: nat, interaction: nat, t: Turn) {
    && t.reply == env.model(path, interaction, t.prompt)
    && (t.reply.UpstreamFailure? ==> t.calls == [])
    && (t.reply.Reply? ==> Runs(env, path, depth, t.before, t.reply.calls, t.calls))
  }

  function After(env: Env, t: Turn): seq<Message> {
    if t.reply.UpstreamFailure? then t.prompt
    else t.prompt + [Assistant(t.reply.text, t.reply.calls)] + ResultsOf(env, t.calls)
  }

  /** Every requested call finished, none crashed, none waits: the loop goes round again. */
  predicate Complete(t: Turn) {
    && t.reply.Reply? && t.reply.calls != []
    && |t.calls| == |t.reply.calls|
    && !AnyCrashed(t.calls) && PendingOf(t.calls) == []
  }

  /** What the next model call of the segment is shown. */
  function NextPrompt(env: Env, start: seq<Message>, turns: seq<Turn>): seq<Message> {
    if turns == [] then start else After(env, turns[|turns| - 1])
  }

  predicate GoesOn(turns: seq<Turn>) {
    turns == [] || Complete(turns[|turns| - 1])
  }

  /** The turns of one agent within one segment. */
  ghost predicate Chain(env: Env, path: seq<int>, depth: nat, start: seq<Message>, total: int, interactions: nat, turns: seq<Turn>) {
    forall k :: 0 <= k < |turns| ==> LinkOk(env, path, depth, start, total, interactions, turns, k)
  }

  ghost predicate LinkOk(env: Env, path: seq<int>, depth: nat, start: seq<Message>, total: int, interactions: nat, turns: seq<Turn>, k: nat)
    requires k < |turns|
  {
    && GoesOn(turns[..k])
    && turns[k].prompt == NextPrompt(env, start, turns[..k])
    && turns[k].before == total + CallCount(turns[..k])
    && TurnOk(env, path, depth, interactions + k + 1, turns[k])
  }

  function CallCount(turns: seq<Turn>): nat {
    if turns == [] then 0 else CallCount(turns[..|turns| - 1]) + |turns[|turns| - 1].calls|
  }

  function LastContent(messages: seq<Message>): string {
    if messages == [] then ""
    else match messages[|messages| - 1]
         case System(text) => text
         case User(text) => text
         case Assistant(text, _) => text
         case ToolResult(_, _, content) => content
  }

  /** The result a segment must return after these turns; `c` counts the calls up to its end. */
  function Ending(env: Env, request: string, maxCalls: int, start: seq<Message>, c: Counters, interactions: nat, turns: seq<Turn>): Result {
    if turns == [] then MaxToolCalls(LastContent(start), c.total, c.segment)
    else EndOfTurn(env, request, maxCalls, turns[|turns| - 1], c, interactions)
  }

  function EndOfTurn(env: Env, request: string, maxCalls: int, t: Turn, c: Counters, interactions: nat): Result {
    if t.reply.UpstreamFailure? || AnyCrashed(t.calls) then Failed(c.total, c.segment)
    else if t.reply.calls == [] then Answered(t.reply.text, c.total, c.segment)
    else if |t.calls| < |t.reply.calls| then MaxToolCalls(t.reply.text, c.total, c.segment)
    else if PendingOf(t.calls) != [] then
      Paused(SnapshotOf(After(env, t), request, maxCalls, c, interactions, PendingOf(t.calls)), c.total, c.segment)
    else MaxToolCalls(LastContent(After(env, t)), c.total, c.segment)
  }

  // ------------------------------------------------------------------ cost of a subagent tree

  function Power(base: nat, exponent: nat): nat {
    if exponent == 0 then 1 else base * Power(base, exponent - 1)
  }

  function GeometricSum(base: nat, top: nat): nat {
    if top == 0 then 1 else GeometricSum(base, top - 1) + Power(base, top)
  }

  lemma {:induction false} SumByFactoring(base: nat, top: nat)
    requires top > 0
    ensures GeometricSum(base, top) == 1 + base * GeometricSum(base, top - 1)
  {
    assert Power(base, 1) == base * Power(base, 0) == base;
    if top > 1 {
      SumByFactoring(base, top - 1);
      assert base * (GeometricSum(base, top - 2) + Power(base, top - 1))
          == base * GeometricSum(base, top - 2) + base * Power(base, top - 1);
    }
  }

  function Height(env: Env, depth: nat): nat {
    if depth < env.maxDepth then env.maxDepth - depth else 0
  }

  /** What a node of the tree and its subtree may cost, `below` its calls. */
  ghost predicate Affordable(env: Env, depth: nat, calls: nat, below: seq<Turn>) {
    |below| <= calls * Below(env, depth) && CallCount(below) <= calls * Below(env, depth)
  }

  lemma Distribute(a: nat, b: nat, factor: nat)
    ensures (a + b) * factor == a * factor + b * factor
  {
  }

  lemma CostGrows(env: Env, depth: nat, a: nat, b: nat, sum: nat, below: seq<Turn>, nested: seq<Turn>)
    requires Affordable(env, depth, a, below) && Affordable(env, depth, b, nested) && sum == a + b
    ensures Affordable(env, depth, sum, below + nested)
  {
    CallCountConcat(below, nested);
    Distribute(a, b, Below(env, depth));
  }

  /** The most tool calls, and also model calls, that one call can cause below itself. */
  function Below(env: Env, depth: nat): nat {
    var s := Max(env.subagentCalls, 0);
    if Height(env, depth) == 0 then 0 else s * GeometricSum(s, Height(env, depth) - 1)
  }

  lemma Scale(a: nat, b: nat, factor: nat)
    requires a <= b
    ensures a * factor <= b * factor
  {
  }

  lemma SubtreeCost(env: Env, depth: nat, own: nat, calls: nat, nested: nat)
    requires depth < env.maxDepth
    requires own <= Max(env.subagentCalls, 0) && calls <= Max(env.subagentCalls, 0)
    requires nested <= calls * Below(env, depth + 1)
    ensures own + nested <= Below(env, depth)
  {
    var s := Max(env.subagentCalls, 0);
    var h := Height(env, depth);
    assert GeometricSum(s, h - 1) == 1 + Below(env, depth + 1) by {
      if h > 1 { SumByFactoring(s, h - 1); }
    }
    NodeCost(s, own, calls, nested, Below(env, depth + 1));
  }

  lemma NodeCost(s: nat, own: nat, calls: nat, nested: nat, each: nat)
    requires own <= s && calls <= s && nested <= calls * each
    ensures own + nested <= s * (1 + each)
  {
    Scale(calls, s, each);
  }

  lemma {:induction false} CallCountConcat(a: seq<Turn>, b: seq<Turn>)
    ensures CallCount(a + b) == CallCount(a) + CallCount(b)
    decreases |b|
  {
    if b == [] {
      assert a + b == a;
    } else {
      assert (a + b)[..|a + b| - 1] == a + b[..|b| - 1];
      CallCountConcat(a, b[..|b| - 1]);
    }
  }

  // ------------------------------------------------------------------ why conversations stay well formed

  /** The provider never reuses an id of the conversation it is shown, nor repeats one within a reply. */
  ghost predicate FreshIds(env: Env) {
    forall path, n, messages ::
      env.model(path, n, messages).Reply? ==> FreshReply(messages, env.model(path, n, messages).calls)
  }

  ghost predicate FreshReply(messages: seq<Message>, calls: seq<Call>) {
    DistinctIds(calls) && CallIds(calls) !! AllCallIds(messages)
  }

  ghost predicate Ready(messages: seq<Message>) {
    Clean(messages) && Paired(messages)
  }

  ghost predicate AllPaired(turns: seq<Turn>) {
    forall k :: 0 <= k < |turns| ==> Paired(turns[k].prompt)
  }

  function WaitingIds(calls: seq<Executed>): set<string> {
    set e | e in calls && e.Waiting? :: e.call.id
  }

  /** The open ids after the results of a batch: those waiting and those not reached. */
  lemma {:induction false} ResultsClose(env: Env, m: seq<Message>, calls: seq<Call>, executed: seq<Executed>)
    requires Clean(m) && Open(m) == Some(CallIds(calls)) && DistinctIds(calls)
    requires InOrder(calls, executed) && !AnyCrashed(executed)
    ensures Clean(m + ResultsOf(env, executed))
    ensures Open(m + ResultsOf(env, executed)) == Some(WaitingIds(executed) + CallIds(calls[|executed|..]))
    decreases |executed|
  {
    if executed == [] {
      assert m + ResultsOf(env, executed) == m;
      assert calls[0..] == calls;
      assert WaitingIds(executed) + CallIds(calls) == CallIds(calls);
    } else {
      var n := |executed| - 1;
      var last := executed[n];
      assert !AnyCrashed(executed[..n]);
      ResultsClose(env, m, calls, executed[..n]);
      OneCallFurther(calls, executed);
      SplitIds(calls, executed);
      assert executed[..n] == executed[..|executed| - 1];
      var before := m + ResultsOf(env, executed[..n]);
      ResultStep(env, before, last, WaitingIds(executed[..n]), CallIds(calls[n + 1..]));
      assert m + ResultsOf(env, executed) == before + ResultOf(env, last);
    }
  }

  lemma ResultStep(env: Env, before: seq<Message>, e: Executed, waiting: set<string>, rest: set<string>)
    requires Clean(before) && Open(before) == Some(waiting + ({e.call.id} + rest)) && !e.Crashed?
    requires e.call.id !in waiting && e.call.id !in rest
    ensures var m' := before + ResultOf(env, e);
            && Clean(m')
            && Open(m') == Some(waiting + (if e.Waiting? then {e.call.id} else {}) + rest)
  {
    if e.Done? {
      var r := ResultOf(env, e)[0];
      CleanAfterResult(before, r.id, r.name, r.content);
      assert waiting + ({e.call.id} + rest) - {e.call.id} == waiting + {} + rest;
      assert before + ResultOf(env, e) == before + [r];
    } else {
      assert before + ResultOf(env, e) == before;
      assert waiting + ({e.call.id} + rest) == waiting + {e.call.id} + rest;
    }
  }

  lemma OneCallFurther(calls: seq<Call>, executed: seq<Executed>)
    requires DistinctIds(calls) && InOrder(calls, executed) && executed != []
    ensures var n := |executed| - 1; var last := executed[n];
            && last.call.id !in WaitingIds(executed[..n])
            && last.call.id !in CallIds(calls[n + 1..])
  {
    var n := |executed| - 1;
    forall e | e in executed[..n] ensures e.call.id != calls[n].id {
      var i :| 0 <= i < n && executed[i] == e;
    }
    forall c | c in calls[n + 1..] ensures c.id != calls[n].id {
      var i :| n + 1 <= i < |calls| && calls[i] == c;
    }
  }

  lemma SplitIds(calls: seq<Call>, executed: seq<Executed>)
    requires 0 < |executed| <= |calls| && executed[|executed| - 1].call == calls[|executed| - 1]
    ensures var n := |executed| - 1; var last := executed[n];
            && CallIds(calls[n..]) == {last.call.id} + CallIds(calls[n + 1..])
            && WaitingIds(executed) == WaitingIds(executed[..n]) + (if last.Waiting? then {last.call.id} else {})
  {
    var n := |executed| - 1;
    assert executed == executed[..n] + [executed[n]];
    assert calls[n..] == [calls[n]] + calls[n + 1..];
  }

  lemma {:induction false} PendingMeansWaiting(calls: seq<Executed>)
    ensures Ids(PendingOf(calls)) == WaitingIds(calls)
    ensures forall p :: p in PendingOf(calls) ==> p.interruptId == ""
  {
    if calls != [] {
      var last := calls[|calls| - 1];
      PendingMeansWaiting(calls[..|calls| - 1]);
      assert calls == calls[..|calls| - 1] + [last];
      var earlier := PendingOf(calls[..|calls| - 1]);
      if last.Waiting? {
        var p := Pending(last.call.id, last.displayName, last.call.arguments, "");
        assert PendingOf(calls) == earlier + [p];
        assert Ids(earlier + [p]) == Ids(earlier) + {p.id};
        assert WaitingIds(calls) == WaitingIds(calls[..|calls| - 1]) + {p.id};
      } else {
        assert PendingOf(calls) == earlier;
        assert WaitingIds(calls) == WaitingIds(calls[..|calls| - 1]);
      }
    }
  }

  lemma {:induction false} PendingCanonical(calls: seq<Call>, executed: seq<Executed>)
    requires DistinctIds(calls) && InOrder(calls, executed)
    ensures Canonical(PendingOf(executed))
    decreases |executed|
  {
    if executed != [] {
      var n := |executed| - 1;
      PendingCanonical(calls, executed[..n]);
      PendingMeansWaiting(executed[..n]);
      OneCallFurther(calls, executed);
      var earlier := PendingOf(executed[..n]);
      forall i | 0 <= i < |earlier| ensures earlier[i].id != calls[n].id {
        assert earlier[i] in earlier;
      }
      assert calls[n] in calls && forall i :: 0 <= i < |earlier| ==> earlier[i] in earlier;
    }
  }

  /** A turn asked in good order leaves the conversation waiting for exactly its pending calls. */
  lemma TurnLeaves(env: Env, path: seq<int>, depth: nat, n: nat, t: Turn)
    requires FreshIds(env) && TurnOk(env, path, depth, n, t) && Ready(t.prompt)
    requires t.reply.Reply? && |t.calls| == |t.reply.calls| && !AnyCrashed(t.calls)
    ensures Clean(After(env, t)) && Open(After(env, t)) == Some(Ids(PendingOf(t.calls)))
    ensures Canonical(PendingOf(t.calls))
  {
    assert FreshReply(t.prompt, t.reply.calls);
    CleanAfterAssistant(t.prompt, t.reply.text, t.reply.calls);
    ResultsClose(env, t.prompt + [Assistant(t.reply.text, t.reply.calls)], t.reply.calls, t.calls);
    PendingMeansWaiting(t.calls);
    PendingCanonical(t.reply.calls, t.calls);
    var open := t.prompt + [Assistant(t.reply.text, t.reply.calls)];
    assert After(env, t) == open + ResultsOf(env, t.calls);
    assert t.reply.calls[|t.calls|..] == [];
    assert WaitingIds(t.calls) + CallIds([]) == WaitingIds(t.calls);
  }

  /** At every model call of a segment each earlier tool call has its one result. */
  lemma {:induction false} PromptReady(env: Env, path: seq<int>, depth: nat, start: seq<Message>, total: int,
                                       interactions: nat, turns: seq<Turn>, k: nat)
    requires FreshIds(env) && Ready(start) && Chain(env, path, depth, start, total, interactions, turns) && k < |turns|
    ensures Ready(turns[k].prompt)
    decreases k
  {
    assert LinkOk(env, path, depth, start, total, interactions, turns, k);
    if k > 0 {
      PromptReady(env, path, depth, start, total, interactions, turns, k - 1);
      assert LinkOk(env, path, depth, start, total, interactions, turns, k - 1);
      assert LinkOk(env, path, depth, start, total, interactions, turns, k);
      TurnLeaves(env, path, depth, interactions + k, turns[k - 1]);
      assert Ids([]) == {};
    }
  }

  lemma ChainStaysPaired(env: Env, path: seq<int>, depth: nat, start: seq<Message>, total: int, interactions: nat, turns: seq<Turn>)
    requires FreshIds(env) && Ready(start) && Chain(env, path, depth, start, total, interactions, turns)
    ensures AllPaired(turns)
  {
    forall k | 0 <= k < |turns| ensures Paired(turns[k].prompt) {
      PromptReady(env, path, depth, start, total, interactions, turns, k);
    }
  }

  // ------------------------------------------------------------------ the loop

  function StartMessages(initial: seq<Message>, system: string, request: string): seq<Message> {
    if initial != [] then initial
    else (if system != "" then [System(system)] else []) + [User(request)]
  }

  lemma StartIsReady(system: string, request: string)
    ensures Ready(StartMessages([], system, request))
  {
    var first := if system != "" then [System(system)] else [];
    assert Open(first) == Some({}) by {
      OpenAppend([], System(system));
      assert [] + [System(system)] == [System(system)];
    }
    OpenAppend(first, User(request));
  }

  method ExecuteToolCall(env: Env, path: seq<int>, depth: nat, number: int, call: Call)
    returns (e: Executed, below: seq<Turn>)
    ensures e.call == call && Faithful(env, path, depth, number, e)
    ensures Affordable(env, depth, 1, below)
    ensures FreshIds(env) ==> AllPaired(below)
    decreases Height(env, depth), 0
  {
    below := [];
    match env.tool(path, number, call) {
      case Completed(value) => e := Done(call, Plain(value));
      case AwaitsUser(name) => e := Waiting(call, name);
      case Crashes => e := Crashed(call);
      case Delegate(prompt, system) =>
        var refusal := RefusalFor(env, depth, prompt);
        if refusal.Some? {
          e := Done(call, Refused(refusal.value));
        } else {
          var child, own, nested := RunSubagent(env, path + [number], depth + 1, prompt, system);
          below := own + nested;
          e := Done(call, Summary(child));
        }
    }
  }

  method RunSubagent(env: Env, path: seq<int>, depth: nat, prompt: string, system: string)
    returns (result: Result, own: seq<Turn>, nested: seq<Turn>)
    requires 0 < depth <= env.maxDepth
    ensures Chain(env, path, depth, StartMessages([], system, prompt), 0, 0, own)
    ensures result == Ending(env, prompt, env.subagentCalls, StartMessages([], system, prompt),
                             Plus(Counters(0, 0), CallCount(own)), |own|, own)
    ensures Affordable(env, depth - 1, 1, own + nested)
    ensures FreshIds(env) ==> AllPaired(own + nested)
    decreases Height(env, depth), 5
  {
    var start := StartMessages([], system, prompt);
    result, own, nested := RunLoop(env, path, depth, prompt, env.subagentCalls, start, Counters(0, 0), 0);
    CallCountConcat(own, nested);
    SubtreeCost(env, depth - 1, |own|, CallCount(own), |nested|);
    SubtreeCost(env, depth - 1, CallCount(own), CallCount(own), CallCount(nested));
    StartIsReady(system, prompt);
    if FreshIds(env) {
      ChainStaysPaired(env, path, depth, start, 0, 0, own);
    }
  }

  method RunBatch(env: Env, path: seq<int>, depth: nat, maxCalls: int, calls: seq<Call>, c: Counters)
    returns (executed: seq<Executed>, after: Counters, below: seq<Turn>)
    requires c.segment < maxCalls
    ensures Runs(env, path, depth, c.total, calls, executed)
    ensures after == Plus(c, |executed|) && after.segment <= maxCalls
    ensures |executed| < |calls| ==> AnyCrashed(executed) || after.segment == maxCalls
    ensures calls != [] ==> executed != []
    ensures Affordable(env, depth, |executed|, below)
    ensures FreshIds(env) ==> AllPaired(below)
    decreases Height(env, depth), 1
  {
    executed, after, below := [], c, [];
    while |executed| < |calls| && after.segment < maxCalls
      invariant Runs(env, path, depth, c.total, calls, executed) && !AnyCrashed(executed)
      invariant after == Plus(c, |executed|) && after.segment <= maxCalls
      invariant Affordable(env, depth, |executed|, below)
      invariant FreshIds(env) ==> AllPaired(below)
      decreases |calls| - |executed|
    {
      var call := calls[|executed|];
      after := Counters(after.segment + 1, after.total + 1);
      var e, nested := ExecuteToolCall(env, path, depth, after.total, call);
      CostGrows(env, depth, |executed|, 1, |executed + [e]|, below, nested);
      executed, below := executed + [e], below + nested;
      if e.Crashed? {
        assert executed[|executed| - 1].Crashed?;
        return;
      }
    }
  }

  /** The tool messages of a batch, appended one by one. */
  method AppendResults(env: Env, messages: seq<Message>, calls: seq<Executed>) returns (r: seq<Message>)
    ensures r == messages + ResultsOf(env, calls)
  {
    r := messages;
    for k := 0 to |calls|
      invariant r == messages + ResultsOf(env, calls[..k])
    {
      assert calls[..k + 1][..k] == calls[..k];
      match calls[k] {
        case Done(call, output) => r := r + [ToolResult(call.id, call.name, env.render(call, output))];
        case _ =>
      }
    }
    assert calls[..|calls|] == calls;
  }

  lemma RoundsExhausted(env: Env, request: string, maxCalls: int, t: Turn, c: Counters, interactions: nat)
    requires Complete(t)
    ensures EndOfTurn(env, request, maxCalls, t, c, interactions) == MaxToolCalls(LastContent(After(env, t)), c.total, c.segment)
  {
  }

  /** One model call and its batch. */
  method TakeTurn(env: Env, path: seq<int>, depth: nat, maxCalls: int, messages: seq<Message>, c: Counters, interaction: nat)
    returns (t: Turn, after: Counters, below: seq<Turn>)
    requires c.segment < maxCalls
    ensures TurnOk(env, path, depth, interaction, t) && t.prompt == messages && t.before == c.total
    ensures after == Plus(c, |t.calls|) && after.segment <= maxCalls
    ensures t.reply.Reply? && |t.calls| < |t.reply.calls| ==> AnyCrashed(t.calls) || after.segment == maxCalls
    ensures t.reply.Reply? && t.reply.calls != [] ==> t.calls != []
    ensures Affordable(env, depth, |t.calls|, below)
    ensures FreshIds(env) ==> AllPaired(below)
    decreases Height(env, depth), 2
  {
    var reply := env.model(path, interaction, messages);
    t, after, below := Turn(messages, reply, [], c.total), c, [];
    if reply.Reply? {
      var executed;
      executed, after, below := RunBatch(env, path, depth, maxCalls, reply.calls, c);
      t := t.(calls := executed);
    }
  }

  /** After the batch: stop, or append the results and go round again. */
  method SettleTurn(env: Env, request: string, maxCalls: int, t: Turn, c: Counters, interactions: nat)
    returns (messages: seq<Message>, end: Option<Result>)
    requires t.reply.Reply? ==> |t.calls| <= |t.reply.calls|
    requires t.reply.UpstreamFailure? ==> t.calls == []
    ensures end == if Complete(t) then None else Some(EndOfTurn(env, request, maxCalls, t, c, interactions))
    ensures end.None? ==> messages == After(env, t)
    ensures end.Some? && end.value.MaxToolCalls? ==>
              t.reply.Reply? && |t.calls| < |t.reply.calls| && !AnyCrashed(t.calls) && end.value.madeNow == c.segment
  {
    messages := t.prompt;
    if t.reply.UpstreamFailure? || AnyCrashed(t.calls) {
      return messages, Some(Failed(c.total, c.segment));
    }
    messages := messages + [Assistant(t.reply.text, t.reply.calls)];
    if t.reply.calls == [] {
      return messages, Some(Answered(t.reply.text, c.total, c.segment));
    }
    if |t.calls| < |t.reply.calls| {
      return messages, Some(MaxToolCalls(LastContent(messages), c.total, c.segment));
    }
    messages := AppendResults(env, messages, t.calls);
    var pending := PendingOf(t.calls);
    if pending != [] {
      return messages, Some(Paused(SnapshotOf(messages, request, maxCalls, c, interactions, pending), c.total, c.segment));
    }
    end := None;
  }

  /** What every round keeps of a segment: its turns, their number and their cost. */
  ghost predicate Within(env: Env, path: seq<int>, depth: nat, maxCalls: int, start: seq<Message>, c: Counters,
                         interactions: nat, turns: seq<Turn>, counters: Counters, below: seq<Turn>)
  {
    && Chain(env, path, depth, start, c.total, interactions, turns)
    && counters == Plus(c, CallCount(turns))
    && |turns| <= Max(maxCalls - c.segment, 0) && CallCount(turns) <= Max(maxCalls - c.segment, 0)
    && Affordable(env, depth, CallCount(turns), below)
    && (FreshIds(env) ==> AllPaired(below))
  }

  method RunLoop(env: Env, path: seq<int>, depth: nat, request: string, maxCalls: int,
                 start: seq<Message>, c: Counters, interactions: nat)
    returns (result: Result, turns: seq<Turn>, below: seq<Turn>)
    ensures Within(env, path, depth, maxCalls, start, c, interactions, turns, Plus(c, CallCount(turns)), below)
    ensures result == Ending(env, request, maxCalls, start, Plus(c, CallCount(turns)), interactions + |turns|, turns)
    ensures result.MaxToolCalls? ==> result.madeNow >= maxCalls
    decreases Height(env, depth), 4
  {
    var messages, counters, end := start, c, None;
    turns, below := [], [];
    while counters.segment < maxCalls
      invariant Within(env, path, depth, maxCalls, start, c, interactions, turns, counters, below)
      invariant GoesOn(turns) && messages == NextPrompt(env, start, turns) && |turns| <= CallCount(turns)
      decreases maxCalls - counters.segment
    {
      turns, messages, counters, below, end :=
        Round(env, path, depth, request, maxCalls, start, c, interactions, turns, messages, counters, below);
      if end.Some? {
        return end.value, turns, below;
      }
    }
    if turns != [] {
      RoundsExhausted(env, request, maxCalls, turns[|turns| - 1], counters, interactions + |turns|);
    }
    result := MaxToolCalls(LastContent(messages), counters.total, counters.segment);
  }

  /** The body of the loop. */
  method Round(env: Env, path: seq<int>, depth: nat, request: string, maxCalls: int, start: seq<Message>, c: Counters,
               interactions: nat, turns0: seq<Turn>, messages0: seq<Message>, counters0: Counters, below0: seq<Turn>)
    returns (turns: seq<Turn>, messages: seq<Message>, counters: Counters, below: seq<Turn>, end: Option<Result>)
    requires Within(env, path, depth, maxCalls, start, c, interactions, turns0, counters0, below0)
    requires GoesOn(turns0) && messages0 == NextPrompt(env, start, turns0) && |turns0| <= CallCount(turns0)
    requires counters0.segment < maxCalls
    ensures Within(env, path, depth, maxCalls, start, c, interactions, turns, counters, below)
    ensures end.None? ==> GoesOn(turns) && messages == NextPrompt(env, start, turns) && |turns| <= CallCount(turns)
    ensures end.None? ==> counters.segment > counters0.segment
    ensures end.Some? ==>
              turns != [] && end.value == EndOfTurn(env, request, maxCalls, turns[|turns| - 1], counters, interactions + |turns|)
    ensures end.Some? && end.value.MaxToolCalls? ==> end.value.madeNow >= maxCalls
    decreases Height(env, depth), 3
  {
    var n := interactions + |turns0| + 1;
    var t, after, nested := TakeTurn(env, path, depth, maxCalls, messages0, counters0, n);
    turns := AddTurn(env, path, depth, start, c.total, interactions, turns0, t);
    CostGrows(env, depth, CallCount(turns0), |t.calls|, CallCount(turns), below0, nested);
    counters, below := after, below0 + nested;
    messages, end := SettleTurn(env, request, maxCalls, t, counters, n);
  }

  method AddTurn(env: Env, path: seq<int>, depth: nat, start: seq<Message>, total: int, interactions: nat,
                 turns: seq<Turn>, t: Turn) returns (r: seq<Turn>)
    requires Chain(env, path, depth, start, total, interactions, turns) && GoesOn(turns)
    requires t.prompt == NextPrompt(env, start, turns) && t.before == total + CallCount(turns)
    requires TurnOk(env, path, depth, interactions + |turns| + 1, t)
    ensures Chain(env, path, depth, start, total, interactions, r)
    ensures r != [] && r[|r| - 1] == t && |r| == |turns| + 1
    ensures CallCount(r) == CallCount(turns) + |t.calls|
  {
    r := turns + [t];
    assert r[..|turns|] == turns;
    forall k | 0 <= k < |turns| ensures LinkOk(env, path, depth, start, total, interactions, r, k) {
      assert LinkOk(env, path, depth, start, total, interactions, turns, k);
      assert r[..k] == turns[..k];
    }
    assert LinkOk(env, path, depth, start, total, interactions, r, |turns|);
  }
}
