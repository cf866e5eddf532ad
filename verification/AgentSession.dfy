/**
 A whole agent session: one fresh segment and any number of resumes, each possibly under a
 different model, tools and limits, each answering some of the pending calls.
 */
module AgentSession {
  import opened Common
  import opened Conversation
  import opened BatchResume
  import opened ToolLoop

  // ------------------------------------------------------------------ entering a segment

  /** A resume starts its own segment and carries the cumulative count on. */
  function RestoreCounters(s: Snapshot): Counters {
    Counters(0, match s.totalCount
                case Some(total) => total
                case None => match s.toolCallCount case Some(count) => count case None => 0)
  }

  lemma CountersSurviveTheSnapshot(messages: seq<Message>, request: string, maxCalls: int, c: Counters,
                                   interactions: nat, pending: seq<Pending>)
    ensures var s := SnapshotOf(messages, request, maxCalls, c, interactions, pending);
            RestoreCounters(s) == RestoreCounters(s.(totalCount := None)) == Counters(0, c.total)
  {
  }

  /** A pause stores the count it reports. */
  predicate CountStored(r: Result) {
    r.Paused? ==> RestoreCounters(r.state).total == r.made
  }

  function LimitFor(env: Env, explicit: Option<int>, stored: Option<int>): int {
    if explicit.Some? then explicit.value else if stored.Some? then stored.value else env.defaultCalls
  }

  /** The pending calls of a snapshot, old single-call snapshots included. */
  function Held(s: Snapshot): seq<Pending> {
    if s.pendingTools != [] then s.pendingTools
    else if s.pendingTool.Some? then [s.pendingTool.value]
    else []
  }

  /** The older single response comes last and, without a call id, answers the first pending call. */
  function AllResponses(s: Snapshot, responses: seq<Response>, single: Option<Response>): seq<Response> {
    match single
    case None => responses
    case Some(r) =>
      var named := if r.toolCallId == "" && r.toolCallIdCamel == "" && Held(s) != []
                   then r.(toolCallId := Held(s)[0].id) else r;
      responses + [named]
  }

  /** How a resumed segment begins: it enters the loop, or ends before any model call. */
  datatype Entry = Enters(messages: seq<Message>) | Ends(result: Result)

  function EntryFor(s: Snapshot, maxCalls: int, responses: seq<Response>): Entry {
    var c := RestoreCounters(s);
    var messages := if s.messages == [] then [User(s.request)] else s.messages;
    if Held(s) == [] then Enters(messages)
    else if responses == [] then Ends(Failed(c.total, c.segment))
    else
      var b := AnswerAll(Batch(messages, Held(s)), responses);
      if b.pending == [] then Enters(b.messages)
      else Ends(Paused(SnapshotOf(b.messages, s.request, maxCalls, c, s.interactions, b.pending), c.total, c.segment))
  }

  method EnterResumed(s: Snapshot, maxCalls: int, responses: seq<Response>) returns (entry: Entry)
    ensures Canonical(Held(s)) ==> entry == EntryFor(s, maxCalls, responses)
    ensures entry.Ends? ==> entry.result.made == RestoreCounters(s).total && entry.result.madeNow == 0 && CountStored(entry.result)
  {
    var c := RestoreCounters(s);
    var messages := s.messages;
    if messages == [] {
      messages := [User(s.request)];
    }
    var pending := Held(s);
    if pending != [] && responses != [] {
      messages, pending := ApplyResponses(messages, pending, responses);
      if pending != [] {
        return Ends(Paused(SnapshotOf(messages, s.request, maxCalls, c, s.interactions, pending), c.total, c.segment));
      }
    } else if pending != [] {
      return Ends(Failed(c.total, c.segment));
    }
    entry := Enters(messages);
  }

  // ------------------------------------------------------------------ cost

  /** M * (1 + S + ... + S^D). */
  function TreeBound(env: Env, maxCalls: int): nat {
    Max(maxCalls, 0) * GeometricSum(Max(env.subagentCalls, 0), Max(env.maxDepth, 0))
  }

  lemma TreeCost(env: Env, maxCalls: int, own: nat, calls: nat, nested: nat)
    requires own <= Max(maxCalls, 0) && calls <= Max(maxCalls, 0) && nested <= calls * Below(env, 0)
    ensures own + nested <= TreeBound(env, maxCalls)
  {
    var s, d := Max(env.subagentCalls, 0), Max(env.maxDepth, 0);
    assert GeometricSum(s, d) == 1 + Below(env, 0) by {
      if d > 0 { SumByFactoring(s, d); }
    }
    NodeCost(Max(maxCalls, 0), own, calls, nested, Below(env, 0));
  }

  // ------------------------------------------------------------------ one segment

  /** A segment that ran `turns` of its own, from `start`, having `c` counted before. */
  ghost predicate Ran(env: Env, request: string, maxCalls: int, start: seq<Message>, c: Counters, interactions: nat,
                      turns: seq<Turn>, result: Result)
  {
    && Chain(env, [], 0, start, c.total, interactions, turns)
    && result == Ending(env, request, maxCalls, start, Plus(c, CallCount(turns)), interactions + |turns|, turns)
  }

  /** What a segment costs, subagents included, and that every conversation below it was well formed. */
  ghost predicate Bounded(env: Env, maxCalls: int, turns: seq<Turn>, below: seq<Turn>) {
    && |turns| <= Max(maxCalls, 0) && CallCount(turns) <= Max(maxCalls, 0)
    && |turns| + |below| <= TreeBound(env, maxCalls) && CallCount(turns) + CallCount(below) <= TreeBound(env, maxCalls)
    && (FreshIds(env) ==> AllPaired(below))
  }

  method RunSegment(env: Env, request: string, maxCalls: int, start: seq<Message>, total: int, interactions: nat)
    returns (result: Result, turns: seq<Turn>, below: seq<Turn>)
    ensures Ran(env, request, maxCalls, start, Counters(0, total), interactions, turns, result)
    ensures Bounded(env, maxCalls, turns, below)
    ensures result.MaxToolCalls? ==> result.madeNow >= maxCalls
    ensures CountStored(result)
  {
    result, turns, below := RunLoop(env, [], 0, request, maxCalls, start, Counters(0, total), interactions);
    TreeCost(env, maxCalls, |turns|, CallCount(turns), |below|);
    TreeCost(env, maxCalls, CallCount(turns), CallCount(turns), CallCount(below));
  }

  /** A new request. */
  method ProcessRequest(env: Env, request: string, limit: Option<int>, initial: seq<Message>, system: string)
    returns (result: Result, turns: seq<Turn>, below: seq<Turn>)
    ensures Ran(env, request, LimitFor(env, limit, None), StartMessages(initial, system, request), Counters(0, 0), 0, turns, result)
    ensures Bounded(env, LimitFor(env, limit, None), turns, below)
    ensures CountStored(result)
  {
    var start := StartMessages(initial, system, request);
    result, turns, below := RunSegment(env, request, LimitFor(env, limit, None), start, 0, 0);
  }

  /** A resumed segment ends at once, or runs from the conversation the answered batch leaves. */
  ghost predicate Resumed(env: Env, s: Snapshot, maxCalls: int, responses: seq<Response>, turns: seq<Turn>, result: Result) {
    var entry := EntryFor(s, maxCalls, responses);
    if entry.Ends? then result == entry.result && turns == []
    else Ran(env, s.request, maxCalls, entry.messages, RestoreCounters(s), s.interactions, turns, result)
  }

  /** A resume from a snapshot. */
  method ResumeRequest(env: Env, s: Snapshot, limit: Option<int>, responses: seq<Response>, single: Option<Response>)
    returns (result: Result, turns: seq<Turn>, below: seq<Turn>)
    ensures Canonical(Held(s)) ==>
              Resumed(env, s, LimitFor(env, limit, s.maxCalls), AllResponses(s, responses, single), turns, result)
    ensures Bounded(env, LimitFor(env, limit, s.maxCalls), turns, below)
    ensures result.made == RestoreCounters(s).total + CallCount(turns) && result.madeNow == CallCount(turns)
    ensures CountStored(result)
  {
    var maxCalls := LimitFor(env, limit, s.maxCalls);
    var entry := EnterResumed(s, maxCalls, AllResponses(s, responses, single));
    match entry {
      case Ends(r) =>
        result, turns, below := r, [], [];
        TreeCost(env, maxCalls, 0, 0, 0);
      case Enters(start) =>
        result, turns, below := RunSegment(env, s.request, maxCalls, start, RestoreCounters(s).total, s.interactions);
    }
  }

  // ------------------------------------------------------------------ pauses keep what resumes need

  /** The conversation waits for exactly the pending calls, none of them answered before. */
  ghost predicate Resumable(s: Snapshot) {
    && s.messages != [] && Clean(s.messages)
    && Canonical(Held(s))
    && Open(s.messages) == Some(Ids(Held(s)))
  }

  lemma StoredBatch(messages: seq<Message>, request: string, maxCalls: int, c: Counters, interactions: nat, pending: seq<Pending>)
    requires Canonical(pending) && pending != []
    ensures var s := SnapshotOf(messages, request, maxCalls, c, interactions, pending);
            Canonical(Held(s)) && Ids(Held(s)) == Ids(pending)
  {
    EnrichKeeps(pending);
    EnrichLength(pending);
  }

  lemma PausedAt(env: Env, request: string, maxCalls: int, start: seq<Message>, c: Counters,
                 interactions: nat, turns: seq<Turn>, result: Result)
    requires Ran(env, request, maxCalls, start, c, interactions, turns, result) && result.Paused?
    ensures turns != []
    ensures var t := turns[|turns| - 1];
            && t.reply.Reply? && |t.calls| == |t.reply.calls| && !AnyCrashed(t.calls) && PendingOf(t.calls) != []
            && TurnOk(env, [], 0, interactions + |turns|, t)
            && result.state == SnapshotOf(After(env, t), request, maxCalls, Plus(c, CallCount(turns)),
                                          interactions + |turns|, PendingOf(t.calls))
            && result.made == Plus(c, CallCount(turns)).total
  {
    assert LinkOk(env, [], 0, start, c.total, interactions, turns, |turns| - 1);
  }

  /** The pause of a well-started segment is resumable. */
  lemma PauseIsResumable(env: Env, request: string, maxCalls: int, start: seq<Message>, c: Counters,
                         interactions: nat, turns: seq<Turn>, result: Result)
    requires FreshIds(env) && Ready(start)
    requires Ran(env, request, maxCalls, start, c, interactions, turns, result) && result.Paused?
    ensures Resumable(result.state) && RestoreCounters(result.state) == Counters(0, result.made)
  {
    PausedAt(env, request, maxCalls, start, c, interactions, turns, result);
    var k := |turns| - 1;
    var t := turns[k];
    PromptReady(env, [], 0, start, c.total, interactions, turns, k);
    TurnLeaves(env, [], 0, interactions + k + 1, t);
    StoredBatch(After(env, t), request, maxCalls, Plus(c, CallCount(turns)), interactions + |turns|, PendingOf(t.calls));
  }

  lemma CleanIsFresh(messages: seq<Message>, pending: seq<Pending>)
    requires Clean(messages) && Canonical(pending) && Ids(pending) <= Open(messages).value
    ensures Fresh(Batch(messages, pending))
  {
    forall p | p in pending ensures !HasResult(messages, p.id) {
      assert p.id in Ids(pending) && p.id !in ResultIds(messages);
    }
  }

  /** Each response closes the calls it answers and no other. */
  lemma {:induction false} AnswersClose(b: Batch, responses: seq<Response>)
    requires Clean(b.messages) && Canonical(b.pending) && Open(b.messages) == Some(Ids(b.pending))
    ensures var b' := AnswerAll(b, responses);
            Clean(b'.messages) && Canonical(b'.pending) && Open(b'.messages) == Some(Ids(b'.pending))
    decreases |responses|
  {
    if responses != [] {
      AnswerCloses(b, responses[0]);
      AnswersClose(Answer(b, responses[0]), responses[1..]);
    }
  }

  lemma AnswerCloses(b: Batch, r: Response)
    requires Clean(b.messages) && Canonical(b.pending) && Open(b.messages) == Some(Ids(b.pending))
    ensures var b' := Answer(b, r);
            Clean(b'.messages) && Canonical(b'.pending) && Open(b'.messages) == Some(Ids(b'.pending))
  {
    CleanIsFresh(b.messages, b.pending);
    AnswerConserves(b, r);
    var id := ResponseId(r);
    var p := Lookup(b.pending, id);
    if id != "" && p.Some? {
      assert p.value.id in Ids(b.pending);
      CleanAfterResult(b.messages, id, p.value.name, r.content);
    }
  }

  ghost predicate ReadyOrResumable(entry: Entry) {
    if entry.Enters? then Ready(entry.messages)
    else entry.result.Paused? ==> Resumable(entry.result.state) && CountStored(entry.result)
  }

  /** Resuming a resumable snapshot enters the loop ready, or pauses again on a resumable one. */
  lemma ResumeKeepsOrder(s: Snapshot, maxCalls: int, responses: seq<Response>)
    requires Resumable(s)
    ensures ReadyOrResumable(EntryFor(s, maxCalls, responses))
  {
    var b0 := Batch(s.messages, Held(s));
    AnswersClose(b0, responses);
    CleanIsFresh(s.messages, Held(s));
    ResultsCounted(b0, responses);
    var b := AnswerAll(b0, responses);
    assert Ids([]) == {};
    if b.pending != [] {
      StoredBatch(b.messages, s.request, maxCalls, RestoreCounters(s), s.interactions, b.pending);
    }
  }

  // ------------------------------------------------------------------ delivery over several resumes

  /** One resume request: its limit and its responses, of which there is at least one. */
  datatype Delivery = Delivery(maxCalls: int, responses: seq<Response>)

  predicate AllDeliver(deliveries: seq<Delivery>) {
    forall k :: 0 <= k < |deliveries| ==> deliveries[k].responses != []
  }

  /** What the stored snapshot of a partial resume makes of a second one. */
  lemma TwoDeliveries(s: Snapshot, m1: int, first: seq<Response>, m2: int, second: seq<Response>)
    requires first != [] && second != [] && EntryFor(s, m1, first).Ends?
    ensures EntryFor(s, m1, first).result.Paused?
    ensures EntryFor(EntryFor(s, m1, first).result.state, m2, second) == EntryFor(s, m2, first + second)
  {
    var messages := if s.messages == [] then [User(s.request)] else s.messages;
    var b0 := Batch(messages, Held(s));
    var b1 := AnswerAll(b0, first);
    var stored := EntryFor(s, m1, first).result.state;
    EnrichLength(b1.pending);
    assert b1.messages != [] by { MessagesGrow(b0, first); }
    assert Held(stored) == Enrich(b1.pending) && stored.messages == b1.messages;
    assert RestoreCounters(stored) == RestoreCounters(s);
    SplitDelivery(b0, first, second);
    SnapshotIsTransparent(b1, second);
    EnrichLength(AnswerAll(b1, second).pending);
    EnrichTwice(AnswerAll(b1, second).pending);
  }

  lemma {:induction false} MessagesGrow(b: Batch, responses: seq<Response>)
    ensures |AnswerAll(b, responses).messages| >= |b.messages|
    decreases |responses|
  {
    if responses != [] { MessagesGrow(Answer(b, responses[0]), responses[1..]); }
  }

  /** A resume without responses on a stored batch is refused, whatever came before. */
  lemma EmptyDeliveryFails(s: Snapshot, m1: int, first: seq<Response>, m2: int)
    requires first != [] && EntryFor(s, m1, first).Ends?
    ensures EntryFor(EntryFor(s, m1, first).result.state, m2, []) == Ends(Failed(RestoreCounters(s).total, 0))
  {
    EnrichLength(AnswerAll(Batch(if s.messages == [] then [User(s.request)] else s.messages, Held(s)), first).pending);
  }

  /** Resume after resume, each from the snapshot the one before stored, until one enters the loop. */
  function DeliverEach(s: Snapshot, deliveries: seq<Delivery>): Entry
    requires deliveries != []
    decreases |deliveries|
  {
    var entry := EntryFor(s, deliveries[0].maxCalls, deliveries[0].responses);
    if |deliveries| == 1 || !(entry.Ends? && entry.result.Paused?) then entry
    else DeliverEach(entry.result.state, deliveries[1..])
  }

  function Delivered(deliveries: seq<Delivery>): seq<Response> {
    if deliveries == [] then [] else deliveries[0].responses + Delivered(deliveries[1..])
  }

  /** Delivering responses over any number of resumes ends as delivering them all at once. */
  lemma {:induction false} DeliveriesAddUp(s: Snapshot, deliveries: seq<Delivery>)
    requires deliveries != [] && AllDeliver(deliveries)
    ensures DeliverEach(s, deliveries) == EntryFor(s, deliveries[|deliveries| - 1].maxCalls, Delivered(deliveries))
    decreases |deliveries|
  {
    var d, rest := deliveries[0], deliveries[1..];
    if rest == [] {
      assert d.responses + [] == d.responses;
    } else {
      var last := deliveries[|deliveries| - 1].maxCalls;
      var entry := EntryFor(s, d.maxCalls, d.responses);
      assert rest[0] == deliveries[1] && AllDeliver(rest);
      if entry.Ends? {
        DeliveriesAddUp(entry.result.state, rest);
        assert Delivered(rest) != [] by { assert rest[0].responses != []; }
        TwoDeliveries(s, d.maxCalls, d.responses, last, Delivered(rest));
      } else {
        EnteringIgnoresTheRest(s, d.maxCalls, d.responses, last, Delivered(rest));
      }
    }
  }

  /** Once the batch is complete, further responses would have changed nothing. */
  lemma EnteringIgnoresTheRest(s: Snapshot, m1: int, first: seq<Response>, m2: int, more: seq<Response>)
    requires first != [] && EntryFor(s, m1, first).Enters?
    ensures EntryFor(s, m2, first + more) == EntryFor(s, m1, first)
  {
    if Held(s) != [] {
      var b0 := Batch(if s.messages == [] then [User(s.request)] else s.messages, Held(s));
      SplitDelivery(b0, first, more);
      NothingToAnswer(AnswerAll(b0, first).messages, more);
    }
  }

  // ------------------------------------------------------------------ any number of resumes

  /** One resume: the world it runs in and what the user sent. */
  datatype Visit = Visit(env: Env, limit: Option<int>, responses: seq<Response>, single: Option<Response>)

  ghost predicate AllFresh(visits: seq<Visit>) {
    forall k :: 0 <= k < |visits| ==> FreshIds(visits[k].env)
  }

  lemma SegmentIsPaired(env: Env, request: string, maxCalls: int, start: seq<Message>, c: Counters,
                        interactions: nat, turns: seq<Turn>, result: Result)
    requires FreshIds(env) && Ready(start)
    requires Ran(env, request, maxCalls, start, c, interactions, turns, result)
    ensures AllPaired(turns)
    ensures result.Paused? ==> Resumable(result.state)
  {
    ChainStaysPaired(env, [], 0, start, c.total, interactions, turns);
    if result.Paused? {
      PauseIsResumable(env, request, maxCalls, start, c, interactions, turns, result);
    }
  }

  lemma ResumeIsPaired(env: Env, s: Snapshot, maxCalls: int, responses: seq<Response>, turns: seq<Turn>, result: Result)
    requires FreshIds(env) && Resumable(s)
    requires Resumed(env, s, maxCalls, responses, turns, result)
    ensures AllPaired(turns)
    ensures result.Paused? ==> Resumable(result.state)
  {
    ResumeKeepsOrder(s, maxCalls, responses);
    var entry := EntryFor(s, maxCalls, responses);
    if entry.Enters? {
      SegmentIsPaired(env, s.request, maxCalls, entry.messages, RestoreCounters(s), s.interactions, turns, result);
    }
  }

  /**
   The session. At every model call of every segment, and of every subagent, each tool call
   of each earlier assistant message has its one result (`Conversation.PairedMeans`), and the
   cumulative counter is the number of tool calls of all segments.
   */
  method RunSession(env: Env, request: string, limit: Option<int>, initial: seq<Message>, system: string, visits: seq<Visit>)
    returns (result: Result, turns: seq<Turn>, below: seq<Turn>)
    ensures FreshIds(env) && AllFresh(visits) && Ready(StartMessages(initial, system, request)) ==>
              AllPaired(turns) && AllPaired(below) && (result.Paused? ==> Resumable(result.state))
    ensures result.made == CallCount(turns)
  {
    result, turns, below := ProcessRequest(env, request, limit, initial, system);
    ghost var start := StartMessages(initial, system, request);
    ghost var good := FreshIds(env) && AllFresh(visits) && Ready(start);
    if good {
      SegmentIsPaired(env, request, LimitFor(env, limit, None), start, Counters(0, 0), 0, turns, result);
    }
    var n := 0;
    while n < |visits| && result.Paused?
      invariant n <= |visits|
      invariant good ==> AllPaired(turns) && AllPaired(below) && (result.Paused? ==> Resumable(result.state))
      invariant result.made == CallCount(turns)
      invariant CountStored(result)
    {
      var v, s := visits[n], result.state;
      var own, nested;
      result, own, nested := ResumeRequest(v.env, s, v.limit, v.responses, v.single);
      CallCountConcat(turns, own);
      if good {
        ResumeIsPaired(v.env, s, LimitFor(v.env, v.limit, s.maxCalls), AllResponses(s, v.responses, v.single), own, result);
      }
      turns, below, n := turns + own, below + nested, n + 1;
    }
  }
}
