/**
 Answering a batch of pending tool calls from a list of responses: any order, duplicates,
 unknown ids, some calls left for a later resume.
 */
module BatchResume {
  import opened Common
  import opened Conversation

  /** A pending tool call; "" stands for an absent id. */
  datatype Pending = Pending(id: string, name: string, arguments: string, interruptId: string)

  /** A response and the four spellings under which it may carry its id. */
  datatype Response = Response(toolCallId: string, toolCallIdCamel: string,
                               interruptId: string, interruptIdCamel: string, content: string)

  function ResponseId(r: Response): string {
    if r.toolCallId != "" then r.toolCallId
    else if r.toolCallIdCamel != "" then r.toolCallIdCamel
    else if r.interruptId != "" then r.interruptId
    else r.interruptIdCamel
  }

  predicate HasResult(messages: seq<Message>, id: string) {
    exists i :: 0 <= i < |messages| && messages[i].ToolResult? && messages[i].id == id
  }

  // ------------------------------------------------------------------ the insertion-ordered dict

  type Dict = seq<(string, Pending)>

  function DictGet(d: Dict, key: string): Option<Pending> {
    if d == [] then None else if d[0].0 == key then Some(d[0].1) else DictGet(d[1..], key)
  }

  /** Assignment keeps the position of an existing key. */
  function DictPut(d: Dict, key: string, p: Pending): Dict {
    if d == [] then [(key, p)]
    else if d[0].0 == key then [(key, p)] + d[1..]
    else [d[0]] + DictPut(d[1..], key, p)
  }

  function DictPop(d: Dict, key: string): Dict {
    if d == [] then [] else if d[0].0 == key then d[1..] else [d[0]] + DictPop(d[1..], key)
  }

  // ------------------------------------------------------------------ the specification

  /** What a batch built by the loop looks like: distinct ids, the interrupt named after its call. */
  predicate Canonical(pending: seq<Pending>) {
    && (forall i :: 0 <= i < |pending| ==> pending[i].id != "" && pending[i].interruptId in {"", pending[i].id})
    && (forall i, j :: 0 <= i < j < |pending| ==> pending[i].id != pending[j].id)
  }

  function Ids(pending: seq<Pending>): set<string> {
    set p | p in pending :: p.id
  }

  function Lookup(pending: seq<Pending>, id: string): (r: Option<Pending>)
    ensures r.Some? ==> r.value in pending && r.value.id == id
    ensures r.None? ==> id !in Ids(pending)
  {
    if pending == [] then None
    else if pending[0].id == id then Some(pending[0])
    else Lookup(pending[1..], id)
  }

  function Without(pending: seq<Pending>, id: string): seq<Pending> {
    if pending == [] then []
    else if pending[0].id == id then Without(pending[1..], id)
    else [pending[0]] + Without(pending[1..], id)
  }

  datatype Batch = Batch(messages: seq<Message>, pending: seq<Pending>)

  function Answer(b: Batch, r: Response): Batch {
    var id := ResponseId(r);
    var p := Lookup(b.pending, id);
    if id == "" || p.None? then b
    else if HasResult(b.messages, id) then b.(pending := Without(b.pending, id))
    else Batch(b.messages + [ToolResult(id, p.value.name, r.content)], Without(b.pending, id))
  }

  function AnswerAll(b: Batch, responses: seq<Response>): Batch
    decreases |responses|
  {
    if responses == [] then b else AnswerAll(Answer(b, responses[0]), responses[1..])
  }

  // ------------------------------------------------------------------ the loop

  function Keyed(pending: seq<Pending>): Dict {
    if pending == [] then [] else [(pending[0].id, pending[0])] + Keyed(pending[1..])
  }

  lemma {:induction false} KeyedAppend(pending: seq<Pending>, p: Pending)
    ensures Keyed(pending + [p]) == Keyed(pending) + [(p.id, p)]
  {
    if pending == [] {
      assert pending + [p] == [p];
    } else {
      assert (pending + [p])[1..] == pending[1..] + [p];
      KeyedAppend(pending[1..], p);
    }
  }

  lemma {:induction false} PutNew(pending: seq<Pending>, p: Pending)
    requires p.id !in Ids(pending)
    ensures DictPut(Keyed(pending), p.id, p) == Keyed(pending) + [(p.id, p)]
    ensures DictPut(Keyed(pending) + [(p.id, p)], p.id, p) == Keyed(pending) + [(p.id, p)]
  {
    if pending != [] {
      assert pending[0].id != p.id;
      assert forall q :: q in pending[1..] ==> q in pending;
      PutNew(pending[1..], p);
      assert (Keyed(pending) + [(p.id, p)])[1..] == Keyed(pending[1..]) + [(p.id, p)];
    }
  }

  lemma {:induction false} GetKeyed(pending: seq<Pending>, key: string)
    ensures DictGet(Keyed(pending), key) == Lookup(pending, key)
  {
    if pending != [] {
      assert Keyed(pending)[1..] == Keyed(pending[1..]);
      GetKeyed(pending[1..], key);
    }
  }

  lemma {:induction false} WithoutAbsent(pending: seq<Pending>, id: string)
    requires id !in Ids(pending)
    ensures Without(pending, id) == pending
  {
    if pending != [] {
      assert pending[0] in pending && forall q :: q in pending[1..] ==> q in pending;
      WithoutAbsent(pending[1..], id);
    }
  }

  lemma CanonicalTail(pending: seq<Pending>)
    requires Canonical(pending) && pending != []
    ensures Canonical(pending[1..]) && pending[0].id !in Ids(pending[1..])
  {
    forall p | p in pending[1..] ensures p.id != pending[0].id {
      var i :| 0 <= i < |pending[1..]| && pending[1..][i] == p;
      assert pending[i + 1] == p;
    }
  }

  lemma {:induction false} PopKeyed(pending: seq<Pending>, key: string)
    requires Canonical(pending)
    ensures DictPop(Keyed(pending), key) == Keyed(Without(pending, key))
  {
    if pending != [] {
      CanonicalTail(pending);
      assert Keyed(pending)[1..] == Keyed(pending[1..]);
      if pending[0].id == key {
        WithoutAbsent(pending[1..], key);
      } else {
        PopKeyed(pending[1..], key);
      }
    }
  }

  lemma {:induction false} WithoutCanonical(pending: seq<Pending>, id: string)
    requires Canonical(pending)
    ensures Canonical(Without(pending, id)) && Ids(Without(pending, id)) == Ids(pending) - {id}
    ensures forall p :: p in Without(pending, id) <==> p in pending && p.id != id
  {
    if pending != [] {
      CanonicalTail(pending);
      WithoutCanonical(pending[1..], id);
      assert pending == [pending[0]] + pending[1..];
      var rest := Without(pending[1..], id);
      if pending[0].id != id {
        var all := [pending[0]] + rest;
        forall i, j | 0 <= i < j < |all| ensures all[i].id != all[j].id {
          if i == 0 { assert all[j] in rest; }
        }
      }
      assert forall p :: p in pending <==> p == pending[0] || p in pending[1..];
    }
  }

  method KeyPending(pending: seq<Pending>) returns (d: Dict)
    ensures Canonical(pending) ==> d == Keyed(pending)
  {
    d := [];
    for n := 0 to |pending|
      invariant Canonical(pending) ==> d == Keyed(pending[..n])
    {
      var p := pending[n];
      ghost var before := d;
      if p.id != "" {
        d := DictPut(d, p.id, p);
      }
      if p.interruptId != "" {
        d := DictPut(d, p.interruptId, p);
      }
      assert pending[..n + 1] == pending[..n] + [p];
      KeyedAppend(pending[..n], p);
      if Canonical(pending) {
        PutNew(pending[..n], p);
      }
    }
    assert pending[..|pending|] == pending;
  }

  lemma IdsGrow(pending: seq<Pending>, n: nat)
    requires Canonical(pending) && n < |pending|
    ensures pending[n].id != "" && pending[n].id !in Ids(pending[..n])
    ensures pending[..n + 1] == pending[..n] + [pending[n]]
    ensures Ids(pending[..n + 1]) == Ids(pending[..n]) + {pending[n].id}
  {
    assert pending[..n + 1] == pending[..n] + [pending[n]];
    forall p | p in pending[..n] ensures p.id != pending[n].id {
      var i :| 0 <= i < n && pending[i] == p;
    }
  }

  /** One entry per call, in dict order. */
  method Remaining(d: Dict) returns (pending: seq<Pending>)
    ensures forall p: seq<Pending> :: Canonical(p) && d == Keyed(p) ==> pending == p
  {
    var seen: set<string> := {};
    pending := [];
    for n := 0 to |d|
      invariant forall p: seq<Pending> :: Canonical(p) && d == Keyed(p) ==> n <= |p| && pending == p[..n] && seen == Ids(p[..n])
    {
      var p := d[n].1;
      ghost var before := pending;
      if p.id != "" && p.id !in seen {
        seen := seen + {p.id};
        pending := pending + [p];
      }
      forall q: seq<Pending> | Canonical(q) && d == Keyed(q)
        ensures n + 1 <= |q| && pending == q[..n + 1] && seen == Ids(q[..n + 1])
      {
        KeyedAt(q, n);
        IdsGrow(q, n);
      }
    }
    forall p: seq<Pending> | Canonical(p) && d == Keyed(p) ensures pending == p {
      KeyedLength(p);
      assert p[..|d|] == p;
    }
  }

  lemma {:induction false} KeyedLength(pending: seq<Pending>)
    ensures |Keyed(pending)| == |pending|
  {
    if pending != [] { KeyedLength(pending[1..]); }
  }

  lemma {:induction false} KeyedAt(pending: seq<Pending>, n: nat)
    requires n < |Keyed(pending)|
    ensures n < |pending| && Keyed(pending)[n] == (pending[n].id, pending[n])
  {
    if n > 0 { KeyedAt(pending[1..], n - 1); }
  }

  /** The resume loop over the responses, on a canonical batch, computes the specification. */
  method ApplyResponses(messages: seq<Message>, pending: seq<Pending>, responses: seq<Response>)
    returns (answered: seq<Message>, remaining: seq<Pending>)
    ensures Canonical(pending) ==> Batch(answered, remaining) == AnswerAll(Batch(messages, pending), responses)
    ensures Fresh(Batch(messages, pending)) ==>
              && AnsweredInOrder(messages, pending, responses, |responses|, answered)
              && (forall p :: p in remaining <==> p in pending && forall k :: 0 <= k < |responses| ==> !Names(responses[k], p.id))
              && KeepsOrder(pending, Answered(responses), remaining)
  {
    var pendingById := KeyPending(pending);
    answered := messages;
    ghost var b := Batch(messages, pending);
    for n := 0 to |responses|
      invariant Canonical(pending) ==>
                  && Canonical(b.pending) && answered == b.messages && pendingById == Keyed(b.pending)
                  && AnswerAll(b, responses[n..]) == AnswerAll(Batch(messages, pending), responses)
    {
      var r := responses[n];
      var id := ResponseId(r);
      ghost var b' := Answer(b, r);
      if Canonical(pending) {
        GetKeyed(b.pending, id);
        PopKeyed(b.pending, id);
        WithoutCanonical(b.pending, id);
        WithoutAbsent(Without(b.pending, id), id);
        PopKeyed(Without(b.pending, id), id);
        assert responses[n..][1..] == responses[n + 1..];
      }
      var found := if id == "" then None else DictGet(pendingById, id);
      if found.Some? {
        var p := found.value;
        var key := if p.id != "" then p.id else id;
        if HasResult(answered, id) {
          pendingById := DictPop(pendingById, key);
        } else {
          answered := answered + [ToolResult(id, p.name, r.content)];
          pendingById := DictPop(pendingById, key);
          if p.interruptId != "" {
            pendingById := DictPop(pendingById, p.interruptId);
          }
        }
      }
      b := b';
    }
    assert responses[|responses|..] == [];
    remaining := Remaining(pendingById);
    if Fresh(Batch(messages, pending)) {
      ResponsesLand(Batch(messages, pending), responses);
    }
  }

  // ------------------------------------------------------------------ conservation

  function Answered(responses: seq<Response>): set<string> {
    set r | r in responses :: ResponseId(r)
  }

  function ResultsFor(messages: seq<Message>, id: string): nat {
    if messages == [] then 0
    else ResultsFor(messages[..|messages| - 1], id)
         + (if messages[|messages| - 1].ToolResult? && messages[|messages| - 1].id == id then 1 else 0)
  }

  lemma {:induction false} NoResultNoCount(messages: seq<Message>, id: string)
    ensures HasResult(messages, id) <==> ResultsFor(messages, id) > 0
  {
    if messages != [] {
      var m0 := messages[..|messages| - 1];
      NoResultNoCount(m0, id);
      if HasResult(messages, id) && !HasResult(m0, id) {
        assert exists i :: 0 <= i < |messages| && messages[i].ToolResult? && messages[i].id == id;
      }
      if HasResult(m0, id) {
        var i :| 0 <= i < |m0| && m0[i].ToolResult? && m0[i].id == id;
        assert messages[i] == m0[i];
      }
    }
  }

  predicate Fresh(b: Batch) {
    Canonical(b.pending) && forall p :: p in b.pending ==> !HasResult(b.messages, p.id)
  }

  /** `later` lists, in the order of `earlier`, exactly its members outside `ids`. */
  predicate KeepsOrder(earlier: seq<Pending>, ids: set<string>, later: seq<Pending>) {
    if earlier == [] then later == []
    else if earlier[0].id in ids then KeepsOrder(earlier[1..], ids, later)
    else later != [] && later[0] == earlier[0] && KeepsOrder(earlier[1..], ids, later[1..])
  }

  lemma {:induction false} KeepsAll(pending: seq<Pending>)
    ensures KeepsOrder(pending, {}, pending)
  {
    if pending != [] { KeepsAll(pending[1..]); }
  }

  lemma {:induction false} WithoutKeepsOrder(pending: seq<Pending>, ids: set<string>, later: seq<Pending>, id: string)
    requires KeepsOrder(pending, ids, later)
    ensures KeepsOrder(pending, ids + {id}, Without(later, id))
  {
    if pending != [] {
      if pending[0].id in ids {
        WithoutKeepsOrder(pending[1..], ids, later, id);
      } else {
        WithoutKeepsOrder(pending[1..], ids, later[1..], id);
      }
    }
  }

  lemma {:induction false} OrderIgnoresUnknown(pending: seq<Pending>, ids: set<string>, later: seq<Pending>, id: string)
    requires KeepsOrder(pending, ids, later) && id !in Ids(later)
    ensures KeepsOrder(pending, ids + {id}, later)
  {
    if pending != [] {
      if pending[0].id in ids {
        OrderIgnoresUnknown(pending[1..], ids, later, id);
      } else {
        assert later[0] in later;
        assert forall q :: q in later[1..] ==> q in later;
        OrderIgnoresUnknown(pending[1..], ids, later[1..], id);
      }
    }
  }

  /** One response: what it answers leaves the batch with one message, everything else stands. */
  lemma AnswerConserves(b: Batch, r: Response)
    requires Fresh(b)
    ensures Fresh(Answer(b, r))
    ensures b.messages <= Answer(b, r).messages
    ensures Ids(Answer(b, r).pending) == Ids(b.pending) - {ResponseId(r)}
    ensures forall id :: ResultsFor(Answer(b, r).messages, id)
                         == ResultsFor(b.messages, id) + (if id == ResponseId(r) && id in Ids(b.pending) then 1 else 0)
  {
    var id := ResponseId(r);
    var b' := Answer(b, r);
    WithoutCanonical(b.pending, id);
    var p := Lookup(b.pending, id);
    if id in Ids(b.pending) {
      assert p.Some? && p.value in b.pending && id != "" by {
        var q :| q in b.pending && q.id == id;
        var i :| 0 <= i < |b.pending| && b.pending[i] == q;
      }
      assert !HasResult(b.messages, id);
      assert b'.messages[..|b'.messages| - 1] == b.messages;
      forall q | q in b'.pending ensures !HasResult(b'.messages, q.id) {
        assert q in b.pending && q.id != id;
        assert !HasResult(b.messages, q.id);
      }
    }
  }

  /**
   Conservation over any response list: a pending call is either answered by exactly one
   appended result, when some response names it, or still pending in its original place.
   */
  lemma ResponsesConserve(b: Batch, responses: seq<Response>)
    requires Fresh(b)
    ensures var b' := AnswerAll(b, responses);
            && Fresh(b')
            && b.messages <= b'.messages
            && KeepsOrder(b.pending, Answered(responses), b'.pending)
            && (forall id :: ResultsFor(b'.messages, id) == ResultsFor(b.messages, id)
                                + (if id in Ids(b.pending) && id in Answered(responses) then 1 else 0))
  {
    KeepsAll(b.pending);
    OrderKept(b.pending, {}, b, responses);
    assert {} + Answered(responses) == Answered(responses);
    ResultsCounted(b, responses);
  }

  lemma AnsweredSplit(responses: seq<Response>)
    requires responses != []
    ensures Answered(responses) == {ResponseId(responses[0])} + Answered(responses[1..])
  {
    assert responses == [responses[0]] + responses[1..];
  }

  lemma {:induction false} ResultsCounted(b: Batch, responses: seq<Response>)
    requires Fresh(b)
    ensures var b' := AnswerAll(b, responses);
            && Fresh(b')
            && b.messages <= b'.messages
            && (forall id :: ResultsFor(b'.messages, id) == ResultsFor(b.messages, id)
                                + (if id in Ids(b.pending) && id in Answered(responses) then 1 else 0))
    decreases |responses|
  {
    if responses != [] {
      AnswerConserves(b, responses[0]);
      ResultsCounted(Answer(b, responses[0]), responses[1..]);
      AnsweredSplit(responses);
    }
  }

  lemma {:induction false} OrderKept(start: seq<Pending>, gone: set<string>, b: Batch, responses: seq<Response>)
    requires Fresh(b) && KeepsOrder(start, gone, b.pending)
    ensures KeepsOrder(start, gone + Answered(responses), AnswerAll(b, responses).pending)
    decreases |responses|
  {
    if responses == [] {
      assert gone + Answered(responses) == gone;
    } else {
      var id := ResponseId(responses[0]);
      var b1 := Answer(b, responses[0]);
      AnswerConserves(b, responses[0]);
      assert KeepsOrder(start, gone + {id}, b1.pending) by {
        if Lookup(b.pending, id).None? {
          OrderIgnoresUnknown(start, gone, b.pending, id);
        } else {
          WithoutKeepsOrder(start, gone, b.pending, id);
        }
      }
      OrderKept(start, gone + {id}, b1, responses[1..]);
      AnsweredSplit(responses);
      assert gone + Answered(responses) == gone + {id} + Answered(responses[1..]);
    }
  }

  /** Delivering responses over several resumes is delivering them at once. */
  lemma {:induction false} SplitDelivery(b: Batch, first: seq<Response>, second: seq<Response>)
    ensures AnswerAll(AnswerAll(b, first), second) == AnswerAll(b, first + second)
    decreases |first|
  {
    if first == [] {
      assert first + second == second;
    } else {
      assert (first + second)[1..] == first[1..] + second;
      SplitDelivery(Answer(b, first[0]), first[1..], second);
    }
  }

  // ------------------------------------------------------------------ the snapshot between resumes

  /** build_interrupts_from_pending names each interrupt; the snapshot stores that name. */
  function Enrich(pending: seq<Pending>): seq<Pending> {
    if pending == [] then []
    else [if pending[0].interruptId == "" then pending[0].(interruptId := pending[0].id) else pending[0]]
         + Enrich(pending[1..])
  }

  lemma {:induction false} EnrichAt(pending: seq<Pending>, i: nat)
    requires i < |pending|
    ensures |Enrich(pending)| == |pending|
    ensures Enrich(pending)[i].id == pending[i].id && Enrich(pending)[i].name == pending[i].name
    ensures Enrich(pending)[i].arguments == pending[i].arguments
    ensures pending[i].interruptId in {"", pending[i].id} ==> Enrich(pending)[i].interruptId == pending[i].id
    decreases i
  {
    EnrichLength(pending);
    if i > 0 { EnrichAt(pending[1..], i - 1); }
  }

  lemma {:induction false} EnrichLength(pending: seq<Pending>)
    ensures |Enrich(pending)| == |pending|
  {
    if pending != [] { EnrichLength(pending[1..]); }
  }

  /** Storing the batch keeps it canonical, with the same calls. */
  lemma EnrichKeeps(pending: seq<Pending>)
    requires Canonical(pending)
    ensures Canonical(Enrich(pending))
    ensures Ids(Enrich(pending)) == Ids(pending)
  {
    EnrichLength(pending);
    forall i | 0 <= i < |pending|
      ensures Enrich(pending)[i].id == pending[i].id == Enrich(pending)[i].interruptId
    {
      EnrichAt(pending, i);
    }
    forall id | id in Ids(pending) ensures id in Ids(Enrich(pending)) {
      var i :| 0 <= i < |pending| && pending[i].id == id;
      assert Enrich(pending)[i] in Enrich(pending);
    }
    forall id | id in Ids(Enrich(pending)) ensures id in Ids(pending) {
      var i :| 0 <= i < |Enrich(pending)| && Enrich(pending)[i].id == id;
      assert pending[i] in pending;
    }
  }

  lemma {:induction false} EnrichWithout(pending: seq<Pending>, id: string)
    ensures Enrich(Without(pending, id)) == Without(Enrich(pending), id)
    ensures Lookup(pending, id).Some? <==> Lookup(Enrich(pending), id).Some?
    ensures Lookup(pending, id).Some? ==> Lookup(pending, id).value.name == Lookup(Enrich(pending), id).value.name
  {
    if pending != [] {
      assert Enrich(pending)[1..] == Enrich(pending[1..]);
      EnrichWithout(pending[1..], id);
    }
  }

  /** Storing and reloading the batch between two resumes changes neither messages nor what is pending. */
  lemma {:induction false} SnapshotIsTransparent(b: Batch, responses: seq<Response>)
    ensures AnswerAll(Batch(b.messages, Enrich(b.pending)), responses)
            == Batch(AnswerAll(b, responses).messages, Enrich(AnswerAll(b, responses).pending))
    decreases |responses|
  {
    if responses != [] {
      EnrichWithout(b.pending, ResponseId(responses[0]));
      SnapshotIsTransparent(Answer(b, responses[0]), responses[1..]);
    }
  }

  lemma {:induction false} EnrichTwice(pending: seq<Pending>)
    ensures Enrich(Enrich(pending)) == Enrich(pending)
  {
    if pending != [] {
      var first := Enrich(pending)[0];
      assert Enrich(pending)[1..] == Enrich(pending[1..]);
      assert first.interruptId == "" ==> first.id == "" && first.(interruptId := first.id) == first;
      EnrichTwice(pending[1..]);
    }
  }

  /** Nothing pending, nothing to answer. */
  lemma {:induction false} NothingToAnswer(messages: seq<Message>, responses: seq<Response>)
    ensures AnswerAll(Batch(messages, []), responses) == Batch(messages, [])
    decreases |responses|
  {
    if responses != [] { NothingToAnswer(messages, responses[1..]); }
  }

  // ------------------------------------------------------------------ where each response ends up

  /** `id` is the first spelling the response fills in. */
  predicate Names(r: Response, id: string) {
    && id != ""
    && (r.toolCallId == id
        || (r.toolCallId == "" && r.toolCallIdCamel == id)
        || (r.toolCallId == "" && r.toolCallIdCamel == "" && r.interruptId == id)
        || (r.toolCallId == "" && r.toolCallIdCamel == "" && r.interruptId == "" && r.interruptIdCamel == id))
  }

  lemma NamesItsId(r: Response, id: string)
    ensures Names(r, id) <==> id != "" && ResponseId(r) == id
  {
  }

  /** Response `k` is the first to name pending call `i`. */
  predicate FirstToName(pending: seq<Pending>, responses: seq<Response>, k: nat, i: nat)
    requires k < |responses| && i < |pending|
  {
    Names(responses[k], pending[i].id) && forall j :: 0 <= j < k ==> !Names(responses[j], pending[i].id)
  }

  predicate FirstNaming(pending: seq<Pending>, responses: seq<Response>, k: nat)
    requires k < |responses|
  {
    exists i :: 0 <= i < |pending| && FirstToName(pending, responses, k, i)
  }

  /** How many of the first `n` responses are the first to name some pending call. */
  function FirstNamings(pending: seq<Pending>, responses: seq<Response>, n: nat): nat
    requires n <= |responses|
  {
    if n == 0 then 0
    else FirstNamings(pending, responses, n - 1)
         + (if FirstNaming(pending, responses, n - 1) then 1 else 0)
  }

  /**
   Each response that is the first to name a pending call has become that call's one tool
   message, with the call's own name and the response's content, in the order of these
   responses; nothing else has been appended.
   */
  ghost predicate AnsweredInOrder(messages: seq<Message>, pending: seq<Pending>, responses: seq<Response>, n: nat,
                                  answered: seq<Message>)
    requires n <= |responses|
  {
    && |answered| == |messages| + FirstNamings(pending, responses, n)
    && messages <= answered
    && forall k, i :: 0 <= k < n && 0 <= i < |pending| && FirstToName(pending, responses, k, i) ==>
         Landed(messages, pending[i], responses[k], FirstNamings(pending, responses, k), answered)
  }

  predicate Landed(messages: seq<Message>, p: Pending, r: Response, place: nat, answered: seq<Message>) {
    |messages| + place < |answered| && answered[|messages| + place] == ToolResult(p.id, p.name, r.content)
  }

  lemma LastAnswered(b: Batch, responses: seq<Response>, n: nat)
    requires n < |responses|
    ensures AnswerAll(b, responses[..n + 1]) == Answer(AnswerAll(b, responses[..n]), responses[n])
    ensures Answered(responses[..n + 1]) == Answered(responses[..n]) + {ResponseId(responses[n])}
  {
    assert responses[..n + 1] == responses[..n] + [responses[n]];
    SplitDelivery(b, responses[..n], [responses[n]]);
    assert [responses[n]][1..] == [];
    var a := AnswerAll(b, responses[..n]);
    assert AnswerAll(a, [responses[n]]) == AnswerAll(Answer(a, responses[n]), []);
  }

  /** A response is a first naming exactly when its call is still pending. */
  lemma FirstNamingIsPending(pending: seq<Pending>, responses: seq<Response>, n: nat, left: seq<Pending>)
    requires n < |responses| && Canonical(pending)
    requires Ids(left) == Ids(pending) - Answered(responses[..n])
    ensures FirstNaming(pending, responses, n) <==> ResponseId(responses[n]) in Ids(left)
  {
    var id := ResponseId(responses[n]);
    forall i | 0 <= i < |pending| ensures pending[i].id != "" {}
    if id in Ids(left) {
      var p :| p in pending && p.id == id;
      var i :| 0 <= i < |pending| && pending[i] == p;
      forall j | 0 <= j < n ensures !Names(responses[j], id) {
        assert responses[..n][j] == responses[j];
        assert responses[j] in responses[..n];
        NamesItsId(responses[j], id);
      }
      NamesItsId(responses[n], id);
      assert FirstToName(pending, responses, n, i);
    }
    if i :| 0 <= i < |pending| && FirstToName(pending, responses, n, i) {
      NamesItsId(responses[n], pending[i].id);
      assert pending[i] in pending;
      forall r | r in responses[..n] ensures ResponseId(r) != id {
        var j :| 0 <= j < n && responses[..n][j] == r;
        NamesItsId(responses[j], id);
      }
    }
  }

  lemma AnswerLeaves(b: Batch, a: Batch, r: Response)
    requires Fresh(b) && a == Answer(b, r)
    ensures Fresh(a) && Ids(a.pending) == Ids(b.pending) - {ResponseId(r)}
    ensures forall p :: p in a.pending ==> p in b.pending
  {
    AnswerConserves(b, r);
    WithoutCanonical(b.pending, ResponseId(r));
  }

  lemma {:induction false} StillPending(b: Batch, responses: seq<Response>, n: nat)
    requires Fresh(b) && n <= |responses|
    ensures var a := AnswerAll(b, responses[..n]);
            && Fresh(a) && Ids(a.pending) == Ids(b.pending) - Answered(responses[..n])
            && (forall p :: p in a.pending ==> p in b.pending)
  {
    if n == 0 {
      assert responses[..0] == [];
    } else {
      StillPending(b, responses, n - 1);
      LastAnswered(b, responses, n - 1);
      AnswerLeaves(AnswerAll(b, responses[..n - 1]), AnswerAll(b, responses[..n]), responses[n - 1]);
      OneFewer(Ids(b.pending), Answered(responses[..n - 1]), ResponseId(responses[n - 1]));
    }
  }

  lemma OneFewer(ids: set<string>, gone: set<string>, id: string)
    ensures ids - gone - {id} == ids - (gone + {id})
  {
  }

  lemma {:induction false} LandsInOrder(b: Batch, responses: seq<Response>, n: nat)
    requires Fresh(b) && n <= |responses|
    ensures AnsweredInOrder(b.messages, b.pending, responses, n, AnswerAll(b, responses[..n]).messages)
  {
    if n == 0 {
      assert responses[..0] == [];
    } else {
      LandsInOrder(b, responses, n - 1);
      StillPending(b, responses, n - 1);
      var a := AnswerAll(b, responses[..n - 1]);
      FirstNamingIsPending(b.pending, responses, n - 1, a.pending);
      OneMoreLands(b, responses, n - 1, a);
      LastAnswered(b, responses, n - 1);
    }
  }

  lemma OneMoreLands(b: Batch, responses: seq<Response>, n: nat, a: Batch)
    requires Fresh(b) && Fresh(a) && n < |responses|
    requires forall p :: p in a.pending ==> p in b.pending
    requires AnsweredInOrder(b.messages, b.pending, responses, n, a.messages)
    requires FirstNaming(b.pending, responses, n) <==> ResponseId(responses[n]) in Ids(a.pending)
    ensures AnsweredInOrder(b.messages, b.pending, responses, n + 1, Answer(a, responses[n]).messages)
  {
    var r, after := responses[n], Answer(a, responses[n]);
    PendingIsFound(a, r);
    forall k, i | 0 <= k < n + 1 && 0 <= i < |b.pending| && FirstToName(b.pending, responses, k, i)
      ensures Landed(b.messages, b.pending[i], responses[k], FirstNamings(b.pending, responses, k), after.messages)
    {
      if k < n {
        assert Landed(b.messages, b.pending[i], responses[k], FirstNamings(b.pending, responses, k), a.messages);
      } else {
        NamesItsId(r, b.pending[i].id);
        SamePending(b.pending, Lookup(a.pending, ResponseId(r)).value, i);
      }
    }
  }

  lemma PendingIsFound(a: Batch, r: Response)
    requires Fresh(a)
    ensures ResponseId(r) in Ids(a.pending) ==>
              && Lookup(a.pending, ResponseId(r)).Some?
              && Answer(a, r).messages
                 == a.messages + [ToolResult(ResponseId(r), Lookup(a.pending, ResponseId(r)).value.name, r.content)]
    ensures ResponseId(r) !in Ids(a.pending) ==> Answer(a, r).messages == a.messages
  {
    var p := Lookup(a.pending, ResponseId(r));
    if p.Some? {
      var i :| 0 <= i < |a.pending| && a.pending[i] == p.value;
      assert !HasResult(a.messages, p.value.id);
    }
  }

  lemma SamePending(pending: seq<Pending>, p: Pending, i: nat)
    requires Canonical(pending) && p in pending && i < |pending| && pending[i].id == p.id
    ensures pending[i] == p
  {
  }

  /** A fresh batch under any response list: where the responses land, and what stays pending. */
  lemma ResponsesLand(b: Batch, responses: seq<Response>)
    requires Fresh(b)
    ensures var a := AnswerAll(b, responses);
            && AnsweredInOrder(b.messages, b.pending, responses, |responses|, a.messages)
            && (forall p :: p in a.pending <==> p in b.pending && forall k :: 0 <= k < |responses| ==> !Names(responses[k], p.id))
            && KeepsOrder(b.pending, Answered(responses), a.pending)
  {
    var a := AnswerAll(b, responses);
    assert responses[..|responses|] == responses;
    LandsInOrder(b, responses, |responses|);
    StillPending(b, responses, |responses|);
    ResponsesConserve(b, responses);
    forall p ensures p in a.pending <==> p in b.pending && forall k :: 0 <= k < |responses| ==> !Names(responses[k], p.id) {
      StaysUnlessNamed(b, a, responses, p);
    }
  }

  lemma StaysUnlessNamed(b: Batch, a: Batch, responses: seq<Response>, p: Pending)
    requires Fresh(b) && Fresh(a) && Ids(a.pending) == Ids(b.pending) - Answered(responses)
    requires forall q :: q in a.pending ==> q in b.pending
    ensures p in a.pending <==> p in b.pending && forall k :: 0 <= k < |responses| ==> !Names(responses[k], p.id)
  {
    if p in b.pending {
      var i :| 0 <= i < |b.pending| && b.pending[i] == p;
      assert p.id in Ids(b.pending) && p.id != "";
      NamedIsAnswered(responses, p.id);
      StaysByItsId(b.pending, a.pending, p);
    }
  }

  lemma NamedIsAnswered(responses: seq<Response>, id: string)
    requires id != ""
    ensures id in Answered(responses) <==> exists k :: 0 <= k < |responses| && Names(responses[k], id)
  {
    forall k | 0 <= k < |responses| ensures Names(responses[k], id) <==> ResponseId(responses[k]) == id {
      NamesItsId(responses[k], id);
    }
    forall k | 0 <= k < |responses| && ResponseId(responses[k]) == id ensures id in Answered(responses) {
      assert responses[k] in responses;
    }
  }

  lemma StaysByItsId(pending: seq<Pending>, left: seq<Pending>, p: Pending)
    requires Canonical(pending) && p in pending && forall q :: q in left ==> q in pending
    ensures p in left <==> p.id in Ids(left)
  {
    forall q | q in left && q.id == p.id ensures q == p {
      var i :| 0 <= i < |pending| && pending[i] == p;
      SamePending(pending, q, i);
    }
  }
}
