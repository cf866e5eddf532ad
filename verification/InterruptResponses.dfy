/**
 From interrupts to responses: every pending call is shown to the client as an interrupt,
 and the client's resume entries come back as responses to pending calls.
 */
module InterruptResponses {
  import opened Common
  import opened Conversation
  import opened BatchResume

  /** A resume entry; `payloadId` is the call id inside its payload, "" when absent. */
  datatype Entry = Entry(interruptId: string, payloadId: string, content: string)

  /** The interrupts shown for a batch; calls without an id have none. */
  function Interrupts(pending: seq<Pending>): seq<string> {
    if pending == [] then []
    else
      var p := pending[|pending| - 1];
      Interrupts(pending[..|pending| - 1])
      + (if p.id == "" then [] else if p.interruptId != "" then [p.interruptId] else [p.id])
  }

  /** Where an entry goes: the call its payload names, else the call its interrupt stands for. */
  function Target(e: Entry, callOf: map<string, string>, ids: set<string>): string {
    if e.payloadId != "" then e.payloadId
    else if e.interruptId in callOf && callOf[e.interruptId] != "" then callOf[e.interruptId]
    else if e.interruptId in ids then e.interruptId
    else ""
  }

  function Responded(e: Entry, callOf: map<string, string>, ids: set<string>): seq<Response> {
    var id := Target(e, callOf, ids);
    if id == "" then [] else [Response(id, "", e.interruptId, "", e.content)]
  }

  function RespondedAll(entries: seq<Entry>, callOf: map<string, string>, ids: set<string>): seq<Response> {
    if entries == [] then []
    else RespondedAll(entries[..|entries| - 1], callOf, ids) + Responded(entries[|entries| - 1], callOf, ids)
  }

  /** The older single response is added unless an entry already answers its call. */
  function WithLegacy(responses: seq<Response>, legacy: Option<Response>): seq<Response> {
    match legacy
    case None => responses
    case Some(r) =>
      var id := LegacyId(r);
      if id == "" || (exists k :: 0 <= k < |responses| && responses[k].toolCallId == id) then responses
      else responses + [r.(toolCallId := id)]
  }

  /** On a batch of the loop both spellings of a call lead to that call. */
  method CallOfInterrupt(pending: seq<Pending>) returns (callOf: map<string, string>, ids: set<string>)
    ensures ids == set p | p in pending && p.id != "" :: p.id
    ensures Canonical(pending) ==> callOf == map id | id in Ids(pending) :: id
  {
    callOf, ids := map[], {};
    for n := 0 to |pending|
      invariant ids == set p | p in pending[..n] && p.id != "" :: p.id
      invariant Canonical(pending) ==> callOf == map id | id in Ids(pending[..n]) :: id
    {
      var p := pending[n];
      OneCallMore(pending, n);
      if p.id != "" {
        ids := ids + {p.id};
        if p.interruptId != "" {
          callOf := callOf[p.interruptId := p.id];
        }
        callOf := callOf[p.id := p.id];
      }
    }
    assert pending[..|pending|] == pending;
  }

  lemma OneCallMore(pending: seq<Pending>, n: nat)
    requires n < |pending|
    ensures Ids(pending[..n + 1]) == Ids(pending[..n]) + {pending[n].id}
    ensures (set p | p in pending[..n + 1] && p.id != "" :: p.id)
         == (set p | p in pending[..n] && p.id != "" :: p.id) + (if pending[n].id != "" then {pending[n].id} else {})
  {
    assert pending[..n + 1] == pending[..n] + [pending[n]];
  }

  method Normalize(pending: seq<Pending>, entries: seq<Entry>, legacy: Option<Response>) returns (responses: seq<Response>)
    ensures Canonical(pending) ==>
              responses == WithLegacy(RespondedAll(entries, map id | id in Ids(pending) :: id, Ids(pending)), legacy)
  {
    var callOf, ids := CallOfInterrupt(pending);
    responses := [];
    for n := 0 to |entries|
      invariant responses == RespondedAll(entries[..n], callOf, ids)
    {
      assert entries[..n + 1][..n] == entries[..n];
      var e := entries[n];
      var id := Target(e, callOf, ids);
      if id != "" {
        responses := responses + [Response(id, "", e.interruptId, "", e.content)];
      }
    }
    assert entries[..|entries|] == entries;
    if Canonical(pending) {
      assert ids == Ids(pending);
    }
    match legacy {
      case None =>
      case Some(r) =>
        var id := LegacyId(r);
        if id != "" && !exists k :: 0 <= k < |responses| && responses[k].toolCallId == id {
          responses := responses + [r.(toolCallId := id)];
        }
    }
  }

  lemma {:induction false} EntryIsHeard(entries: seq<Entry>, e: Entry, callOf: map<string, string>, ids: set<string>)
    requires e in entries && Target(e, callOf, ids) != ""
    ensures Target(e, callOf, ids) in Answered(RespondedAll(entries, callOf, ids))
  {
    var last := entries[|entries| - 1];
    assert entries == entries[..|entries| - 1] + [last];
    var earlier := RespondedAll(entries[..|entries| - 1], callOf, ids);
    if e in entries[..|entries| - 1] {
      EntryIsHeard(entries[..|entries| - 1], e, callOf, ids);
      var r :| r in earlier && ResponseId(r) == Target(e, callOf, ids);
      assert r in RespondedAll(entries, callOf, ids);
    } else {
      var r := Response(Target(e, callOf, ids), "", e.interruptId, "", e.content);
      assert r in RespondedAll(entries, callOf, ids);
    }
  }

  lemma {:induction false} InterruptOfCall(pending: seq<Pending>, p: Pending)
    requires Canonical(pending) && p in pending
    ensures p.id in Interrupts(pending)
  {
    var init := pending[..|pending| - 1];
    assert pending == init + [pending[|pending| - 1]];
    assert Canonical(init);
    if p in init {
      InterruptOfCall(init, p);
    }
  }

  lemma {:induction false} NothingLeft(pending: seq<Pending>, ids: set<string>, later: seq<Pending>)
    requires KeepsOrder(pending, ids, later) && Ids(pending) <= ids
    ensures later == []
  {
    if pending != [] {
      assert pending[0] in pending && forall q :: q in pending[1..] ==> q in pending;
      NothingLeft(pending[1..], ids, later);
    }
  }

  /** Answering every interrupt shown for a batch, in any order, leaves nothing pending. */
  lemma AnsweringEveryInterruptSettles(b: Batch, entries: seq<Entry>, legacy: Option<Response>)
    requires Fresh(b)
    requires forall i :: i in Interrupts(b.pending) ==> exists e :: e in entries && e.interruptId == i && e.payloadId in {"", i}
    ensures var responses := WithLegacy(RespondedAll(entries, map id | id in Ids(b.pending) :: id, Ids(b.pending)), legacy);
            AnswerAll(b, responses).pending == []
  {
    var callOf, ids := map id | id in Ids(b.pending) :: id, Ids(b.pending);
    var heard := RespondedAll(entries, callOf, ids);
    var responses := WithLegacy(heard, legacy);
    forall p | p in b.pending ensures p.id in Answered(responses) {
      InterruptOfCall(b.pending, p);
      var e :| e in entries && e.interruptId == p.id && e.payloadId in {"", p.id};
      var i :| 0 <= i < |b.pending| && b.pending[i] == p;
      assert p.id in ids;
      EntryIsHeard(entries, e, callOf, ids);
      var r :| r in heard && ResponseId(r) == p.id;
      assert r in responses;
    }
    ResponsesConserve(b, responses);
    NothingLeft(b.pending, Answered(responses), AnswerAll(b, responses).pending);
  }

  function LegacyId(r: Response): string {
    if r.toolCallId != "" then r.toolCallId else r.toolCallIdCamel
  }

  /** The calls a client names, by entries or by the older single response. */
  ghost predicate Named(entries: seq<Entry>, legacy: Option<Response>, callOf: map<string, string>, ids: set<string>, id: string) {
    || (exists e :: e in entries && Target(e, callOf, ids) == id)
    || (legacy.Some? && LegacyId(legacy.value) == id)
  }

  lemma {:induction false} HeardHasEntry(entries: seq<Entry>, callOf: map<string, string>, ids: set<string>, r: Response)
    requires r in RespondedAll(entries, callOf, ids)
    ensures exists e :: e in entries && Target(e, callOf, ids) == r.toolCallId == ResponseId(r) && r.toolCallId != ""
  {
    var init, last := entries[..|entries| - 1], entries[|entries| - 1];
    assert entries == init + [last];
    if r in RespondedAll(init, callOf, ids) {
      HeardHasEntry(init, callOf, ids, r);
    } else {
      assert last in entries && r in Responded(last, callOf, ids);
    }
  }

  lemma NamedIffAnswered(entries: seq<Entry>, legacy: Option<Response>, callOf: map<string, string>, ids: set<string>, id: string)
    requires id != ""
    ensures id in Answered(WithLegacy(RespondedAll(entries, callOf, ids), legacy)) <==> Named(entries, legacy, callOf, ids, id)
  {
    var heard := RespondedAll(entries, callOf, ids);
    var responses := WithLegacy(heard, legacy);
    if id in Answered(responses) {
      var r :| r in responses && ResponseId(r) == id;
      if r in heard { HeardHasEntry(entries, callOf, ids, r); }
    }
    if e :| e in entries && Target(e, callOf, ids) == id {
      EntryIsHeard(entries, e, callOf, ids);
      var r :| r in heard && ResponseId(r) == id;
      assert r in responses;
    } else if legacy.Some? && LegacyId(legacy.value) == id {
      LegacyIsHeard(entries, legacy.value, callOf, ids);
    }
  }

  lemma LegacyIsHeard(entries: seq<Entry>, legacy: Response, callOf: map<string, string>, ids: set<string>)
    requires LegacyId(legacy) != ""
    ensures LegacyId(legacy) in Answered(WithLegacy(RespondedAll(entries, callOf, ids), Some(legacy)))
  {
    var heard, id := RespondedAll(entries, callOf, ids), LegacyId(legacy);
    if k :| 0 <= k < |heard| && heard[k].toolCallId == id {
      assert heard[k] in heard && ResponseId(heard[k]) == id;
    } else {
      var r := legacy.(toolCallId := id);
      assert r in heard + [r] && ResponseId(r) == id;
    }
  }

  /**
   However often a client names a call, in several entries for one interrupt or again in
   the older form: each named pending call gets one result, every other one stays pending.
   */
  lemma NamedCallsAnsweredOnce(b: Batch, entries: seq<Entry>, legacy: Option<Response>, id: string)
    requires Fresh(b) && id in Ids(b.pending)
    ensures var callOf := map i | i in Ids(b.pending) :: i;
            var after := AnswerAll(b, WithLegacy(RespondedAll(entries, callOf, Ids(b.pending)), legacy));
            && ResultsFor(after.messages, id)
               == ResultsFor(b.messages, id) + (if Named(entries, legacy, callOf, Ids(b.pending), id) then 1 else 0)
            && (id in Ids(after.pending) <==> !Named(entries, legacy, callOf, Ids(b.pending), id))
  {
    var callOf := map i | i in Ids(b.pending) :: i;
    var responses := WithLegacy(RespondedAll(entries, callOf, Ids(b.pending)), legacy);
    var p :| p in b.pending && p.id == id;
    var k :| 0 <= k < |b.pending| && b.pending[k] == p;
    ResponsesConserve(b, responses);
    NamedIffAnswered(entries, legacy, callOf, Ids(b.pending), id);
    KeptIds(b.pending, Answered(responses), AnswerAll(b, responses).pending, id);
  }

  lemma {:induction false} KeptIds(pending: seq<Pending>, ids: set<string>, later: seq<Pending>, id: string)
    requires KeepsOrder(pending, ids, later)
    ensures id in Ids(later) <==> id in Ids(pending) && id !in ids
  {
    if pending != [] {
      assert pending == [pending[0]] + pending[1..];
      if pending[0].id in ids {
        KeptIds(pending[1..], ids, later, id);
      } else {
        assert later == [later[0]] + later[1..];
        KeptIds(pending[1..], ids, later[1..], id);
      }
    }
  }
}
