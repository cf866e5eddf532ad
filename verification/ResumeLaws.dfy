/**
 What a client's answer does, from its resume entries to the messages the model is shown
 next: which entry speaks for which call, where its content lands, and what a resume then does.
 */
module ResumeLaws {
  import opened Common
  import opened Conversation
  import opened BatchResume
  import IR = InterruptResponses
  import opened ToolLoop
  import opened AgentSession

  // ------------------------------------------------------------------ from entries to responses

  /** The call an entry speaks for: the one its payload names, else the pending one its interrupt stands for. */
  predicate SpeaksFor(e: IR.Entry, ids: set<string>, id: string) {
    id != "" && (e.payloadId == id || (e.payloadId == "" && e.interruptId == id && id in ids))
  }

  predicate Speaks(e: IR.Entry, ids: set<string>) {
    e.payloadId != "" || (e.interruptId != "" && e.interruptId in ids)
  }

  function Same(ids: set<string>): map<string, string> {
    map id | id in ids :: id
  }

  lemma TargetSpeaks(e: IR.Entry, ids: set<string>, id: string)
    requires id != ""
    ensures SpeaksFor(e, ids, id) <==> IR.Target(e, Same(ids), ids) == id
    ensures Speaks(e, ids) <==> IR.Target(e, Same(ids), ids) != ""
  {
  }

  function Speaking(entries: seq<IR.Entry>, ids: set<string>): nat {
    if entries == [] then 0
    else Speaking(entries[..|entries| - 1], ids) + (if Speaks(entries[|entries| - 1], ids) then 1 else 0)
  }

  lemma {:induction false} RespondedSize(entries: seq<IR.Entry>, ids: set<string>)
    ensures |IR.RespondedAll(entries, Same(ids), ids)| == Speaking(entries, ids)
  {
    if entries != [] {
      RespondedSize(entries[..|entries| - 1], ids);
      TargetSpeaks(entries[|entries| - 1], ids, "call");
    }
  }

  /** Each entry that speaks for a call becomes one response to it, in order, with its own content. */
  lemma {:induction false} RespondedInOrder(entries: seq<IR.Entry>, ids: set<string>, k: nat, id: string)
    requires k < |entries| && SpeaksFor(entries[k], ids, id)
    ensures var rs := IR.RespondedAll(entries, Same(ids), ids);
            && Speaking(entries[..k], ids) < |rs| == Speaking(entries, ids)
            && rs[Speaking(entries[..k], ids)] == Response(id, "", entries[k].interruptId, "", entries[k].content)
    decreases |entries|
  {
    var n := |entries| - 1;
    RespondedSize(entries, ids);
    RespondedSize(entries[..n], ids);
    if k < n {
      assert entries[..n][..k] == entries[..k];
      RespondedInOrder(entries[..n], ids, k, id);
    } else {
      TargetSpeaks(entries[k], ids, id);
    }
  }

  /** And every response comes from an entry in this way. */
  lemma {:induction false} ResponseComesFrom(entries: seq<IR.Entry>, ids: set<string>, j: nat) returns (k: nat)
    requires j < |IR.RespondedAll(entries, Same(ids), ids)|
    ensures k < |entries| && j == Speaking(entries[..k], ids)
    ensures SpeaksFor(entries[k], ids, IR.RespondedAll(entries, Same(ids), ids)[j].toolCallId)
    decreases |entries|
  {
    var n := |entries| - 1;
    var init := IR.RespondedAll(entries[..n], Same(ids), ids);
    RespondedSize(entries[..n], ids);
    if j < |init| {
      k := ResponseComesFrom(entries[..n], ids, j);
      assert entries[..n][..k] == entries[..k];
    } else {
      k := n;
      TargetSpeaks(entries[n], ids, IR.Target(entries[n], Same(ids), ids));
    }
  }

  lemma {:induction false} SpeakingGrows(entries: seq<IR.Entry>, ids: set<string>, a: nat, b: nat)
    requires a <= b <= |entries|
    ensures Speaking(entries[..a], ids) <= Speaking(entries[..b], ids)
    decreases b
  {
    if a < b {
      assert entries[..b][..b - 1] == entries[..b - 1];
      SpeakingGrows(entries, ids, a, b - 1);
    }
  }

  /** No earlier entry speaks for this call. */
  predicate FirstToSpeak(entries: seq<IR.Entry>, ids: set<string>, k: nat, id: string)
    requires k < |entries|
  {
    SpeaksFor(entries[k], ids, id) && forall h :: 0 <= h < k ==> !SpeaksFor(entries[h], ids, id)
  }

  lemma FirstSpeakerNamesFirst(pending: seq<Pending>, entries: seq<IR.Entry>, k: nat, i: nat, rs: seq<Response>)
    requires k < |entries| && i < |pending| && FirstToSpeak(entries, Ids(pending), k, pending[i].id)
    requires IR.RespondedAll(entries, Same(Ids(pending)), Ids(pending)) <= rs
    ensures var j := Speaking(entries[..k], Ids(pending));
            && j < |rs| && FirstToName(pending, rs, j, i) && rs[j].content == entries[k].content
  {
    var ids, id := Ids(pending), pending[i].id;
    var j := Speaking(entries[..k], ids);
    RespondedInOrder(entries, ids, k, id);
    forall h | 0 <= h < j ensures !Names(rs[h], id) {
      var e := ResponseComesFrom(entries, ids, h);
      if e >= k { SpeakingGrows(entries, ids, k, e); }
      assert e < k && !SpeaksFor(entries[e], ids, id);
    }
  }

  /**
   What the client said reaches the model: for each pending call, the first entry that
   speaks for it becomes the content of that call's own tool message, whatever else is sent.
   */
  lemma ClientAnswersLand(b: Batch, entries: seq<IR.Entry>, legacy: Option<Response>, k: nat, i: nat) returns (at: nat)
    requires Fresh(b) && k < |entries| && i < |b.pending| && FirstToSpeak(entries, Ids(b.pending), k, b.pending[i].id)
    ensures var rs := IR.WithLegacy(IR.RespondedAll(entries, Same(Ids(b.pending)), Ids(b.pending)), legacy);
            |b.messages| <= at && LandedAt(AnswerAll(b, rs).messages, at, b.pending[i], entries[k].content)
  {
    var rs := IR.WithLegacy(IR.RespondedAll(entries, Same(Ids(b.pending)), Ids(b.pending)), legacy);
    FirstSpeakerNamesFirst(b.pending, entries, k, i, rs);
    at := FirstNamerLands(b, rs, Speaking(entries[..k], Ids(b.pending)), i);
  }

  /** The older single response is heard too: for a call that no entry speaks for, its content lands. */
  lemma SingleAnswerLands(b: Batch, entries: seq<IR.Entry>, legacy: Response, i: nat) returns (at: nat)
    requires Fresh(b) && i < |b.pending|
    requires legacy.toolCallId == b.pending[i].id || (legacy.toolCallId == "" && legacy.toolCallIdCamel == b.pending[i].id)
    requires forall k :: 0 <= k < |entries| ==> !SpeaksFor(entries[k], Ids(b.pending), b.pending[i].id)
    ensures var rs := IR.WithLegacy(IR.RespondedAll(entries, Same(Ids(b.pending)), Ids(b.pending)), Some(legacy));
            |b.messages| <= at && LandedAt(AnswerAll(b, rs).messages, at, b.pending[i], legacy.content)
  {
    var ids, id := Ids(b.pending), b.pending[i].id;
    var heard := IR.RespondedAll(entries, Same(ids), ids);
    var rs := IR.WithLegacy(heard, Some(legacy));
    forall j | 0 <= j < |heard| ensures heard[j].toolCallId != id && !Names(heard[j], id) {
      var k := ResponseComesFrom(entries, ids, j);
      assert SpeaksFor(entries[k], ids, heard[j].toolCallId);
    }
    assert id != "" && rs == heard + [legacy.(toolCallId := id)];
    assert rs[|heard|].content == legacy.content && Names(rs[|heard|], id);
    at := FirstNamerLands(b, rs, |heard|, i);
  }

  lemma FirstNamerLands(b: Batch, responses: seq<Response>, j: nat, i: nat) returns (at: nat)
    requires Fresh(b) && j < |responses| && i < |b.pending| && FirstToName(b.pending, responses, j, i)
    ensures |b.messages| <= at && LandedAt(AnswerAll(b, responses).messages, at, b.pending[i], responses[j].content)
  {
    ResponsesLand(b, responses);
    at := |b.messages| + FirstNamings(b.pending, responses, j);
    assert Landed(b.messages, b.pending[i], responses[j], FirstNamings(b.pending, responses, j), AnswerAll(b, responses).messages);
  }

  predicate LandedAt(messages: seq<Message>, at: nat, p: Pending, content: string) {
    at < |messages| && messages[at] == ToolResult(p.id, p.name, content)
  }

  // ------------------------------------------------------------------ what a resume does

  /** The limit of a segment: the request's, else the snapshot's, else the configured one. */
  lemma LimitChosen(env: Env, explicit: Option<int>, stored: Option<int>)
    ensures explicit.Some? ==> LimitFor(env, explicit, stored) == explicit.value
    ensures explicit.None? && stored.Some? ==> LimitFor(env, explicit, stored) == stored.value
    ensures explicit.None? && stored.None? ==> LimitFor(env, explicit, stored) == env.defaultCalls
  {
  }

  /** The older single response comes last, and speaks for the first pending call when it names none. */
  lemma SingleComesLast(s: Snapshot, responses: seq<Response>, r: Response)
    ensures AllResponses(s, responses, None) == responses
    ensures var all := AllResponses(s, responses, Some(r));
            && |all| == |responses| + 1 && all[..|responses|] == responses
            && all[|responses|].content == r.content
            && (r.toolCallId != "" || r.toolCallIdCamel != "" ==> all[|responses|] == r)
    ensures var all := AllResponses(s, responses, Some(r));
            r.toolCallId == "" && r.toolCallIdCamel == "" && s.pendingTools != [] && s.pendingTools[0].id != "" ==>
              Names(all[|responses|], s.pendingTools[0].id)
  {
  }

  predicate HoldsBack(s: Snapshot, pending: seq<Pending>) {
    && (s.pendingTools != [] ==> pending == s.pendingTools)
    && (s.pendingTools == [] && s.pendingTool.Some? ==> pending == [s.pendingTool.value])
    && (s.pendingTools == [] && s.pendingTool.None? ==> pending == [])
  }

  /** The count a snapshot carries on, from whichever of its fields holds it. */
  predicate CarriesOn(s: Snapshot, total: int) {
    && (s.totalCount.Some? ==> total == s.totalCount.value)
    && (s.totalCount.None? && s.toolCallCount.Some? ==> total == s.toolCallCount.value)
    && (s.totalCount.None? && s.toolCallCount.None? ==> total == 0)
  }

  predicate NamedBy(responses: seq<Response>, id: string) {
    exists k :: 0 <= k < |responses| && Names(responses[k], id)
  }

  /** A resume that leaves calls unanswered pauses again, having asked the model nothing. */
  ghost predicate PausedAgain(s: Snapshot, maxCalls: int, b: Batch, responses: seq<Response>, total: int, r: Result) {
    && r.Paused? && r.made == total && r.madeNow == 0
    && AnsweredInOrder(b.messages, b.pending, responses, |responses|, r.state.messages)
    && r.state.request == s.request && r.state.maxCalls == Some(maxCalls) && r.state.interactions == s.interactions
    && r.state.segmentCount == 0 && r.state.totalCount == Some(total)
    && (forall id :: id in Ids(r.state.pendingTools) <==> id in Ids(b.pending) && !NamedBy(responses, id))
  }

  /**
   A resume, case by case: nothing pending enters the loop as it is, pending calls without
   a response fail, and otherwise the responses land and the loop is entered exactly when
   every pending call has been named.
   */
  lemma ResumeByCases(s: Snapshot, maxCalls: int, responses: seq<Response>, b: Batch, total: int)
    requires Fresh(b) && HoldsBack(s, b.pending) && CarriesOn(s, total)
    requires (s.messages == [] ==> b.messages == [User(s.request)]) && (s.messages != [] ==> b.messages == s.messages)
    ensures var e := EntryFor(s, maxCalls, responses);
            && (b.pending == [] ==> e == Enters(b.messages))
            && (b.pending != [] && responses == [] ==> e == Ends(Failed(total, 0)))
    ensures var e := EntryFor(s, maxCalls, responses);
            b.pending != [] && responses != [] ==>
              && (e.Enters? <==> forall p :: p in b.pending ==> NamedBy(responses, p.id))
              && (e.Enters? ==> AnsweredInOrder(b.messages, b.pending, responses, |responses|, e.messages))
              && (e.Ends? ==> PausedAgain(s, maxCalls, b, responses, total, e.result))
  {
    assert b.pending == Held(s) && total == RestoreCounters(s).total;
    if b.pending != [] && responses != [] {
      ResponsesLand(b, responses);
      LeftIsUnnamed(b, responses);
      var a := AnswerAll(b, responses);
      if a.pending != [] {
        assert a.pending[0] in a.pending;
        LeftIsFresh(b, responses);
        EnrichKeeps(a.pending);
      }
    }
  }

  lemma LeftIsFresh(b: Batch, responses: seq<Response>)
    requires Fresh(b)
    ensures Canonical(AnswerAll(b, responses).pending)
  {
    assert responses[..|responses|] == responses;
    StillPending(b, responses, |responses|);
  }

  lemma LeftIsUnnamed(b: Batch, responses: seq<Response>)
    requires Fresh(b)
    ensures forall p :: p in AnswerAll(b, responses).pending <==> p in b.pending && !NamedBy(responses, p.id)
    ensures forall id :: id in Ids(AnswerAll(b, responses).pending) <==> id in Ids(b.pending) && !NamedBy(responses, id)
  {
    ResponsesLand(b, responses);
  }
}
