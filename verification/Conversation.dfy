/**
 Tool-calling conversations: which message sequences a provider accepts, as a scan over
 the messages and, equivalently, as a statement about positions.
 */
module Conversation {
  import opened Common

  datatype Call = Call(id: string, name: string, arguments: string)

  datatype Message =
    | System(text: string)
    | User(text: string)
    | Assistant(text: string, calls: seq<Call>)
    | ToolResult(id: string, name: string, content: string)

  function CallIds(calls: seq<Call>): set<string> {
    set c | c in calls :: c.id
  }

  predicate DistinctIds(calls: seq<Call>) {
    (forall c :: c in calls ==> c.id != "")
    && forall i, j :: 0 <= i < j < |calls| ==> calls[i].id != calls[j].id
  }

  /** The ids still waiting for a result, or None when the sequence is already malformed. */
  function Open(messages: seq<Message>): Option<set<string>> {
    if messages == [] then Some({})
    else Advance(Open(messages[..|messages| - 1]), messages[|messages| - 1])
  }

  function Advance(open: Option<set<string>>, m: Message): Option<set<string>> {
    match m
    case Assistant(_, calls) => if open == Some({}) && DistinctIds(calls) then Some(CallIds(calls)) else None
    case ToolResult(id, _, _) => if open.Some? && id in open.value then Some(open.value - {id}) else None
    case _ => if open == Some({}) then open else None
  }

  /** Well formed, with every call answered: fit to be sent to the model. */
  predicate Paired(messages: seq<Message>) {
    Open(messages) == Some({})
  }

  lemma OpenAppend(messages: seq<Message>, m: Message)
    ensures Open(messages + [m]) == Advance(Open(messages), m)
  {
    assert (messages + [m])[..|messages|] == messages;
  }

  /** No assistant message strictly after `i`, up to and including `j`. */
  ghost predicate SameTurn(m: seq<Message>, i: nat, j: nat)
    requires j < |m|
  {
    forall k :: i < k <= j ==> !m[k].Assistant?
  }

  predicate ResultAt(m: seq<Message>, j: nat, id: string)
    requires j < |m|
  {
    m[j].ToolResult? && m[j].id == id
  }

  /** Exactly one result for `id` after message `i` and before the next assistant message. */
  ghost predicate AnsweredOnce(m: seq<Message>, i: nat, id: string) {
    exists j :: i < j < |m| && AnsweredAt(m, i, j, id)
                && forall j2 :: i < j2 < |m| && AnsweredAt(m, i, j2, id) ==> j2 == j
  }

  ghost predicate AnsweredAt(m: seq<Message>, i: nat, j: nat, id: string)
    requires j < |m|
  {
    ResultAt(m, j, id) && SameTurn(m, i, j)
  }

  ghost predicate Unanswered(m: seq<Message>, i: nat, id: string) {
    forall j :: i < j < |m| ==> !AnsweredAt(m, i, j, id)
  }

  ghost predicate LastTurn(m: seq<Message>, i: nat) {
    forall k :: i < k < |m| ==> !m[k].Assistant?
  }

  lemma AnsweredOnceAppend(m: seq<Message>, x: Message, i: nat, id: string)
    requires AnsweredOnce(m, i, id)
    requires x.ToolResult? && x.id == id ==> !LastTurn(m, i)
    ensures AnsweredOnce(m + [x], i, id)
  {
    var m' := m + [x];
    var j :| i < j < |m| && AnsweredAt(m, i, j, id)
             && forall j2 :: i < j2 < |m| && AnsweredAt(m, i, j2, id) ==> j2 == j;
    assert AnsweredAt(m', i, j, id);
    forall j2 | i < j2 < |m'| && AnsweredAt(m', i, j2, id) ensures j2 == j {
      if j2 < |m| {
        assert AnsweredAt(m, i, j2, id) by {
          forall k | i < k <= j2 ensures !m[k].Assistant? { assert m'[k] == m[k]; }
        }
      } else {
        assert LastTurn(m, i) by {
          forall k | i < k < |m| ensures !m[k].Assistant? { assert m'[k] == m[k]; }
        }
        assert false;
      }
    }
  }

  lemma UnansweredAppend(m: seq<Message>, x: Message, i: nat, id: string)
    requires Unanswered(m, i, id) && !(x.ToolResult? && x.id == id)
    ensures Unanswered(m + [x], i, id)
  {
    forall j | i < j < |m + [x]| ensures !AnsweredAt(m + [x], i, j, id) {
      if j < |m| && AnsweredAt(m + [x], i, j, id) {
        assert AnsweredAt(m, i, j, id) by {
          forall k | i < k <= j ensures !m[k].Assistant? { assert (m + [x])[k] == m[k]; }
        }
      }
    }
  }

  lemma NowAnswered(m: seq<Message>, x: Message, i: nat, id: string)
    requires i < |m| && Unanswered(m, i, id) && LastTurn(m, i) && x.ToolResult? && x.id == id
    ensures AnsweredOnce(m + [x], i, id)
  {
    var m' := m + [x];
    assert AnsweredAt(m', i, |m|, id);
    forall j2 | i < j2 < |m'| && AnsweredAt(m', i, j2, id) ensures j2 == |m| {
      if j2 < |m| {
        assert AnsweredAt(m, i, j2, id) by {
          forall k | i < k <= j2 ensures !m[k].Assistant? { assert m'[k] == m[k]; }
        }
      }
    }
  }

  /** The scan's meaning at every position: open ids are the last turn's unanswered ones, the rest are answered once. */
  lemma {:induction false} OpenMeans(m: seq<Message>, i: nat, c: Call)
    requires Open(m).Some? && i < |m| && m[i].Assistant? && c in m[i].calls
    ensures LastTurn(m, i) && c.id in Open(m).value ==> Unanswered(m, i, c.id)
    ensures !(LastTurn(m, i) && c.id in Open(m).value) ==> AnsweredOnce(m, i, c.id)
    decreases |m|
  {
    var m0, x := m[..|m| - 1], m[|m| - 1];
    assert m == m0 + [x];
    if i == |m| - 1 {
      assert c.id in CallIds(x.calls);
    } else {
      OpenMeans(m0, i, c);
      assert LastTurn(m, i) <==> LastTurn(m0, i) && !x.Assistant? by {
        assert forall k :: i < k < |m0| ==> m[k] == m0[k];
      }
      if LastTurn(m0, i) && c.id in Open(m0).value {
        if x.ToolResult? && x.id == c.id {
          NowAnswered(m0, x, i, c.id);
        } else {
          UnansweredAppend(m0, x, i, c.id);
        }
      } else {
        AnsweredOnceAppend(m0, x, i, c.id);
      }
    }
  }

  /**
   A paired conversation, by position: each call of each assistant message has exactly
   one result, after it and before the next assistant message.
   */
  lemma PairedMeans(m: seq<Message>, i: nat, c: Call)
    requires Paired(m) && i < |m| && m[i].Assistant? && c in m[i].calls
    ensures AnsweredOnce(m, i, c.id)
  {
    OpenMeans(m, i, c);
  }

  function AllCallIds(m: seq<Message>): set<string> {
    set i, c | 0 <= i < |m| && m[i].Assistant? && c in m[i].calls :: c.id
  }

  function ResultIds(m: seq<Message>): set<string> {
    set i | 0 <= i < |m| && m[i].ToolResult? :: m[i].id
  }

  /** Well formed; results answer calls; no open id has been answered, not even in an earlier turn. */
  ghost predicate Clean(m: seq<Message>) {
    && Open(m).Some?
    && Open(m).value <= AllCallIds(m)
    && ResultIds(m) <= AllCallIds(m)
    && Open(m).value !! ResultIds(m)
  }

  lemma CleanAfterResult(m: seq<Message>, id: string, name: string, content: string)
    requires Clean(m) && id in Open(m).value
    ensures Clean(m + [ToolResult(id, name, content)])
    ensures Open(m + [ToolResult(id, name, content)]) == Some(Open(m).value - {id})
    ensures AllCallIds(m + [ToolResult(id, name, content)]) == AllCallIds(m)
  {
    var m' := m + [ToolResult(id, name, content)];
    OpenAppend(m, ToolResult(id, name, content));
    assert m'[|m|] == ToolResult(id, name, content);
    assert forall k :: 0 <= k < |m| ==> m'[k] == m[k];
    assert ResultIds(m') == ResultIds(m) + {id};
    assert AllCallIds(m') == AllCallIds(m);
  }

  lemma CleanAfterAssistant(m: seq<Message>, text: string, calls: seq<Call>)
    requires Clean(m) && Paired(m) && DistinctIds(calls) && CallIds(calls) !! AllCallIds(m)
    ensures Clean(m + [Assistant(text, calls)])
    ensures Open(m + [Assistant(text, calls)]) == Some(CallIds(calls))
  {
    var m' := m + [Assistant(text, calls)];
    OpenAppend(m, Assistant(text, calls));
    assert m'[|m|] == Assistant(text, calls);
    assert forall k :: 0 <= k < |m| ==> m'[k] == m[k];
    assert ResultIds(m') == ResultIds(m);
    assert AllCallIds(m') == AllCallIds(m) + CallIds(calls);
  }
}
