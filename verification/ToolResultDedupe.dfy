/**
 Tool results delivered more than once: each call id keeps its earliest message, in place,
 with the earliest content that says anything.
 */
module ToolResultDedupe {
  import opened Common

  datatype Content = Missing | Text(text: string) | Parts(parts: seq<string>) | Structured(json: string)

  /** `rest` stands for every other field of the message. */
  datatype Msg = Msg(role: string, toolCallId: Option<string>, content: Content, rest: string)

  predicate Blank(s: string) {
    forall i :: 0 <= i < |s| ==> IsSpaceChar(s[i])
  }

  predicate HasContent(c: Content) {
    match c
    case Missing => false
    case Text(text) => !Blank(text)
    case Parts(parts) => parts != []
    case Structured(_) => true
  }

  /** The id under which a message is deduplicated, if it is. */
  function Key(m: Msg): Option<string> {
    if m.role != "tool" || m.toolCallId.None? || Blank(m.toolCallId.value) then None else m.toolCallId
  }

  // ------------------------------------------------------------------ what the result is

  predicate Seen(ms: seq<Msg>, key: string, n: nat)
    requires n <= |ms|
  {
    n > 0 && (Seen(ms, key, n - 1) || Key(ms[n - 1]) == Some(key))
  }

  /** An earlier message has the same key. */
  predicate Repeats(ms: seq<Msg>, i: nat)
    requires i < |ms|
  {
    Key(ms[i]).Some? && Seen(ms, Key(ms[i]).value, i)
  }

  /** The first copy of a key that says anything, at or after `n`; |ms| when there is none. */
  function FirstSaying(ms: seq<Msg>, key: string, n: nat): (i: nat)
    requires n <= |ms|
    ensures n <= i <= |ms| && (i < |ms| ==> Key(ms[i]) == Some(key) && HasContent(ms[i].content))
    decreases |ms| - n
  {
    if n == |ms| || (Key(ms[n]) == Some(key) && HasContent(ms[n].content)) then n else FirstSaying(ms, key, n + 1)
  }

  /** A message with the earliest content of its copies. */
  function Merged(ms: seq<Msg>, i: nat): Msg
    requires i < |ms|
  {
    if Key(ms[i]).None? then ms[i]
    else
      var j := FirstSaying(ms, Key(ms[i]).value, 0);
      if HasContent(ms[i].content) || j == |ms| then ms[i] else ms[i].(content := ms[j].content)
  }

  function Deduped(ms: seq<Msg>, n: nat): seq<Msg>
    requires n <= |ms|
  {
    if n == 0 then [] else Deduped(ms, n - 1) + (if Repeats(ms, n - 1) then [] else [Merged(ms, n - 1)])
  }

  /** Ids seen more than once, by second occurrence. */
  function RepeatedIds(ms: seq<Msg>, n: nat): seq<string>
    requires n <= |ms|
  {
    if n == 0 then []
    else
      var earlier := RepeatedIds(ms, n - 1);
      if Repeats(ms, n - 1) && Key(ms[n - 1]).value !in earlier then earlier + [Key(ms[n - 1]).value] else earlier
  }

  // ------------------------------------------------------------------ the loops

  /** The dictionary of first positions. */
  function Firsts(ms: seq<Msg>, n: nat): map<string, nat>
    requires n <= |ms|
  {
    if n == 0 then map[]
    else
      var earlier := Firsts(ms, n - 1);
      if Key(ms[n - 1]).None? || Repeats(ms, n - 1) then earlier else earlier[Key(ms[n - 1]).value := n - 1]
  }

  /** Its keys, in the order they were added. */
  function Order(ms: seq<Msg>, n: nat): seq<string>
    requires n <= |ms|
  {
    if n == 0 then []
    else
      var earlier := Order(ms, n - 1);
      if Key(ms[n - 1]).None? || Repeats(ms, n - 1) then earlier else earlier + [Key(ms[n - 1]).value]
  }

  function RepeatSet(ms: seq<Msg>, n: nat): set<nat>
    requires n <= |ms|
  {
    if n == 0 then {} else RepeatSet(ms, n - 1) + (if Repeats(ms, n - 1) then {n - 1} else {})
  }

  lemma {:induction false} SeenMeans(ms: seq<Msg>, key: string, n: nat)
    requires n <= |ms|
    ensures Seen(ms, key, n) <==> exists i :: 0 <= i < n && Key(ms[i]) == Some(key)
  {
    if n > 0 { SeenMeans(ms, key, n - 1); }
  }

  lemma {:induction false} FirstsMean(ms: seq<Msg>, n: nat, key: string)
    requires n <= |ms|
    ensures key in Firsts(ms, n) <==> Seen(ms, key, n)
    ensures key in Order(ms, n) <==> Seen(ms, key, n)
    ensures key in Firsts(ms, n) ==>
              var i := Firsts(ms, n)[key]; i < n && Key(ms[i]) == Some(key) && !Repeats(ms, i)
  {
    if n > 0 { FirstsMean(ms, n - 1, key); }
  }

  lemma {:induction false} RepeatSetMeans(ms: seq<Msg>, n: nat)
    requires n <= |ms|
    ensures forall i :: i in RepeatSet(ms, n) <==> 0 <= i < n && Repeats(ms, i)
  {
    if n > 0 { RepeatSetMeans(ms, n - 1); }
  }

  /** A key has only one message that repeats no other. */
  lemma OnlyOneFirst(ms: seq<Msg>, i: nat, j: nat)
    requires i < |ms| && j < |ms| && Key(ms[i]).Some? && Key(ms[i]) == Key(ms[j])
    requires !Repeats(ms, i) && !Repeats(ms, j)
    ensures i == j
  {
    SeenMeans(ms, Key(ms[i]).value, i);
    SeenMeans(ms, Key(ms[i]).value, j);
  }

  method IndexMessages(ms: seq<Msg>) returns (firstById: map<string, nat>, order: seq<string>, repeats: set<nat>, ids: seq<string>)
    ensures firstById == Firsts(ms, |ms|) && order == Order(ms, |ms|)
    ensures repeats == RepeatSet(ms, |ms|) && ids == RepeatedIds(ms, |ms|)
  {
    firstById, order, repeats, ids := map[], [], {}, [];
    for n := 0 to |ms|
      invariant firstById == Firsts(ms, n) && order == Order(ms, n)
      invariant repeats == RepeatSet(ms, n) && ids == RepeatedIds(ms, n)
    {
      var key := Key(ms[n]);
      if key.Some? {
        FirstsMean(ms, n, key.value);
        if key.value in firstById {
          repeats := repeats + {n};
          if key.value !in ids {
            ids := ids + [key.value];
          }
        } else {
          firstById := firstById[key.value := n];
          order := order + [key.value];
        }
      }
    }
  }

  /** A message once the keys in `done` have been handled. */
  function Filled(ms: seq<Msg>, i: nat, done: seq<string>): Msg
    requires i < |ms|
  {
    if Key(ms[i]).Some? && Key(ms[i]).value in done then Merged(ms, i) else ms[i]
  }

  predicate FilledTo(ms: seq<Msg>, out: seq<Msg>, done: seq<string>) {
    |out| == |ms| && forall i :: 0 <= i < |ms| && !Repeats(ms, i) ==> out[i] == Filled(ms, i, done)
  }

  lemma FilledOneMore(ms: seq<Msg>, out: seq<Msg>, done: seq<string>, key: string, first: nat)
    requires FilledTo(ms, out, done) && first < |ms| && Key(ms[first]) == Some(key) && !Repeats(ms, first)
    ensures FilledTo(ms, out[first := Merged(ms, first)], done + [key])
  {
    forall i | 0 <= i < |ms| && !Repeats(ms, i) && Key(ms[i]) == Some(key) ensures i == first {
      OnlyOneFirst(ms, i, first);
    }
  }

  /** Content for the first copies that have none, taken from later ones. */
  method FillContents(ms: seq<Msg>, firstById: map<string, nat>, order: seq<string>, repeats: set<nat>) returns (out: seq<Msg>)
    requires firstById == Firsts(ms, |ms|) && order == Order(ms, |ms|) && repeats == RepeatSet(ms, |ms|)
    ensures FilledTo(ms, out, order)
  {
    out := ms;
    for k := 0 to |order|
      invariant FilledTo(ms, out, order[..k])
    {
      var key := order[k];
      assert key in order && order[..k + 1] == order[..k] + [key];
      FirstsMean(ms, |ms|, key);
      var first := firstById[key];
      FilledOneMore(ms, out, order[..k], key, first);
      ghost var filled := out[first := Merged(ms, first)];
      if HasContent(ms[first].content) {
        AlreadyFilled(ms, out, order[..k], key, first);
      } else {
        var later := FindContent(ms, key, first, repeats);
        if later < |ms| {
          out := out[first := ms[first].(content := ms[later].content)];
          assert out == filled;
        } else {
          AlreadyFilled(ms, out, order[..k], key, first);
        }
      }
    }
    assert order[..|order|] == order;
  }

  lemma AlreadyFilled(ms: seq<Msg>, out: seq<Msg>, done: seq<string>, key: string, first: nat)
    requires FilledTo(ms, out, done) && first < |ms| && Key(ms[first]) == Some(key) && !Repeats(ms, first)
    requires Merged(ms, first) == ms[first]
    ensures FilledTo(ms, out, done + [key])
  {
    FilledOneMore(ms, out, done, key, first);
    assert out[first := Merged(ms, first)] == out;
  }

  /** Among the repeats: the first copy of an empty first message that says anything. */
  method FindContent(ms: seq<Msg>, key: string, first: nat, repeats: set<nat>) returns (later: nat)
    requires first < |ms| && Key(ms[first]) == Some(key) && !Repeats(ms, first) && !HasContent(ms[first].content)
    requires repeats == RepeatSet(ms, |ms|)
    ensures later == FirstSaying(ms, key, 0)
  {
    RepeatSetMeans(ms, |ms|);
    later := 0;
    while later < |ms| && !(later in repeats && Key(ms[later]) == Some(key) && HasContent(ms[later].content))
      invariant later <= |ms| && FirstSaying(ms, key, later) == FirstSaying(ms, key, 0)
    {
      if Key(ms[later]) == Some(key) && HasContent(ms[later].content) {
        OnlyOneFirst(ms, later, first);
      }
      later := later + 1;
    }
  }

  method Dedupe(ms: seq<Msg>) returns (r: seq<Msg>, ids: seq<string>)
    ensures r == Deduped(ms, |ms|)
    ensures ids == RepeatedIds(ms, |ms|)
  {
    var firstById, order, repeats;
    firstById, order, repeats, ids := IndexMessages(ms);
    RepeatSetMeans(ms, |ms|);
    if repeats == {} {
      NothingRepeats(ms, |ms|);
      return ms, [];
    }
    var out := FillContents(ms, firstById, order, repeats);
    r := [];
    for n := 0 to |ms|
      invariant r == Deduped(ms, n)
    {
      FilledIsMerged(ms, n);
      if n !in repeats {
        r := r + [out[n]];
      }
    }
  }

  lemma {:induction false} NothingRepeats(ms: seq<Msg>, n: nat)
    requires n <= |ms| && forall i :: 0 <= i < |ms| ==> !Repeats(ms, i)
    ensures Deduped(ms, n) == ms[..n] && RepeatedIds(ms, n) == []
  {
    if n > 0 {
      NothingRepeats(ms, n - 1);
      UnrepeatedIsUntouched(ms, n - 1);
    }
  }

  lemma FilledIsMerged(ms: seq<Msg>, i: nat)
    requires i < |ms|
    ensures Filled(ms, i, Order(ms, |ms|)) == Merged(ms, i)
  {
    if Key(ms[i]).Some? {
      FirstsMean(ms, |ms|, Key(ms[i]).value);
      SeenMeans(ms, Key(ms[i]).value, |ms|);
    }
  }

  /** Without other copies a message keeps its content, empty or not. */
  lemma UnrepeatedIsUntouched(ms: seq<Msg>, i: nat)
    requires i < |ms| && forall j :: 0 <= j < |ms| ==> !Repeats(ms, j)
    ensures Merged(ms, i) == ms[i]
  {
    if Key(ms[i]).Some? {
      var j := FirstSaying(ms, Key(ms[i]).value, 0);
      if j < |ms| { OnlyOneFirst(ms, i, j); }
    }
  }

  // ------------------------------------------------------------------ what it guarantees

  /** Some character that stripping would leave. */
  predicate SaysSomething(s: string) {
    exists i :: 0 <= i < |s| && !IsSpaceChar(s[i])
  }

  /** Only tool messages with an id that is not blank are deduplicated, each under its own id. */
  lemma KeyIsItsId(m: Msg, id: string)
    ensures Key(m) == Some(id) <==> m.role == "tool" && m.toolCallId == Some(id) && SaysSomething(id)
  {
  }

  lemma ContentCounts(c: Content)
    ensures c == Missing ==> !HasContent(c)
    ensures c.Text? ==> (HasContent(c) <==> SaysSomething(c.text))
    ensures c.Parts? ==> (HasContent(c) <==> |c.parts| > 0)
    ensures c.Structured? ==> HasContent(c)
  {
  }

  /** A message is dropped exactly when an earlier tool message has its id. */
  lemma DroppedIff(ms: seq<Msg>, i: nat)
    requires i < |ms|
    ensures Repeats(ms, i) <==>
              ms[i].role == "tool" && ms[i].toolCallId.Some? && SaysSomething(ms[i].toolCallId.value)
              && exists j :: 0 <= j < i && ms[j].role == "tool" && ms[j].toolCallId == ms[i].toolCallId
  {
    if Key(ms[i]).Some? {
      var id := Key(ms[i]).value;
      SeenMeans(ms, id, i);
      KeyIsItsId(ms[i], id);
      forall j | 0 <= j < i ensures Key(ms[j]) == Some(id) <==> ms[j].role == "tool" && ms[j].toolCallId == Some(id) {
        KeyIsItsId(ms[j], id);
      }
    } else if ms[i].toolCallId.Some? {
      KeyIsItsId(ms[i], ms[i].toolCallId.value);
    }
  }

  /** Exactly the repeated ids are reported, each once. */
  lemma {:induction false} RepeatedIdsMean(ms: seq<Msg>, n: nat, id: string)
    requires n <= |ms|
    ensures id in RepeatedIds(ms, n) <==> exists i :: 0 <= i < n && Repeats(ms, i) && Key(ms[i]) == Some(id)
    ensures forall a, b :: 0 <= a < b < |RepeatedIds(ms, n)| ==> RepeatedIds(ms, n)[a] != RepeatedIds(ms, n)[b]
  {
    if n > 0 { RepeatedIdsMean(ms, n - 1, id); }
  }

  /** How many messages before `n` are kept: the new position of message `n`. */
  function Place(ms: seq<Msg>, n: nat): nat
    requires n <= |ms|
  {
    if n == 0 then 0 else Place(ms, n - 1) + (if Repeats(ms, n - 1) then 0 else 1)
  }

  lemma {:induction false} PlacesOrdered(ms: seq<Msg>, i: nat, n: nat)
    requires i <= n <= |ms|
    ensures Place(ms, i) <= Place(ms, n) && (i < n && !Repeats(ms, i) ==> Place(ms, i) < Place(ms, n))
  {
    if i < n { PlacesOrdered(ms, i, n - 1); }
  }

  /** Every kept message stands at its place, in the original order, with the earliest content of its copies. */
  lemma {:induction false} KeptInPlace(ms: seq<Msg>, n: nat, i: nat)
    requires i < n <= |ms| && !Repeats(ms, i)
    ensures |Deduped(ms, n)| == Place(ms, n) && Place(ms, i) < Place(ms, n)
    ensures Deduped(ms, n)[Place(ms, i)] == Merged(ms, i)
    decreases n
  {
    DedupedSize(ms, n - 1);
    PlacesOrdered(ms, i, n);
    if i < n - 1 { KeptInPlace(ms, n - 1, i); }
  }

  lemma {:induction false} DedupedSize(ms: seq<Msg>, n: nat)
    requires n <= |ms|
    ensures |Deduped(ms, n)| == Place(ms, n)
  {
    if n > 0 { DedupedSize(ms, n - 1); }
  }

  /** Nothing else is in the result. */
  lemma {:induction false} OnlyKept(ms: seq<Msg>, n: nat, p: nat) returns (i: nat)
    requires n <= |ms| && p < |Deduped(ms, n)|
    ensures i < n && !Repeats(ms, i) && p == Place(ms, i) && Deduped(ms, n)[p] == Merged(ms, i)
  {
    DedupedSize(ms, n - 1);
    if p < |Deduped(ms, n - 1)| {
      i := OnlyKept(ms, n - 1, p);
    } else {
      i := n - 1;
    }
  }

  lemma {:induction false} FirstSayingMeans(ms: seq<Msg>, key: string, n: nat)
    requires n <= |ms|
    ensures forall j :: n <= j < FirstSaying(ms, key, n) ==> !(Key(ms[j]) == Some(key) && HasContent(ms[j].content))
    decreases |ms| - n
  {
    if n < |ms| { FirstSayingMeans(ms, key, n + 1); }
  }

  /** A message says something afterwards exactly when one of its copies did; only content can change. */
  lemma MergedSays(ms: seq<Msg>, i: nat)
    requires i < |ms|
    ensures Key(Merged(ms, i)) == Key(ms[i]) && Merged(ms, i) == ms[i].(content := Merged(ms, i).content)
    ensures Key(ms[i]).Some? ==>
              (HasContent(Merged(ms, i).content) <==>
               exists j :: 0 <= j < |ms| && Key(ms[j]) == Key(ms[i]) && HasContent(ms[j].content))
    ensures Key(ms[i]).None? || HasContent(ms[i].content) ==> Merged(ms, i) == ms[i]
  {
    if Key(ms[i]).Some? {
      FirstSayingMeans(ms, Key(ms[i]).value, 0);
    }
  }

  /** The kept message says what the earliest copy with something to say said. */
  lemma MergedTakesEarliest(ms: seq<Msg>, i: nat, j: nat)
    requires i < |ms| && !Repeats(ms, i) && Key(ms[i]).Some?
    requires j < |ms| && Key(ms[j]) == Key(ms[i]) && HasContent(ms[j].content)
    requires forall h :: 0 <= h < j && Key(ms[h]) == Key(ms[i]) ==> !HasContent(ms[h].content)
    ensures Merged(ms, i).content == ms[j].content
  {
    var key := Key(ms[i]).value;
    FirstSayingMeans(ms, key, 0);
    assert FirstSaying(ms, key, 0) == j;
    SeenMeans(ms, key, i);
    if HasContent(ms[i].content) {
      assert i == j;
    }
  }

  /** Each deduplicated id is left exactly once. */
  lemma OneMessagePerId(ms: seq<Msg>, key: string)
    ensures var r := Deduped(ms, |ms|);
            (exists i :: 0 <= i < |ms| && Key(ms[i]) == Some(key))
            <==> exists p :: 0 <= p < |r| && Key(r[p]) == Some(key)
    ensures var r := Deduped(ms, |ms|);
            forall p, q :: 0 <= p < |r| && 0 <= q < |r| && Key(r[p]) == Some(key) && Key(r[q]) == Some(key) ==> p == q
  {
    var r := Deduped(ms, |ms|);
    FirstsMean(ms, |ms|, key);
    SeenMeans(ms, key, |ms|);
    if Seen(ms, key, |ms|) {
      var first := Firsts(ms, |ms|)[key];
      KeptInPlace(ms, |ms|, first);
      MergedSays(ms, first);
      assert Key(r[Place(ms, first)]) == Some(key);
    }
    forall p | 0 <= p < |r| && Key(r[p]) == Some(key)
      ensures Seen(ms, key, |ms|) && p == Place(ms, Firsts(ms, |ms|)[key])
    {
      var i := OnlyKept(ms, |ms|, p);
      MergedSays(ms, i);
      OnlyOneFirst(ms, i, Firsts(ms, |ms|)[key]);
    }
  }

  /** Deduplicating again finds nothing to do. */
  lemma DedupeIsIdempotent(ms: seq<Msg>)
    ensures var r := Deduped(ms, |ms|);
            Deduped(r, |r|) == r && RepeatedIds(r, |r|) == []
  {
    var r := Deduped(ms, |ms|);
    forall p | 0 <= p < |r| ensures !Repeats(r, p) {
      if Key(r[p]).Some? {
        OneMessagePerId(ms, Key(r[p]).value);
        SeenMeans(r, Key(r[p]).value, p);
      }
    }
    NothingRepeats(r, |r|);
    assert r[..|r|] == r;
  }
}
