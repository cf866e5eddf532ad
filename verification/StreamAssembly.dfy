/**
 Streamed tool calls: fragments from providers that disagree on how calls are split are
 folded into calls. Absent fields are "".
 */
module StreamAssembly {
  import opened Common

  datatype Fragment = Fragment(id: string, kind: string, name: string, arguments: string)

  datatype ToolCall = ToolCall(id: string, kind: string, name: string, arguments: string)

  /** Neither grouping by index nor by id works for every provider; a start marker does. */
  predicate StartsNew(current: Option<ToolCall>, f: Fragment) {
    match current
    case None => true
    case Some(c) => (f.name != "" && c.name != "") || (f.id != "" && c.id != "" && f.id != c.id)
  }

  function Extend(c: ToolCall, f: Fragment): ToolCall {
    ToolCall(if f.id != "" then f.id else c.id, if f.kind != "" then f.kind else c.kind,
             c.name + f.name, c.arguments + f.arguments)
  }

  function Last(calls: seq<ToolCall>): Option<ToolCall> {
    if calls == [] then None else Some(calls[|calls| - 1])
  }

  function Step(calls: seq<ToolCall>, f: Fragment): seq<ToolCall> {
    if StartsNew(Last(calls), f) then calls + [Extend(ToolCall("", "function", "", ""), f)]
    else calls[..|calls| - 1] + [Extend(calls[|calls| - 1], f)]
  }

  function Fold(calls: seq<ToolCall>, fragments: seq<Fragment>): seq<ToolCall>
    decreases |fragments|
  {
    if fragments == [] then calls else Fold(Step(calls, fragments[0]), fragments[1..])
  }

  method Assemble(fragments: seq<Fragment>) returns (calls: seq<ToolCall>)
    ensures calls == Fold([], fragments)
  {
    calls := [];
    for n := 0 to |fragments|
      invariant Fold(calls, fragments[n..]) == Fold([], fragments)
    {
      assert fragments[n..][0] == fragments[n] && fragments[n..][1..] == fragments[n + 1..];
      calls := Accumulate(calls, fragments[n]);
    }
  }

  method Accumulate(calls0: seq<ToolCall>, f: Fragment) returns (calls: seq<ToolCall>)
    ensures calls == Step(calls0, f)
  {
    calls := calls0;
    if StartsNew(Last(calls), f) {
      calls := calls + [ToolCall("", "function", "", "")];
    }
    ghost var c := calls[|calls| - 1];
    var current := calls[|calls| - 1];
    if f.id != "" { current := current.(id := f.id); }
    if f.kind != "" { current := current.(kind := f.kind); }
    if f.name != "" { current := current.(name := current.name + f.name); }
    if f.arguments != "" { current := current.(arguments := current.arguments + f.arguments); }
    assert current == Extend(c, f) by {
      assert c.name + "" == c.name && c.arguments + "" == c.arguments;
    }
    calls := calls[..|calls| - 1] + [current];
  }

  // ------------------------------------------------------------------ the inverse: streaming

  function Arguments(fragments: seq<Fragment>): string {
    if fragments == [] then "" else fragments[0].arguments + Arguments(fragments[1..])
  }

  /** Any way of streaming one call: identity and name first, the arguments in pieces; the id may be repeated. */
  predicate Streams(c: ToolCall, fragments: seq<Fragment>) {
    && fragments != []
    && fragments[0].id == c.id && fragments[0].name == c.name
    && (fragments[0].kind == c.kind || (fragments[0].kind == "" && c.kind == "function")) && c.kind != ""
    && (forall k :: 1 <= k < |fragments| ==>
          fragments[k].name == "" && fragments[k].id in {"", c.id} && fragments[k].kind in {"", c.kind})
    && Arguments(fragments) == c.arguments
  }

  predicate AllStream(calls: seq<ToolCall>, parts: seq<seq<Fragment>>) {
    |calls| == |parts| && forall k :: 0 <= k < |calls| ==> Streams(calls[k], parts[k])
  }

  function Flatten(parts: seq<seq<Fragment>>): seq<Fragment> {
    if parts == [] then [] else Flatten(parts[..|parts| - 1]) + parts[|parts| - 1]
  }

  /** A call whose start shows after the previous one. */
  predicate Separable(previous: ToolCall, next: ToolCall) {
    (previous.name != "" && next.name != "") || (previous.id != "" && next.id != "" && previous.id != next.id)
  }

  predicate AllSeparable(calls: seq<ToolCall>) {
    forall k :: 0 < k < |calls| ==> Separable(calls[k - 1], calls[k])
  }

  lemma {:induction false} FoldConcat(calls: seq<ToolCall>, a: seq<Fragment>, b: seq<Fragment>)
    ensures Fold(calls, a + b) == Fold(Fold(calls, a), b)
    decreases |a|
  {
    if a == [] {
      assert a + b == b;
    } else {
      assert (a + b)[1..] == a[1..] + b;
      FoldConcat(Step(calls, a[0]), a[1..], b);
    }
  }

  /** A fragment that continues the current call, whatever that call is. */
  predicate Continues(c: ToolCall, f: Fragment) {
    f.name == "" && (f.id == "" || f.id == c.id) && (f.kind == "" || f.kind == c.kind)
  }

  lemma ContinuesInPlace(calls: seq<ToolCall>, f: Fragment)
    requires calls != [] && Continues(calls[|calls| - 1], f)
    ensures var c := calls[|calls| - 1];
            Step(calls, f) == calls[..|calls| - 1] + [c.(arguments := c.arguments + f.arguments)]
  {
    var c := calls[|calls| - 1];
    assert c.name + "" == c.name;
  }

  lemma {:induction false} Continuation(calls: seq<ToolCall>, rest: seq<Fragment>)
    requires calls != [] && forall k :: 0 <= k < |rest| ==> Continues(calls[|calls| - 1], rest[k])
    ensures var c := calls[|calls| - 1];
            Fold(calls, rest) == calls[..|calls| - 1] + [c.(arguments := c.arguments + Arguments(rest))]
    decreases |rest|
  {
    var c := calls[|calls| - 1];
    if rest == [] {
      assert c.arguments + "" == c.arguments;
    } else {
      var init, c' := calls[..|calls| - 1], c.(arguments := c.arguments + rest[0].arguments);
      ContinuesInPlace(calls, rest[0]);
      forall k | 0 <= k < |rest[1..]| ensures Continues(c', rest[1..][k]) {
        assert rest[1..][k] == rest[k + 1];
      }
      Continuation(init + [c'], rest[1..]);
      assert (init + [c'])[..|init|] == init;
      Regroup(c.arguments, rest[0].arguments, Arguments(rest[1..]));
    }
  }

  /** Fragments without a name that repeat at most the current id never start a call. */
  lemma {:induction false} NoNewCall(calls: seq<ToolCall>, rest: seq<Fragment>)
    requires calls != [] && forall k :: 0 <= k < |rest| ==> rest[k].name == "" && rest[k].id in {"", calls[|calls| - 1].id}
    ensures |Fold(calls, rest)| == |calls|
    decreases |rest|
  {
    if rest != [] {
      NoNewCall(Step(calls, rest[0]), rest[1..]);
    }
  }

  lemma FirstFragment(c: ToolCall, part: seq<Fragment>)
    requires Streams(c, part)
    ensures Extend(ToolCall("", "function", "", ""), part[0]) == c.(arguments := part[0].arguments)
    ensures part[0].arguments + Arguments(part[1..]) == c.arguments
  {
    assert "" + c.name == c.name && "" + part[0].arguments == part[0].arguments;
  }

  /** A streamed call whose start shows comes out as a call of its own. */
  lemma OneCall(calls: seq<ToolCall>, c: ToolCall, part: seq<Fragment>)
    requires Streams(c, part) && StartsNew(Last(calls), part[0])
    ensures Fold(calls, part) == calls + [c]
  {
    var first, rest := c.(arguments := part[0].arguments), part[1..];
    FirstFragment(c, part);
    assert Step(calls, part[0]) == calls + [first];
    forall k | 0 <= k < |rest| ensures Continues(first, rest[k]) {
      assert rest[k] == part[k + 1];
    }
    Continuation(calls + [first], rest);
    assert (calls + [first])[..|calls|] == calls;
  }

  /** Otherwise it is merged into the call before it. */
  lemma MergedCall(calls: seq<ToolCall>, c: ToolCall, part: seq<Fragment>)
    requires Streams(c, part) && !StartsNew(Last(calls), part[0])
    ensures |Fold(calls, part)| == |calls|
  {
    NoNewCall(Step(calls, part[0]), part[1..]);
  }

  lemma {:induction false} SeparableComesBack(calls: seq<ToolCall>, parts: seq<seq<Fragment>>)
    requires AllStream(calls, parts) && AllSeparable(calls)
    ensures Fold([], Flatten(parts)) == calls
    decreases |calls|
  {
    if calls != [] {
      var n := |calls| - 1;
      SeparableInit(calls, parts, n);
      SeparableComesBack(calls[..n], parts[..n]);
      LastStart(calls, parts, n);
      LastCallBack(calls, parts, n);
    }
  }

  lemma SeparableInit(calls: seq<ToolCall>, parts: seq<seq<Fragment>>, n: nat)
    requires AllStream(calls, parts) && n < |calls|
    ensures AllStream(calls[..n], parts[..n]) && (AllSeparable(calls) ==> AllSeparable(calls[..n]))
  {
  }

  lemma LastPart(parts: seq<seq<Fragment>>, n: nat)
    requires |parts| == n + 1
    ensures Fold([], Flatten(parts)) == Fold(Fold([], Flatten(parts[..n])), parts[n])
  {
    FlattenLast(parts);
    FoldConcat([], Flatten(parts[..n]), parts[n]);
  }

  lemma LastCallBack(calls: seq<ToolCall>, parts: seq<seq<Fragment>>, n: nat)
    requires |parts| == |calls| == n + 1 && Streams(calls[n], parts[n])
    requires Fold([], Flatten(parts[..n])) == calls[..n] && StartsNew(Last(calls[..n]), parts[n][0])
    ensures Fold([], Flatten(parts)) == calls
  {
    LastPart(parts, n);
    OneCall(calls[..n], calls[n], parts[n]);
  }

  lemma LastCallMerged(calls: seq<ToolCall>, parts: seq<seq<Fragment>>, n: nat)
    requires |parts| == |calls| == n + 1 && Streams(calls[n], parts[n])
    requires Fold([], Flatten(parts[..n])) == calls[..n] && !StartsNew(Last(calls[..n]), parts[n][0])
    ensures |Fold([], Flatten(parts))| == n
  {
    LastPart(parts, n);
    MergedCall(calls[..n], calls[n], parts[n]);
  }

  lemma AtMostOneMore(calls: seq<ToolCall>, parts: seq<seq<Fragment>>, n: nat)
    requires AllStream(calls, parts) && n == |calls| - 1
    ensures |Fold([], Flatten(parts))| <= |Fold([], Flatten(parts[..n]))| + 1
  {
    var earlier := Fold([], Flatten(parts[..n]));
    LastPart(parts, n);
    if StartsNew(Last(earlier), parts[n][0]) {
      OneCall(earlier, calls[n], parts[n]);
    } else {
      MergedCall(earlier, calls[n], parts[n]);
    }
  }

  lemma {:induction false} HiddenStartLosesACall(calls: seq<ToolCall>, parts: seq<seq<Fragment>>)
    requires AllStream(calls, parts) && !AllSeparable(calls)
    ensures |Fold([], Flatten(parts))| < |calls|
    decreases |calls|
  {
    var n := |calls| - 1;
    SeparableInit(calls, parts, n);
    if AllSeparable(calls[..n]) {
      SeparableComesBack(calls[..n], parts[..n]);
      LastStart(calls, parts, n);
      LastCallMerged(calls, parts, n);
    } else {
      HiddenStartLosesACall(calls[..n], parts[..n]);
      AtMostOneMore(calls, parts, n);
    }
  }

  /**
   Reassembly inverts streaming exactly when every call's start shows: both it and the call
   before it are named, or both carry ids and these differ.
   */
  lemma ReassemblyIff(calls: seq<ToolCall>, parts: seq<seq<Fragment>>)
    requires AllStream(calls, parts)
    ensures Fold([], Flatten(parts)) == calls <==> AllSeparable(calls)
  {
    if AllSeparable(calls) {
      SeparableComesBack(calls, parts);
    } else {
      HiddenStartLosesACall(calls, parts);
    }
  }

  lemma LastStart(calls: seq<ToolCall>, parts: seq<seq<Fragment>>, n: nat)
    requires AllStream(calls, parts) && n == |calls| - 1 && AllSeparable(calls[..n])
    ensures StartsNew(Last(calls[..n]), parts[n][0]) <==> AllSeparable(calls)
  {
    assert Streams(calls[n], parts[n]);
    assert Last(calls[..n]) == if n == 0 then None else Some(calls[n - 1]);
    forall k | 0 < k < n ensures Separable(calls[k - 1], calls[k]) {
      assert Separable(calls[..n][k - 1], calls[..n][k]);
    }
  }

  /** Two calls of one tool, the second without a name and with the first one's id: one call comes back. */
  lemma TwoCallsCanMerge()
    ensures var calls := [ToolCall("1", "function", "read", "a"), ToolCall("1", "function", "", "b")];
            var parts := [[Fragment("1", "function", "read", "a")], [Fragment("1", "function", "", "b")]];
            && AllStream(calls, parts)
            && Fold([], Flatten(parts)) == [ToolCall("1", "function", "read", "ab")]
  {
    var first, second := Fragment("1", "function", "read", "a"), Fragment("1", "function", "", "b");
    var parts, read := [[first], [second]], ToolCall("1", "function", "read", "a");
    WholeFragmentsStream(read);
    WholeFragmentsStream(ToolCall("1", "function", "", "b"));
    FlattenLast(parts);
    FlattenLast([[first]]);
    assert parts[..1] == [[first]];
    assert Flatten([]) + [first] == [first];
    FoldConcat([], [first], [second]);
    FoldOne([], first);
    FoldOne([read], second);
    assert "" + "read" == "read" && "" + "a" == "a";
    assert Step([], first) == [read];
    assert "read" + "" == "read" && "a" + "b" == "ab";
    assert Step([read], second) == [ToolCall("1", "function", "read", "ab")];
  }

  lemma FlattenLast(parts: seq<seq<Fragment>>)
    requires parts != []
    ensures Flatten(parts) == Flatten(parts[..|parts| - 1]) + parts[|parts| - 1]
  {
  }

  lemma FoldOne(calls: seq<ToolCall>, f: Fragment)
    ensures Fold(calls, [f]) == Step(calls, f)
  {
    assert [f][1..] == [];
  }

  /** Named calls, streamed in any of the known styles, come back with the same ids, names and arguments. */
  lemma NamedCallsComeBack(calls: seq<ToolCall>, parts: seq<seq<Fragment>>)
    requires AllStream(calls, parts) && forall c :: c in calls ==> c.name != ""
    ensures Fold([], Flatten(parts)) == calls
  {
    ReassemblyIff(calls, parts);
    forall k | 0 < k < |calls| ensures Separable(calls[k - 1], calls[k]) {
      assert calls[k - 1] in calls && calls[k] in calls;
    }
  }

  /** One whole fragment per call, as some local models stream, is one of the styles. */
  lemma WholeFragmentsStream(c: ToolCall)
    requires c.kind != ""
    ensures Streams(c, [Fragment(c.id, c.kind, c.name, c.arguments)])
  {
    var f := Fragment(c.id, c.kind, c.name, c.arguments);
    assert Arguments([f][1..]) == "";
  }

  // ------------------------------------------------------------------ nothing is lost

  function FragmentNames(fragments: seq<Fragment>): string {
    if fragments == [] then "" else fragments[0].name + FragmentNames(fragments[1..])
  }

  function CallNames(calls: seq<ToolCall>): string {
    if calls == [] then "" else CallNames(calls[..|calls| - 1]) + calls[|calls| - 1].name
  }

  function CallArguments(calls: seq<ToolCall>): string {
    if calls == [] then "" else CallArguments(calls[..|calls| - 1]) + calls[|calls| - 1].arguments
  }

  lemma OneCallMore(calls: seq<ToolCall>, c: ToolCall)
    ensures CallNames(calls + [c]) == CallNames(calls) + c.name
    ensures CallArguments(calls + [c]) == CallArguments(calls) + c.arguments
  {
    assert (calls + [c])[..|calls|] == calls;
  }

  lemma StepConserves(calls: seq<ToolCall>, f: Fragment)
    ensures CallNames(Step(calls, f)) == CallNames(calls) + f.name
    ensures CallArguments(Step(calls, f)) == CallArguments(calls) + f.arguments
  {
    if StartsNew(Last(calls), f) {
      assert "" + f.name == f.name && "" + f.arguments == f.arguments;
      OneCallMore(calls, Extend(ToolCall("", "function", "", ""), f));
    } else {
      var init, c := calls[..|calls| - 1], calls[|calls| - 1];
      OneCallMore(init, Extend(c, f));
      Regroup(CallNames(init), c.name, f.name);
      Regroup(CallArguments(init), c.arguments, f.arguments);
    }
  }

  lemma Regroup(a: string, b: string, c: string)
    ensures (a + b) + c == a + (b + c)
  {
  }

  /** For every stream, well formed or not: names and arguments arrive complete and in order. */
  lemma {:induction false} FoldConserves(calls: seq<ToolCall>, fragments: seq<Fragment>)
    ensures CallNames(Fold(calls, fragments)) == CallNames(calls) + FragmentNames(fragments)
    ensures CallArguments(Fold(calls, fragments)) == CallArguments(calls) + Arguments(fragments)
    decreases |fragments|
  {
    if fragments == [] {
      assert CallNames(calls) + "" == CallNames(calls) && CallArguments(calls) + "" == CallArguments(calls);
    } else {
      var f, rest := fragments[0], fragments[1..];
      StepConserves(calls, f);
      FoldConserves(Step(calls, f), rest);
      Regroup(CallNames(calls), f.name, FragmentNames(rest));
      Regroup(CallArguments(calls), f.arguments, Arguments(rest));
    }
  }
}
