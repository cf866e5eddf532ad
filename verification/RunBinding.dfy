/**
 The run-binding block of a system prompt: a tagged block found, erased and rewritten once
 per segment, around an opaque UI contract whose inside is never interpreted. Content is a
 sequence of tokens: the two markers, the two contract delimiters, single characters.
 */
module RunBinding {
  import opened Common

  datatype Token = Start | End | ContractBegin | ContractEnd | Chr(c: char)

  type Content = seq<Token>

  datatype Span = Span(from: nat, to: nat)

  datatype Parsed = Blocks(blocks: seq<Span>) | Ambiguous

  predicate IsMarker(t: Token) {
    t == Start || t == End
  }

  predicate IsDelimiter(t: Token) {
    t == ContractBegin || t == ContractEnd
  }

  predicate IsSpace(t: Token) {
    t.Chr? && IsSpaceChar(t.c)
  }

  /** Ordinary text. */
  predicate Plain(c: Content) {
    forall i :: 0 <= i < |c| ==> c[i].Chr?
  }

  // ------------------------------------------------------------------ the contract span

  function Count(c: Content, t: Token): nat {
    if c == [] then 0 else Count(c[..|c| - 1], t) + (if c[|c| - 1] == t then 1 else 0)
  }

  /** The first position of a token, or the length when there is none. */
  function IndexOf(c: Content, t: Token): nat {
    if c == [] || c[0] == t then 0 else 1 + IndexOf(c[1..], t)
  }

  lemma {:induction false} IndexOfFirst(c: Content, t: Token)
    requires t in c
    ensures IndexOf(c, t) < |c| && c[IndexOf(c, t)] == t && t !in c[..IndexOf(c, t)]
  {
    if c[0] != t {
      assert c == [c[0]] + c[1..];
      IndexOfFirst(c[1..], t);
      var i := IndexOf(c[1..], t);
      assert c[..1 + i] == [c[0]] + c[1..][..i];
    }
  }

  /** Defined only when each delimiter occurs exactly once, in order. */
  function ContractSpan(c: Content): Option<Span> {
    if Count(c, ContractBegin) != 1 || Count(c, ContractEnd) != 1 then None
    else
      var b, e := IndexOf(c, ContractBegin), IndexOf(c, ContractEnd);
      if e < b + 1 then None else Some(Span(b, e + 1))
  }

  lemma {:induction false} CountZero(c: Content, t: Token)
    ensures Count(c, t) == 0 <==> t !in c
  {
    if c != [] {
      CountZero(c[..|c| - 1], t);
      assert c == c[..|c| - 1] + [c[|c| - 1]];
    }
  }

  lemma {:induction false} CountConcat(a: Content, b: Content, t: Token)
    ensures Count(a + b, t) == Count(a, t) + Count(b, t)
    decreases |b|
  {
    if b == [] {
      assert a + b == a;
    } else {
      assert (a + b)[..|a + b| - 1] == a + b[..|b| - 1];
      CountConcat(a, b[..|b| - 1], t);
    }
  }

  lemma CountTwice(c: Content, t: Token, i: nat, j: nat)
    requires i < j < |c| && c[i] == t && c[j] == t
    ensures Count(c, t) >= 2
  {
    var a, b := c[..j], c[j..];
    assert c == a + b && a[i] == t && b[0] == t;
    CountConcat(a, b, t);
    CountZero(a, t);
    CountZero(b, t);
  }

  lemma CountPositive(c: Content, t: Token, i: nat)
    requires i < |c| && c[i] == t
    ensures Count(c, t) >= 1 && (Count(c, t) == 1 ==> IndexOf(c, t) == i)
  {
    CountZero(c, t);
    IndexOfFirst(c, t);
    var first := IndexOf(c, t);
    forall j | 0 <= j < first ensures c[j] != t { assert c[..first][j] == c[j]; }
    if first < i {
      CountTwice(c, t, first, i);
    }
  }

  /** A contract: its two delimiters around a text without delimiters. */
  predicate IsContract(k: Content) {
    && |k| >= 2 && k[0] == ContractBegin && k[|k| - 1] == ContractEnd
    && forall i :: 0 < i < |k| - 1 ==> !IsDelimiter(k[i])
  }

  predicate NoDelimiter(c: Content) {
    forall i :: 0 <= i < |c| ==> !IsDelimiter(c[i])
  }

  predicate NoMarker(c: Content) {
    forall i :: 0 <= i < |c| ==> !IsMarker(c[i])
  }

  lemma NoneCounted(c: Content)
    requires NoDelimiter(c)
    ensures Count(c, ContractBegin) == 0 && Count(c, ContractEnd) == 0
  {
    CountZero(c, ContractBegin);
    CountZero(c, ContractEnd);
  }

  lemma ContractCounted(k: Content)
    requires IsContract(k)
    ensures Count(k, ContractBegin) == 1 && Count(k, ContractEnd) == 1
  {
    var first, mid, last := [k[0]], k[1..|k| - 1], [k[|k| - 1]];
    assert k == first + mid + last;
    NoneCounted(mid);
    CountConcat(first, mid, ContractBegin);
    CountConcat(first, mid, ContractEnd);
    CountConcat(first + mid, last, ContractBegin);
    CountConcat(first + mid, last, ContractEnd);
    assert first[..0] == [] && last[..0] == [];
  }

  /** The span is found exactly around a contract with no other delimiter. */
  lemma SpanOfContract(x: Content, k: Content, y: Content)
    requires NoDelimiter(x) && IsContract(k) && NoDelimiter(y)
    ensures ContractSpan(x + k + y) == Some(Span(|x|, |x| + |k|))
  {
    var c := x + k + y;
    NoneCounted(x);
    NoneCounted(y);
    ContractCounted(k);
    CountConcat(x, k, ContractBegin);
    CountConcat(x, k, ContractEnd);
    CountConcat(x + k, y, ContractBegin);
    CountConcat(x + k, y, ContractEnd);
    assert c[|x|] == k[0] && c[|x| + |k| - 1] == k[|k| - 1];
    CountPositive(c, ContractBegin, |x|);
    CountPositive(c, ContractEnd, |x| + |k| - 1);
  }

  lemma SpanMeans(c: Content)
    requires ContractSpan(c).Some?
    ensures var s := ContractSpan(c).value;
            && s.from < s.to <= |c|
            && NoDelimiter(c[..s.from]) && IsContract(c[s.from..s.to]) && NoDelimiter(c[s.to..])
            && c == c[..s.from] + c[s.from..s.to] + c[s.to..]
  {
    var s := ContractSpan(c).value;
    CountZero(c, ContractBegin);
    CountZero(c, ContractEnd);
    IndexOfFirst(c, ContractBegin);
    IndexOfFirst(c, ContractEnd);
    forall i | 0 <= i < |c| && IsDelimiter(c[i]) ensures i == s.from || i == s.to - 1 {
      CountPositive(c, c[i], i);
    }
  }

  // ------------------------------------------------------------------ markers and blocks

  predicate Inside(span: Option<Span>, i: int) {
    span.Some? && span.value.from <= i < span.value.to
  }

  /** A marker the parser looks at. */
  predicate Visible(c: Content, i: int) {
    0 <= i < |c| && IsMarker(c[i]) && !Inside(ContractSpan(c), i)
  }

  /** Positions of the visible markers before `n`. */
  function Markers(c: Content, n: nat): seq<nat>
    requires n <= |c|
  {
    if n == 0 then [] else Markers(c, n - 1) + (if Visible(c, n - 1) then [n - 1] else [])
  }

  lemma {:induction false} MarkersMean(c: Content, n: nat)
    requires n <= |c|
    ensures forall i :: i in Markers(c, n) <==> i < n && Visible(c, i)
    ensures forall j, k :: 0 <= j < k < |Markers(c, n)| ==> Markers(c, n)[j] < Markers(c, n)[k]
  {
    if n > 0 {
      MarkersMean(c, n - 1);
      forall j, k | 0 <= j < k < |Markers(c, n)| ensures Markers(c, n)[j] < Markers(c, n)[k] {
        if k == |Markers(c, n - 1)| { assert Markers(c, n - 1)[j] in Markers(c, n - 1); }
      }
    }
  }

  function All(c: Content): seq<nat> {
    Markers(c, |c|)
  }

  /** Start, end, start, end, ...: no nesting, no crossing, nothing left open. */
  predicate Alternates(c: Content, ms: seq<nat>) {
    forall k :: 0 <= k < |ms| ==> ms[k] < |c| && c[ms[k]] == (if k % 2 == 0 then Start else End)
  }

  predicate WellFormed(c: Content) {
    |All(c)| % 2 == 0 && Alternates(c, All(c))
  }

  function Paired(ms: seq<nat>): seq<Span> {
    if |ms| < 2 then [] else Paired(ms[..|ms| - 2]) + [Span(ms[|ms| - 2], ms[|ms| - 1] + 1)]
  }

  lemma {:induction false} MarkersPrefix(c: Content, n: nat)
    requires n <= |c|
    ensures Markers(c, n) <= All(c)
    decreases |c| - n
  {
    if n < |c| {
      MarkersPrefix(c, n + 1);
    }
  }

  lemma BadMarkerIsFatal(c: Content, n: nat, k: nat)
    requires n <= |c| && k < |Markers(c, n)| && Markers(c, n)[k] < |c|
    requires c[Markers(c, n)[k]] != (if k % 2 == 0 then Start else End)
    ensures !WellFormed(c)
  {
    MarkersPrefix(c, n);
    assert All(c)[k] == Markers(c, n)[k];
  }

  /** The parser before position `n`: the closed blocks, and the open one if `depth` is 1. */
  predicate ParsedTo(c: Content, n: nat, depth: nat, openStart: nat, blocks: seq<Span>)
    requires n <= |c|
  {
    var ms := Markers(c, n);
    && depth <= 1 && |ms| % 2 == depth
    && Alternates(c, ms)
    && blocks == Paired(ms[..|ms| - depth])
    && (depth == 1 ==> openStart == ms[|ms| - 1])
  }

  lemma AfterText(c: Content, n: nat, depth: nat, openStart: nat, blocks: seq<Span>)
    requires n < |c| && ParsedTo(c, n, depth, openStart, blocks) && !Visible(c, n)
    ensures ParsedTo(c, n + 1, depth, openStart, blocks)
  {
    assert Markers(c, n + 1) == Markers(c, n);
  }

  lemma AfterStart(c: Content, n: nat, openStart: nat, blocks: seq<Span>)
    requires n < |c| && ParsedTo(c, n, 0, openStart, blocks) && Visible(c, n) && c[n] == Start
    ensures ParsedTo(c, n + 1, 1, n, blocks)
  {
    var ms, ms' := Markers(c, n), Markers(c, n + 1);
    assert ms' == ms + [n];
    assert ms'[..|ms'| - 1] == ms[..|ms| - 0];
  }

  lemma AfterEnd(c: Content, n: nat, openStart: nat, blocks: seq<Span>)
    requires n < |c| && ParsedTo(c, n, 1, openStart, blocks) && Visible(c, n) && c[n] == End
    ensures ParsedTo(c, n + 1, 0, openStart, blocks + [Span(openStart, n + 1)])
  {
    var ms, ms' := Markers(c, n), Markers(c, n + 1);
    assert ms' == ms + [n];
    assert ms'[..|ms'| - 2] == ms[..|ms| - 1] && ms'[..|ms'| - 0] == ms';
  }

  lemma AfterWrongMarker(c: Content, n: nat, depth: nat, openStart: nat, blocks: seq<Span>)
    requires n < |c| && ParsedTo(c, n, depth, openStart, blocks) && Visible(c, n)
    requires c[n] == if depth == 0 then End else Start
    ensures !WellFormed(c)
  {
    var ms, ms' := Markers(c, n), Markers(c, n + 1);
    assert ms' == ms + [n];
    assert ms'[|ms|] == n;
    BadMarkerIsFatal(c, n + 1, |ms|);
  }

  method Parse(c: Content) returns (r: Parsed)
    ensures r == if WellFormed(c) then Blocks(Paired(All(c))) else Ambiguous
  {
    var contract := ContractSpan(c);
    var depth: nat, openStart: nat, blocks: seq<Span> := 0, 0, [];
    for n := 0 to |c|
      invariant ParsedTo(c, n, depth, openStart, blocks)
    {
      if !IsMarker(c[n]) || Inside(contract, n) {
        AfterText(c, n, depth, openStart, blocks);
      } else if c[n] == Start {
        if depth > 0 {
          AfterWrongMarker(c, n, depth, openStart, blocks);
          return Ambiguous;
        }
        AfterStart(c, n, openStart, blocks);
        openStart, depth := n, 1;
      } else {
        if depth == 0 {
          AfterWrongMarker(c, n, depth, openStart, blocks);
          return Ambiguous;
        }
        AfterEnd(c, n, openStart, blocks);
        blocks := blocks + [Span(openStart, n + 1)];
        depth := 0;
      }
    }
    assert All(c)[..|All(c)| - 0] == All(c);
    r := if depth != 0 then Ambiguous else Blocks(blocks);
  }

  // ------------------------------------------------------------------ erasing the blocks

  /** Non-empty spans one after another. */
  predicate Ordered(blocks: seq<Span>, size: nat) {
    && (forall k :: 0 <= k < |blocks| ==> blocks[k].from < blocks[k].to <= size)
    && (forall j, k :: 0 <= j < k < |blocks| ==> blocks[j].to <= blocks[k].from)
  }

  predicate Covered(blocks: seq<Span>, i: nat) {
    exists k :: 0 <= k < |blocks| && blocks[k].from <= i < blocks[k].to
  }

  /** What remains of `c[lo..hi]` without the positions the blocks cover. */
  function Keep(c: Content, blocks: seq<Span>, lo: nat, hi: nat): (r: Content)
    requires lo <= hi <= |c|
    ensures |r| <= hi - lo
  {
    if lo == hi then [] else Keep(c, blocks, lo, hi - 1) + (if Covered(blocks, hi - 1) then [] else [c[hi - 1]])
  }

  lemma {:induction false} KeepConcat(c: Content, blocks: seq<Span>, lo: nat, mid: nat, hi: nat)
    requires lo <= mid <= hi <= |c|
    ensures Keep(c, blocks, lo, hi) == Keep(c, blocks, lo, mid) + Keep(c, blocks, mid, hi)
    decreases hi
  {
    if mid < hi { KeepConcat(c, blocks, lo, mid, hi - 1); }
  }

  lemma {:induction false} KeepAll(c: Content, blocks: seq<Span>, lo: nat, hi: nat)
    requires lo <= hi <= |c| && forall i :: lo <= i < hi ==> !Covered(blocks, i)
    ensures Keep(c, blocks, lo, hi) == c[lo..hi]
  {
    if lo < hi { KeepAll(c, blocks, lo, hi - 1); }
  }

  lemma {:induction false} KeepNone(c: Content, blocks: seq<Span>, lo: nat, hi: nat)
    requires lo <= hi <= |c| && forall i :: lo <= i < hi ==> Covered(blocks, i)
    ensures Keep(c, blocks, lo, hi) == []
  {
    if lo < hi { KeepNone(c, blocks, lo, hi - 1); }
  }

  lemma {:induction false} KeepOrigin(c: Content, blocks: seq<Span>, lo: nat, hi: nat, t: Token)
    requires lo <= hi <= |c| && t in Keep(c, blocks, lo, hi)
    ensures exists i :: lo <= i < hi && !Covered(blocks, i) && c[i] == t
  {
    if t in Keep(c, blocks, lo, hi - 1) {
      KeepOrigin(c, blocks, lo, hi - 1, t);
    }
  }

  /** The k-th block runs from marker 2k to marker 2k + 1. */
  lemma {:induction false} PairedAt(ms: seq<nat>, k: nat)
    requires |ms| % 2 == 0 && 2 * k + 1 < |ms|
    ensures |Paired(ms)| == |ms| / 2 && Paired(ms)[k] == Span(ms[2 * k], ms[2 * k + 1] + 1)
    decreases |ms|
  {
    var init := ms[..|ms| - 2];
    PairedLength(init);
    if 2 * k + 1 < |init| {
      PairedAt(init, k);
    }
  }

  lemma {:induction false} PairedLength(ms: seq<nat>)
    ensures |Paired(ms)| == |ms| / 2
    decreases |ms|
  {
    if |ms| >= 2 { PairedLength(ms[..|ms| - 2]); }
  }

  lemma BlockAt(c: Content, k: nat)
    requires WellFormed(c) && k < |Paired(All(c))|
    ensures var b := Paired(All(c))[k];
            2 * k + 1 < |All(c)| && b == Span(All(c)[2 * k], All(c)[2 * k + 1] + 1)
            && b.from < b.to <= |c| && Visible(c, b.from) && Visible(c, b.to - 1)
  {
    PairedLength(All(c));
    PairedAt(All(c), k);
    MarkersMean(c, |c|);
    assert All(c)[2 * k] in All(c) && All(c)[2 * k + 1] in All(c);
  }

  lemma BlocksOrdered(c: Content)
    requires WellFormed(c)
    ensures Ordered(Paired(All(c)), |c|)
  {
    var blocks := Paired(All(c));
    forall k | 0 <= k < |blocks| ensures blocks[k].from < blocks[k].to <= |c| {
      BlockAt(c, k);
    }
    forall j, k | 0 <= j < k < |blocks| ensures blocks[j].to <= blocks[k].from {
      BlockAt(c, j);
      BlockAt(c, k);
      MarkersMean(c, |c|);
      assert All(c)[2 * j + 1] < All(c)[2 * k];
    }
  }

  lemma MarkersCovered(c: Content, i: nat)
    requires WellFormed(c) && Visible(c, i)
    ensures Covered(Paired(All(c)), i)
  {
    MarkersMean(c, |c|);
    assert i in All(c);
    var j :| 0 <= j < |All(c)| && All(c)[j] == i;
    PairedAt(All(c), j / 2);
    var b := Paired(All(c))[j / 2];
    assert All(c)[j / 2 * 2] < All(c)[j / 2 * 2 + 1];
    assert b.from <= i < b.to;
  }

  /** Where the part after the first `n` blocks begins. */
  function StartOf(blocks: seq<Span>, n: nat): nat
    requires n <= |blocks|
  {
    if n == 0 then 0 else blocks[n - 1].to
  }

  lemma GapUncovered(blocks: seq<Span>, size: nat, n: nat, i: nat)
    requires Ordered(blocks, size) && n <= |blocks|
    requires StartOf(blocks, n) <= i && (n < |blocks| ==> i < blocks[n].from)
    ensures !Covered(blocks, i)
  {
    forall k | 0 <= k < |blocks| ensures !(blocks[k].from <= i < blocks[k].to) {
      if k < n - 1 { assert blocks[k].to <= blocks[n - 1].from; }
      if k > n { assert blocks[n].to <= blocks[k].from; }
    }
  }

  /** The first `n` blocks still in place, the others erased. */
  function PartlyErased(c: Content, blocks: seq<Span>, n: nat): Content
    requires n <= |blocks| && StartOf(blocks, n) <= |c|
  {
    c[..StartOf(blocks, n)] + Keep(c, blocks, StartOf(blocks, n), |c|)
  }

  lemma EraseOne(c: Content, blocks: seq<Span>, n: nat)
    requires Ordered(blocks, |c|) && n < |blocks|
    ensures StartOf(blocks, n) <= blocks[n].from < blocks[n].to <= |c|
    ensures var b, later := blocks[n], PartlyErased(c, blocks, n + 1);
            b.to <= |later| && PartlyErased(c, blocks, n) == later[..b.from] + later[b.to..]
  {
    var b, from, rest := blocks[n], StartOf(blocks, n), Keep(c, blocks, blocks[n].to, |c|);
    forall i | from <= i < b.from ensures !Covered(blocks, i) {
      GapUncovered(blocks, |c|, n, i);
    }
    KeepAll(c, blocks, from, b.from);
    KeepNone(c, blocks, b.from, b.to);
    KeepConcat(c, blocks, from, b.from, |c|);
    KeepConcat(c, blocks, b.from, b.to, |c|);
    var later := c[..b.to] + rest;
    assert later[..b.from] == c[..b.from] && later[b.to..] == rest;
    assert c[..from] + (c[from..b.from] + rest) == c[..b.from] + rest;
  }

  lemma ErasedEnds(c: Content, blocks: seq<Span>)
    requires Ordered(blocks, |c|)
    ensures var x := StartOf(blocks, |blocks|); x <= |c| && PartlyErased(c, blocks, |blocks|) == c
    ensures PartlyErased(c, blocks, 0) == Keep(c, blocks, 0, |c|)
  {
    var x := StartOf(blocks, |blocks|);
    forall i | x <= i < |c| ensures !Covered(blocks, i) {
      GapUncovered(blocks, |c|, |blocks|, i);
    }
    KeepAll(c, blocks, x, |c|);
    assert c[..x] + c[x..|c|] == c;
    assert c[..0] + Keep(c, blocks, 0, |c|) == Keep(c, blocks, 0, |c|);
  }

  /** The loop erases from the last block back, so earlier positions stay valid. */
  method Erase(c: Content, blocks: seq<Span>) returns (rebuilt: Content)
    requires Ordered(blocks, |c|)
    ensures rebuilt == Keep(c, blocks, 0, |c|)
  {
    rebuilt := c;
    var n: nat := |blocks|;
    ErasedEnds(c, blocks);
    while n > 0
      invariant n <= |blocks| && StartOf(blocks, n) <= |c| && rebuilt == PartlyErased(c, blocks, n)
    {
      EraseOne(c, blocks, n - 1);
      n := n - 1;
      rebuilt := rebuilt[..blocks[n].from] + rebuilt[blocks[n].to..];
    }
  }

  // ------------------------------------------------------------------ writing the block

  function RStrip(c: Content): Content {
    if c != [] && IsSpace(c[|c| - 1]) then RStrip(c[..|c| - 1]) else c
  }

  function LStrip(c: Content): Content {
    if c != [] && IsSpace(c[0]) then LStrip(c[1..]) else c
  }

  /** The opening delimiter ends with a line break, the closing one starts with one. */
  predicate EndsLine(c: Content) {
    c != [] && (c[|c| - 1] == Chr('\n') || c[|c| - 1] == ContractBegin)
  }

  predicate StartsLine(c: Content) {
    c != [] && (c[0] == Chr('\n') || c[0] == ContractEnd)
  }

  const BLANK_LINE: Content := [Chr('\n'), Chr('\n')]

  function Before(prefix: Content): Content {
    if prefix != [] && !EndsLine(prefix) then RStrip(prefix) + BLANK_LINE else prefix
  }

  function After(suffix: Content): Content {
    if suffix != [] && !StartsLine(suffix) then BLANK_LINE + LStrip(suffix) else suffix
  }

  /** The content without its blocks. */
  function Erased(c: Content): Content {
    Keep(c, Paired(All(c)), 0, |c|)
  }

  /** Where the new block goes: the first marker's place, or the end when there is none. */
  function Seam(c: Content): nat {
    if All(c) == [] then |c| else All(c)[0]
  }

  function Opening(c: Content): Content
    requires Seam(c) <= |Erased(c)|
  {
    if All(c) == [] then (if RStrip(c) == [] then [] else RStrip(c) + BLANK_LINE) else Before(Erased(c)[..Seam(c)])
  }

  function Closing(c: Content): Content
    requires Seam(c) <= |Erased(c)|
  {
    if All(c) == [] then [] else After(Erased(c)[Seam(c)..])
  }

  /** Up to the seam nothing is erased. */
  lemma SeamHolds(c: Content)
    requires WellFormed(c)
    ensures Seam(c) <= |Erased(c)| && Seam(c) <= |c| && Erased(c)[..Seam(c)] == c[..Seam(c)]
    ensures All(c) == [] ==> Erased(c) == c
    ensures All(c) != [] ==> Paired(All(c)) != [] && Paired(All(c))[0].from == Seam(c)
    ensures Erased(c) == c[..Seam(c)] + Keep(c, Paired(All(c)), Seam(c), |c|)
  {
    var blocks := Paired(All(c));
    PairedLength(All(c));
    if All(c) != [] { BlockAt(c, 0); }
    BlocksOrdered(c);
    forall i | 0 <= i < Seam(c) ensures !Covered(blocks, i) {
      GapUncovered(blocks, |c|, 0, i);
    }
    KeepAll(c, blocks, 0, Seam(c));
    KeepConcat(c, blocks, 0, Seam(c), |c|);
    assert c[0..Seam(c)] == c[..Seam(c)];
  }

  function Rewritten(c: Content, block: Content): Content
    requires WellFormed(c)
  {
    SeamHolds(c);
    Opening(c) + block + Closing(c)
  }

  method ApplyRunBinding(c: Content, block: Content) returns (r: Option<Content>)
    ensures r == if WellFormed(c) then Some(Rewritten(c, block)) else None
  {
    var parsed := Parse(c);
    if parsed.Ambiguous? {
      return None;
    }
    SeamHolds(c);
    PairedLength(All(c));
    var blocks := parsed.blocks;
    if blocks == [] {
      var trimmed := RStrip(c);
      if trimmed != [] {
        r := Some(trimmed + BLANK_LINE + block);
      } else {
        r := Some(block);
      }
      assert r.value == Rewritten(c, block);
      return;
    }
    var firstStart := blocks[0].from;
    BlocksOrdered(c);
    var rebuilt := Erase(c, blocks);
    var prefix, suffix := rebuilt[..firstStart], rebuilt[firstStart..];
    if prefix != [] && !EndsLine(prefix) {
      prefix := RStrip(prefix) + BLANK_LINE;
    }
    if suffix != [] && !StartsLine(suffix) {
      suffix := BLANK_LINE + LStrip(suffix);
    }
    r := Some(prefix + block + suffix);
  }
}
