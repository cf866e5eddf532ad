/**
 What rewriting the run-binding block guarantees: one block, outside the contract; the
 contract untouched; the last rewrite wins. It fails exactly when erasing the old blocks
 makes a contract appear around the seam.
 */
module RunBindingLaws {
  import opened Common
  import opened RunBinding

  /** A rendered binding prompt: its two markers around marker-free text. */
  predicate IsBlock(b: Content) {
    |b| >= 2 && b[0] == Start && b[|b| - 1] == End && Plain(b[1..|b| - 1])
  }

  /** No marker the parser would look at. */
  predicate Quiet(c: Content) {
    forall i :: 0 <= i < |c| ==> !Visible(c, i)
  }

  /** The one way rewriting goes wrong: the seam falls inside the contract of the erased content. */
  predicate SeamInContract(c: Content) {
    var span := ContractSpan(Erased(c));
    span.Some? && span.value.from < Seam(c) < span.value.to
  }

  // ------------------------------------------------------------------ only white space changes

  lemma {:induction false} RStripSplit(c: Content)
    ensures |RStrip(c)| <= |c| && RStrip(RStrip(c)) == RStrip(c)
    ensures forall i :: 0 <= i < |RStrip(c)| ==> RStrip(c)[i] == c[i]
    ensures forall i :: |RStrip(c)| <= i < |c| ==> c[i].Chr?
  {
    if c != [] && IsSpace(c[|c| - 1]) {
      RStripSplit(c[..|c| - 1]);
    }
  }

  lemma {:induction false} LStripSplit(c: Content)
    ensures |LStrip(c)| <= |c| && LStrip(LStrip(c)) == LStrip(c) && LStrip(c) == c[|c| - |LStrip(c)|..]
    ensures forall i :: 0 <= i < |c| - |LStrip(c)| ==> c[i].Chr?
  {
    if c != [] && IsSpace(c[0]) {
      LStripSplit(c[1..]);
      forall i | 0 <= i < |c| - |LStrip(c)| ensures c[i].Chr? {
        if i > 0 { assert c[1..][i - 1] == c[i]; }
      }
    }
  }

  lemma {:induction false} RStripSpaces(c: Content, w: Content)
    requires forall i :: 0 <= i < |w| ==> IsSpace(w[i])
    ensures RStrip(c + w) == RStrip(c)
    decreases |w|
  {
    if w == [] {
      assert c + w == c;
    } else {
      assert (c + w)[..|c + w| - 1] == c + w[..|w| - 1];
      RStripSpaces(c, w[..|w| - 1]);
    }
  }

  lemma BeforeSpaces(p: Content)
    ensures RStrip(Before(p)) == RStrip(p) == RStrip(RStrip(p) + BLANK_LINE)
  {
    RStripSplit(p);
    RStripSpaces(RStrip(p), BLANK_LINE);
  }

  lemma AfterSpaces(s: Content)
    ensures LStrip(After(s)) == LStrip(s)
  {
    LStripSplit(s);
    var t := LStrip(s);
    assert (BLANK_LINE + t)[1..] == [Chr('\n')] + t;
    assert ([Chr('\n')] + t)[1..] == t;
  }

  /** Around the new block the old text survives up to trailing and leading white space. */
  lemma OnlySpaceAtTheSeam(c: Content)
    requires WellFormed(c)
    ensures Seam(c) <= |Erased(c)|
    ensures RStrip(Opening(c)) == RStrip(Erased(c)[..Seam(c)])
    ensures LStrip(Closing(c)) == LStrip(Erased(c)[Seam(c)..])
  {
    SeamHolds(c);
    BeforeSpaces(Erased(c)[..Seam(c)]);
    AfterSpaces(Erased(c)[Seam(c)..]);
    if All(c) == [] {
      assert Erased(c)[..Seam(c)] == c && Erased(c)[Seam(c)..] == [];
    }
  }

  predicate BreaksTwice(c: Content, i: int) {
    0 <= i < |c| - 1 && c[i] == Chr('\n') && c[i + 1] == Chr('\n')
  }

  /**
   The block starts and ends on a line of its own: text before it ends with a line break and
   text after it starts with one, and what the rewrite adds there is one blank line.
   */
  lemma BlockOnItsOwnLine(c: Content)
    requires WellFormed(c)
    ensures Seam(c) <= |Erased(c)|
    ensures Opening(c) != [] ==> Opening(c)[|Opening(c)| - 1] in {Chr('\n'), ContractBegin}
    ensures Opening(c) == Erased(c)[..Seam(c)] || Opening(c) == [] || BreaksTwice(Opening(c), |Opening(c)| - 2)
    ensures Closing(c) != [] ==> Closing(c)[0] in {Chr('\n'), ContractEnd}
    ensures Closing(c) == Erased(c)[Seam(c)..] || BreaksTwice(Closing(c), 0)
  {
    SeamHolds(c);
  }

  /** The first `n` tokens agree; what follows is ordinary text on both sides. */
  predicate SameStart(p: Content, q: Content, n: nat) {
    && n <= |p| && n <= |q|
    && (forall i :: 0 <= i < n ==> p[i] == q[i])
    && (forall i :: n <= i < |p| ==> p[i].Chr?)
    && (forall i :: n <= i < |q| ==> q[i].Chr?)
  }

  /** The last `n` tokens agree; what precedes them is ordinary text on both sides. */
  predicate SameEnd(p: Content, q: Content, n: nat) {
    && n <= |p| && n <= |q|
    && (forall i :: |q| - n <= i < |q| ==> q[i] == p[i + |p| - |q|])
    && (forall i :: 0 <= i < |p| - n ==> p[i].Chr?)
    && (forall i :: 0 <= i < |q| - n ==> q[i].Chr?)
  }

  lemma SameEndSym(p: Content, q: Content, n: nat)
    requires SameEnd(p, q, n)
    ensures SameEnd(q, p, n)
  {
    forall i | |p| - n <= i < |p| ensures p[i] == q[i + |q| - |p|] {
      var j := i + |q| - |p|;
      assert q[j] == p[j + |p| - |q|];
    }
  }

  lemma StrippedStart(p: Content)
    ensures SameStart(p, RStrip(p) + BLANK_LINE, |RStrip(p)|) && SameStart(p, p, |p|)
    ensures SameStart(p, RStrip(p), |RStrip(p)|)
  {
    RStripSplit(p);
  }

  lemma StrippedEnd(s: Content)
    ensures SameEnd(s, BLANK_LINE + LStrip(s), |LStrip(s)|) && SameEnd(s, s, |s|)
  {
    LStripSplit(s);
  }

  lemma OpeningKeeps(c: Content) returns (n: nat)
    requires WellFormed(c)
    ensures Seam(c) <= |Erased(c)| && SameStart(Erased(c)[..Seam(c)], Opening(c), n)
  {
    SeamHolds(c);
    var p := Erased(c)[..Seam(c)];
    StrippedStart(p);
    assert All(c) == [] ==> p == c;
    n := if Opening(c) == p then |p| else |RStrip(p)|;
  }

  lemma ClosingKeeps(c: Content) returns (n: nat)
    requires WellFormed(c)
    ensures Seam(c) <= |Erased(c)| && SameEnd(Erased(c)[Seam(c)..], Closing(c), n)
  {
    SeamHolds(c);
    var s := Erased(c)[Seam(c)..];
    StrippedEnd(s);
    assert All(c) == [] ==> s == [];
    n := if Closing(c) == s then |s| else |LStrip(s)|;
  }

  // ------------------------------------------------------------------ one block in quiet text

  /** The two markers of a block are all the parser sees. */
  predicate OnlyBlock(r: Content, p: nat, block: Content) {
    && p + |block| <= |r| && r[p..p + |block|] == block
    && forall i :: 0 <= i < |r| ==> (Visible(r, i) <==> i == p || i == p + |block| - 1)
  }

  lemma {:induction false} TwoMarkers(r: Content, p: nat, q: nat, n: nat)
    requires p < q && n <= |r| && forall i :: 0 <= i < n ==> (Visible(r, i) <==> i == p || i == q)
    ensures Markers(r, n) == (if p < n then [p] else []) + (if q < n then [q] else [])
  {
    if n > 0 { TwoMarkers(r, p, q, n - 1); }
  }

  lemma OnlyBlockParses(r: Content, p: nat, block: Content)
    requires IsBlock(block) && OnlyBlock(r, p, block)
    ensures All(r) == [p, p + |block| - 1] && WellFormed(r) && Paired(All(r)) == [Span(p, p + |block|)] && Seam(r) == p
  {
    var q := p + |block| - 1;
    TwoMarkers(r, p, q, |r|);
    assert r[p] == block[0] && r[q] == block[|block| - 1];
    var ms := [p, q];
    assert All(r) == ms && ms[..|ms| - 2] == [];
    assert Paired(ms) == Paired(ms[..|ms| - 2]) + [Span(p, q + 1)];
  }

  lemma CoveredByOne(p: nat, q: nat, i: nat)
    requires p < q
    ensures Covered([Span(p, q)], i) <==> p <= i < q
  {
    var blocks := [Span(p, q)];
    if p <= i < q { assert blocks[0].from <= i < blocks[0].to; }
  }

  lemma {:induction false} KeepAroundOne(r: Content, p: nat, q: nat, hi: nat)
    requires p < q <= |r| && hi <= |r|
    ensures Keep(r, [Span(p, q)], 0, hi) == if hi <= p then r[..hi] else if hi <= q then r[..p] else r[..p] + r[q..hi]
  {
    if hi > 0 {
      CoveredByOne(p, q, hi - 1);
      KeepAroundOne(r, p, q, hi - 1);
    }
  }

  lemma OnlyBlockErased(r: Content, p: nat, block: Content)
    requires IsBlock(block) && OnlyBlock(r, p, block)
    ensures Erased(r) == r[..p] + r[p + |block|..]
  {
    OnlyBlockParses(r, p, block);
    KeepAroundOne(r, p, p + |block|, |r|);
    assert r[p + |block|..|r|] == r[p + |block|..];
  }

  lemma BlockToken(block: Content, i: nat)
    requires IsBlock(block) && i < |block|
    ensures IsMarker(block[i]) <==> i == 0 || i == |block| - 1
    ensures !IsDelimiter(block[i])
  {
    if 0 < i < |block| - 1 {
      assert block[1..|block| - 1][i - 1].Chr?;
    }
  }

  /** Block before the contract. */
  lemma BlockLeftOfContract(x: Content, block: Content, y: Content, k: Content, z: Content)
    requires Plain(x) && IsBlock(block) && Plain(y) && IsContract(k) && Plain(z)
    ensures var r := x + block + y + k + z;
            && OnlyBlock(r, |x|, block)
            && ContractSpan(r) == Some(Span(|x + block + y|, |x + block + y| + |k|))
  {
    var left := x + block + y;
    var r := left + k + z;
    forall i | 0 <= i < |left| ensures !IsDelimiter(left[i]) {
      if |x| <= i < |x| + |block| { BlockToken(block, i - |x|); }
    }
    SpanOfContract(left, k, z);
    assert r[|x|..|x| + |block|] == block;
    forall i | 0 <= i < |r| ensures Visible(r, i) <==> i == |x| || i == |x| + |block| - 1 {
      if |x| <= i < |x| + |block| {
        BlockToken(block, i - |x|);
        assert r[i] == block[i - |x|];
      }
    }
  }

  /** Block after the contract. */
  lemma BlockRightOfContract(x: Content, k: Content, y: Content, block: Content, z: Content)
    requires Plain(x) && IsBlock(block) && Plain(y) && IsContract(k) && Plain(z)
    ensures var r := x + k + (y + block + z);
            && OnlyBlock(r, |x| + |k| + |y|, block)
            && ContractSpan(r) == Some(Span(|x|, |x| + |k|))
  {
    var right := y + block + z;
    var r, p := x + k + right, |x| + |k| + |y|;
    forall i | 0 <= i < |right| ensures !IsDelimiter(right[i]) {
      if |y| <= i < |y| + |block| { BlockToken(block, i - |y|); }
    }
    SpanOfContract(x, k, right);
    assert r[p..p + |block|] == block;
    forall i | 0 <= i < |r| ensures Visible(r, i) <==> i == p || i == p + |block| - 1 {
      if p <= i < p + |block| {
        BlockToken(block, i - p);
        assert r[i] == block[i - p];
      }
    }
  }

  /** Block inside the contract: the parser no longer sees it. */
  lemma BlockInsideContract(x: Content, a: Content, block: Content, b: Content, z: Content)
    requires Plain(x) && Plain(z) && IsBlock(block) && a != [] && b != [] && IsContract(a + b)
    ensures Quiet(x + (a + block + b) + z)
  {
    var k := a + block + b;
    assert k[0] == (a + b)[0] && k[|k| - 1] == (a + b)[|a + b| - 1];
    forall i | 0 < i < |k| - 1 ensures !IsDelimiter(k[i]) {
      if i < |a| { assert k[i] == (a + b)[i]; }
      else if i < |a| + |block| { BlockToken(block, i - |a|); }
      else { assert k[i] == (a + b)[i - |block|]; }
    }
    SpanOfContract(x, k, z);
  }

  // ------------------------------------------------------------------ the erased text is quiet

  /** Some block runs over the whole contract. */
  predicate Straddled(c: Content) {
    ContractSpan(c).Some? && Covered(Paired(All(c)), ContractSpan(c).value.from)
  }

  /** A block covers all of the contract or none of it. */
  lemma AllOrNothing(c: Content, i: nat)
    requires WellFormed(c) && ContractSpan(c).Some? && ContractSpan(c).value.from <= i < ContractSpan(c).value.to
    ensures Covered(Paired(All(c)), i) <==> Straddled(c)
  {
    var blocks, span := Paired(All(c)), ContractSpan(c).value;
    forall k | 0 <= k < |blocks|
      ensures blocks[k].from <= i < blocks[k].to <==> blocks[k].from <= span.from < blocks[k].to
    {
      BlockAt(c, k);
    }
  }

  /** With the contract gone, or none there, no marker is left at all. */
  lemma NothingLeft(c: Content)
    requires WellFormed(c) && (ContractSpan(c).None? || Straddled(c))
    ensures NoMarker(Erased(c)) && (Straddled(c) ==> ContractSpan(Erased(c)).None?)
  {
    var blocks, e := Paired(All(c)), Erased(c);
    forall j | 0 <= j < |e| ensures !IsMarker(e[j]) && (Straddled(c) ==> !IsDelimiter(e[j])) {
      KeepOrigin(c, blocks, 0, |c|, e[j]);
      var i :| 0 <= i < |c| && !Covered(blocks, i) && c[i] == e[j];
      if Visible(c, i) { MarkersCovered(c, i); }
      if Straddled(c) { DelimiterCovered(c, i); }
    }
    if Straddled(c) { NoneCounted(e); }
  }

  lemma DelimiterCovered(c: Content, i: nat)
    requires WellFormed(c) && Straddled(c) && i < |c|
    ensures IsDelimiter(c[i]) || Inside(ContractSpan(c), i) ==> Covered(Paired(All(c)), i)
  {
    var span := ContractSpan(c).value;
    SpanMeans(c);
    if Inside(ContractSpan(c), i) {
      AllOrNothing(c, i);
    } else if i < span.from {
      assert c[..span.from][i] == c[i];
    } else {
      assert c[span.to..][i - span.to] == c[i];
    }
  }

  lemma ContractKept(c: Content)
    requires WellFormed(c) && ContractSpan(c).Some? && !Straddled(c)
    ensures var s := ContractSpan(c).value;
            && s.from < s.to <= |c|
            && Erased(c) == Keep(c, Paired(All(c)), 0, s.from) + c[s.from..s.to] + Keep(c, Paired(All(c)), s.to, |c|)
  {
    var blocks, s := Paired(All(c)), ContractSpan(c).value;
    SpanMeans(c);
    forall i | s.from <= i < s.to ensures !Covered(blocks, i) {
      AllOrNothing(c, i);
    }
    KeepAll(c, blocks, s.from, s.to);
    KeepConcat(c, blocks, 0, s.from, |c|);
    KeepConcat(c, blocks, s.from, s.to, |c|);
    Regrouped(Keep(c, blocks, 0, s.from), c[s.from..s.to], Keep(c, blocks, s.to, |c|));
  }

  lemma Regrouped(a: Content, b: Content, c: Content)
    ensures a + (b + c) == a + b + c
  {
  }

  /** A contract no block runs over survives erasing verbatim, between plain text. */
  lemma ContractSurvives(c: Content) returns (x: Content, k: Content, y: Content)
    requires WellFormed(c) && ContractSpan(c).Some? && !Straddled(c)
    ensures var s := ContractSpan(c).value;
            && s.from <= s.to <= |c| && k == c[s.from..s.to]
    ensures Plain(x) && IsContract(k) && Plain(y) && Erased(c) == x + k + y
    ensures ContractSpan(Erased(c)) == Some(Span(|x|, |x| + |k|))
    ensures Seam(c) <= |x| || Seam(c) >= |x| + |k|
  {
    var blocks, s := Paired(All(c)), ContractSpan(c).value;
    ContractKept(c);
    x, k, y := Keep(c, blocks, 0, s.from), c[s.from..s.to], Keep(c, blocks, s.to, |c|);
    assert IsContract(k) by { SpanMeans(c); }
    PlainOutside(c, 0, s.from);
    PlainOutside(c, s.to, |c|);
    assert ContractSpan(x + k + y) == Some(Span(|x|, |x| + |k|)) by { SpanOfContract(x, k, y); }
    SeamOutside(c);
  }

  lemma PlainOutside(c: Content, lo: nat, hi: nat)
    requires WellFormed(c) && ContractSpan(c).Some? && lo <= hi <= |c|
    requires hi <= ContractSpan(c).value.from || ContractSpan(c).value.to <= lo
    ensures Plain(Keep(c, Paired(All(c)), lo, hi))
  {
    var blocks, kept := Paired(All(c)), Keep(c, Paired(All(c)), lo, hi);
    SpanMeans(c);
    forall j | 0 <= j < |kept| ensures kept[j].Chr? {
      KeepOrigin(c, blocks, lo, hi, kept[j]);
      var i :| lo <= i < hi && !Covered(blocks, i) && c[i] == kept[j];
      if Visible(c, i) { MarkersCovered(c, i); }
      if i < ContractSpan(c).value.from {
        assert c[..ContractSpan(c).value.from][i] == c[i];
      } else {
        assert c[ContractSpan(c).value.to..][i - ContractSpan(c).value.to] == c[i];
      }
    }
  }

  lemma SeamOutside(c: Content)
    requires WellFormed(c) && ContractSpan(c).Some? && !Straddled(c)
    ensures ContractSpan(c).value.from <= ContractSpan(c).value.to <= |c|
    ensures var s := ContractSpan(c).value; var before := |Keep(c, Paired(All(c)), 0, s.from)|;
            Seam(c) <= before || Seam(c) >= before + (s.to - s.from)
  {
    var s, blocks := ContractSpan(c).value, Paired(All(c));
    SpanMeans(c);
    SeamHolds(c);
    if Seam(c) <= s.from {
      KeepConcat(c, blocks, 0, Seam(c), s.from);
      UncoveredBefore(c);
      KeepAll(c, blocks, 0, Seam(c));
    } else if All(c) != [] {
      BlockAt(c, 0);
      assert Seam(c) >= s.to;
    }
  }

  lemma UncoveredBefore(c: Content)
    requires WellFormed(c)
    ensures forall i :: 0 <= i < Seam(c) ==> !Covered(Paired(All(c)), i)
  {
    SeamHolds(c);
    BlocksOrdered(c);
    forall i | 0 <= i < Seam(c) ensures !Covered(Paired(All(c)), i) {
      GapUncovered(Paired(All(c)), |c|, 0, i);
    }
  }

  /** A contract in the original is never the one the seam falls into. */
  lemma SeamAvoidsOldContract(c: Content)
    requires WellFormed(c) && ContractSpan(c).Some?
    ensures !SeamInContract(c)
  {
    if Straddled(c) {
      NothingLeft(c);
    } else {
      var x, k, y := ContractSurvives(c);
    }
  }

  /** Whatever happened to the contract, erasing leaves no visible marker, and plain text around the contract. */
  lemma ErasedIsQuiet(c: Content)
    requires WellFormed(c)
    ensures Quiet(Erased(c))
    ensures ContractSpan(Erased(c)).None? ==> NoMarker(Erased(c))
  {
    if ContractSpan(c).None? || Straddled(c) {
      NothingLeft(c);
    } else {
      var x, k, y := ContractSurvives(c);
    }
  }

  // ------------------------------------------------------------------ the rewritten text

  /** Erased text with a contract: plain text on both sides of it. */
  lemma QuietAroundContract(e: Content) returns (x: Content, k: Content, y: Content)
    requires Quiet(e) && ContractSpan(e).Some?
    ensures var s := ContractSpan(e).value;
            && s.from < s.to <= |e| && x == e[..s.from] && k == e[s.from..s.to] && y == e[s.to..]
    ensures Plain(x) && IsContract(k) && Plain(y) && e == x + k + y
  {
    SpanMeans(e);
    var s := ContractSpan(e).value;
    x, k, y := e[..s.from], e[s.from..s.to], e[s.to..];
    forall i | 0 <= i < |x| ensures x[i].Chr? { assert !Visible(e, i) && !IsDelimiter(x[i]); }
    forall i | 0 <= i < |y| ensures y[i].Chr? { assert !Visible(e, s.to + i) && !IsDelimiter(y[i]); }
  }

  lemma ClosingHoldsContract(e: Content, n: nat, q: Content, kept: nat, x: Content, k: Content, y: Content) returns (mid: Content)
    requires e == x + k + y && Plain(x) && IsContract(k) && n <= |x| && SameEnd(e[n..], q, kept)
    ensures Plain(mid) && q == mid + (k + y)
  {
    assert e[n..][|x| - n] == k[0];
    assert kept >= |k| + |y|;
    mid := q[..|q| - |k| - |y|];
    forall i | 0 <= i < |mid| ensures mid[i].Chr? {
      EndIndex(e, n, q, kept, i);
    }
    forall i | |mid| <= i < |q| ensures q[i] == (k + y)[i - |mid|] {
      EndIndex(e, n, q, kept, i);
    }
  }

  /** Each token of the end is ordinary text or stands at the same distance from the end of `e`. */
  lemma EndIndex(e: Content, n: nat, q: Content, kept: nat, i: nat)
    requires n <= |e| && SameEnd(e[n..], q, kept) && i < |q|
    ensures q[i].Chr? || i >= |q| - kept
    ensures i >= |q| - kept ==> n <= i + |e| - |q| < |e| && q[i] == e[i + |e| - |q|]
  {
    if i >= |q| - kept {
      var s := e[n..];
      assert q[i] == s[i + |s| - |q|] == e[i + |e| - |q|];
    }
  }

  /** The seam before the contract. */
  lemma RewriteLeft(e: Content, n: nat, p: Content, q: Content, keptP: nat, keptQ: nat, block: Content)
    requires Quiet(e) && ContractSpan(e).Some? && n <= ContractSpan(e).value.from && n <= |e| && IsBlock(block)
    requires SameStart(e[..n], p, keptP) && SameEnd(e[n..], q, keptQ)
    ensures OnlyBlock(p + block + q, |p|, block)
    ensures SameContract(e, p + block + q)
  {
    var x, k, y := QuietAroundContract(e);
    var mid := ClosingHoldsContract(e, n, q, keptQ, x, k, y);
    PlainHead(x, k, y, n);
    PlainBoth(p, e, keptP, n);
    AssembledLeft(p, block, mid, x, k, y);
  }

  lemma AssembledLeft(p: Content, block: Content, mid: Content, x: Content, k: Content, y: Content)
    requires Plain(p) && IsBlock(block) && Plain(mid) && IsContract(k) && Plain(y)
    requires ContractSpan(x + k + y) == Some(Span(|x|, |x| + |k|))
    ensures var r := p + block + (mid + (k + y));
            OnlyBlock(r, |p|, block) && SameContract(x + k + y, r)
  {
    BlockLeftOfContract(p, block, mid, k, y);
    Flattened(p, block, mid, k, y);
    ContractMoved(x, k, y, p + block + mid, y);
  }

  lemma Flattened(p: Content, block: Content, mid: Content, k: Content, y: Content)
    ensures p + block + (mid + (k + y)) == p + block + mid + k + y
  {
  }

  lemma PlainHead(x: Content, k: Content, y: Content, n: nat)
    requires n <= |x| && Plain(x)
    ensures Plain((x + k + y)[..n])
  {
    assert (x + k + y)[..n] == x[..n];
  }

  lemma ContractMoved(x: Content, k: Content, y: Content, a: Content, b: Content)
    requires ContractSpan(x + k + y) == Some(Span(|x|, |x| + |k|)) && ContractSpan(a + k + b) == Some(Span(|a|, |a| + |k|))
    ensures SameContract(x + k + y, a + k + b)
  {
    MiddleSlice(x, k, y);
    MiddleSlice(a, k, b);
  }

  lemma MiddleSlice(a: Content, k: Content, b: Content)
    ensures (a + k + b)[|a|..|a| + |k|] == k
  {
  }

  lemma OpeningHoldsContract(e: Content, n: nat, p: Content, kept: nat, x: Content, k: Content, y: Content) returns (mid: Content)
    requires e == x + k + y && Plain(y) && IsContract(k) && |x| + |k| <= n <= |e| && SameStart(e[..n], p, kept)
    ensures Plain(mid) && p == x + k + mid
  {
    var h := |x| + |k|;
    assert kept >= h by {
      assert e[..n][h - 1] == k[|k| - 1];
      assert !e[..n][h - 1].Chr?;
    }
    mid := p[h..];
    forall i | 0 <= i < h ensures p[i] == (x + k)[i] { StartIndex(e, n, p, kept, i); }
    forall i | 0 <= i < |mid| ensures mid[i].Chr? { StartIndex(e, n, p, kept, h + i); }
  }

  lemma StartIndex(e: Content, n: nat, p: Content, kept: nat, i: nat)
    requires n <= |e| && SameStart(e[..n], p, kept) && i < |p|
    ensures p[i].Chr? || i < kept
    ensures i < kept ==> p[i] == e[i]
  {
    if i < kept { assert e[..n][i] == e[i]; }
  }

  /** The seam after the contract. */
  lemma RewriteRight(e: Content, n: nat, p: Content, q: Content, keptP: nat, keptQ: nat, block: Content)
    requires Quiet(e) && ContractSpan(e).Some? && ContractSpan(e).value.to <= n <= |e| && IsBlock(block)
    requires SameStart(e[..n], p, keptP) && SameEnd(e[n..], q, keptQ)
    ensures OnlyBlock(p + block + q, |p|, block)
    ensures SameContract(e, p + block + q)
  {
    var x, k, y := QuietAroundContract(e);
    var mid := OpeningHoldsContract(e, n, p, keptP, x, k, y);
    PlainTail(x + k, y, n);
    PlainEnd(e[n..], q, keptQ);
    BlockRightOfContract(x, k, mid, block, q);
    AssembledRight(x + k, mid, block, q);
    ContractMoved(x, k, y, x, mid + block + q);
  }

  lemma AssembledRight(a: Content, mid: Content, block: Content, q: Content)
    ensures a + mid + block + q == a + (mid + block + q)
  {
  }

  lemma PlainTail(a: Content, y: Content, n: nat)
    requires |a| <= n <= |a| + |y| && Plain(y)
    ensures Plain((a + y)[n..])
  {
    assert (a + y)[n..] == y[n - |a|..];
  }

  lemma PlainEnd(s: Content, q: Content, kept: nat)
    requires SameEnd(s, q, kept) && Plain(s)
    ensures Plain(q)
  {
  }

  /** The contract is there, word for word, though it may have moved. */
  predicate SameContract(c: Content, r: Content) {
    && ContractSpan(c).Some? && ContractSpan(r).Some?
    && var s, t := ContractSpan(c).value, ContractSpan(r).value;
       s.from <= s.to <= |c| && t.from <= t.to <= |r| && c[s.from..s.to] == r[t.from..t.to]
  }

  lemma PlainBoth(p: Content, e: Content, kept: nat, n: nat)
    requires n <= |e| && SameStart(e[..n], p, kept) && Plain(e[..n])
    ensures Plain(p)
  {
    forall i | 0 <= i < |p| ensures p[i].Chr? {
      if i < kept { assert p[i] == e[..n][i]; }
    }
  }

  /** No contract anywhere: none appears, and the block is all the parser sees. */
  lemma RewriteBare(e: Content, n: nat, p: Content, q: Content, keptP: nat, keptQ: nat, block: Content)
    requires NoMarker(e) && ContractSpan(e).None? && n <= |e| && IsBlock(block)
    requires SameStart(e[..n], p, keptP) && SameEnd(e[n..], q, keptQ)
    ensures OnlyBlock(p + block + q, |p|, block)
  {
    var r := p + block + q;
    NoContractAppears(e, n, p, q, keptP, keptQ, block);
    assert r[|p|..|p| + |block|] == block;
    forall i | 0 <= i < |r| ensures Visible(r, i) <==> i == |p| || i == |p| + |block| - 1 {
      if |p| <= i < |p| + |block| {
        BlockToken(block, i - |p|);
        assert r[i] == block[i - |p|];
      } else if IsMarker(r[i]) {
        MarkerOrigin(e, n, p, q, keptP, keptQ, block, i);
      }
    }
  }

  lemma MarkerOrigin(e: Content, n: nat, p: Content, q: Content, keptP: nat, keptQ: nat, block: Content, i: nat)
    requires n <= |e| && SameStart(e[..n], p, keptP) && SameEnd(e[n..], q, keptQ)
    requires i < |p| || |p| + |block| <= i < |p + block + q|
    requires IsMarker((p + block + q)[i])
    ensures !NoMarker(e)
  {
    if i < |p| {
      StartIndex(e, n, p, keptP, i);
    } else {
      var j := i - |p| - |block|;
      assert (p + block + q)[i] == q[j];
      EndIndex(e, n, q, keptQ, j);
    }
  }

  /** A token other than ordinary text of the rewritten content comes from this place of the erased one. */
  function Origin(e: Content, n: nat, p: Content, q: Content, block: Content, i: nat): int
    requires n <= |e|
  {
    if i < |p| then i else |e| - |q| + (i - |p| - |block|)
  }

  lemma OriginHolds(e: Content, n: nat, p: Content, q: Content, keptP: nat, keptQ: nat, block: Content, i: nat)
    requires n <= |e| && IsBlock(block) && SameStart(e[..n], p, keptP) && SameEnd(e[n..], q, keptQ)
    requires i < |p + block + q| && IsDelimiter((p + block + q)[i])
    ensures i < |p| || i >= |p| + |block|
    ensures var j := Origin(e, n, p, q, block, i);
            0 <= j < |e| && e[j] == (p + block + q)[i] && (i < |p| <==> j < n)
  {
    var r := p + block + q;
    assert |p| <= i < |p| + |block| ==> r[i] == block[i - |p|];
    if |p| <= i < |p| + |block| {
      BlockToken(block, i - |p|);
    } else if i < |p| {
      StartIndex(e, n, p, keptP, i);
    } else {
      assert r[i] == q[i - |p| - |block|];
      EndIndex(e, n, q, keptQ, i - |p| - |block|);
    }
  }

  /** Every delimiter of the erased content is still there. */
  lemma DelimiterKept(e: Content, n: nat, p: Content, q: Content, keptP: nat, keptQ: nat, block: Content, j: nat) returns (i: nat)
    requires n <= |e| && SameStart(e[..n], p, keptP) && SameEnd(e[n..], q, keptQ)
    requires j < |e| && IsDelimiter(e[j])
    ensures i < |p + block + q| && (p + block + q)[i] == e[j] && Origin(e, n, p, q, block, i) == j
  {
    if j < n {
      assert e[..n][j] == e[j];
      i := j;
    } else {
      var s := e[n..];
      assert s[j - n] == e[j];
      SameEndSym(s, q, keptQ);
      assert j - n >= |s| - keptQ;
      assert s[j - n] == q[j - n + |q| - |s|];
      i := |p| + |block| + (j + |q| - |e|);
    }
  }

  lemma SpanFromPositions(e: Content, i: nat, j: nat)
    requires i < j < |e| && e[i] == ContractBegin && e[j] == ContractEnd
    requires forall a :: 0 <= a < |e| && IsDelimiter(e[a]) ==> a == i || a == j
    ensures ContractSpan(e).Some?
  {
    SpanOfContract(e[..i], e[i..j + 1], e[j + 1..]);
    assert e == e[..i] + e[i..j + 1] + e[j + 1..];
  }

  lemma NoContractAppears(e: Content, n: nat, p: Content, q: Content, keptP: nat, keptQ: nat, block: Content)
    requires ContractSpan(e).None? && n <= |e| && IsBlock(block)
    requires SameStart(e[..n], p, keptP) && SameEnd(e[n..], q, keptQ)
    ensures ContractSpan(p + block + q).None?
  {
    var r := p + block + q;
    if ContractSpan(r).Some? {
      var s := ContractSpan(r).value;
      OnlyDelimiters(r);
      var b, t := s.from, s.to - 1;
      OriginHolds(e, n, p, q, keptP, keptQ, block, b);
      OriginHolds(e, n, p, q, keptP, keptQ, block, t);
      var i, j := Origin(e, n, p, q, block, b), Origin(e, n, p, q, block, t);
      forall a | 0 <= a < |e| && IsDelimiter(e[a]) ensures a == i || a == j {
        var h := DelimiterKept(e, n, p, q, keptP, keptQ, block, a);
      }
      SpanFromPositions(e, i, j);
    }
  }

  lemma OnlyDelimiters(r: Content)
    requires ContractSpan(r).Some?
    ensures var s := ContractSpan(r).value;
            && s.from < s.to - 1 < |r| && r[s.from] == ContractBegin && r[s.to - 1] == ContractEnd
            && forall h :: 0 <= h < |r| && IsDelimiter(r[h]) ==> h == s.from || h == s.to - 1
  {
    SpanMeans(r);
    var s := ContractSpan(r).value;
    var k := r[s.from..s.to];
    assert r[s.from] == k[0] && r[s.to - 1] == k[|k| - 1];
    forall h | 0 <= h < |r| && h != s.from && h != s.to - 1 ensures !IsDelimiter(r[h]) {
      if h < s.from { assert r[..s.from][h] == r[h]; }
      else if h < s.to { assert k[h - s.from] == r[h]; }
      else { assert r[s.to..][h - s.to] == r[h]; }
    }
  }

  // ------------------------------------------------------------------ the guarantees

  /** Well away from the contract's inside, the rewritten text has one block, and the contract is untouched. */
  lemma OneBlockAfterwards(c: Content, block: Content)
    requires WellFormed(c) && IsBlock(block) && !SeamInContract(c)
    ensures Seam(c) <= |Erased(c)| && OnlyBlock(Rewritten(c, block), |Opening(c)|, block)
    ensures ContractSpan(Erased(c)).Some? ==> SameContract(Erased(c), Rewritten(c, block))
  {
    var e, n := Erased(c), Seam(c);
    var keptP := OpeningKeeps(c);
    var keptQ := ClosingKeeps(c);
    ErasedIsQuiet(c);
    match ContractSpan(e)
    case None => RewriteBare(e, n, Opening(c), Closing(c), keptP, keptQ, block);
    case Some(s) =>
      if n <= s.from {
        RewriteLeft(e, n, Opening(c), Closing(c), keptP, keptQ, block);
      } else {
        RewriteRight(e, n, Opening(c), Closing(c), keptP, keptQ, block);
      }
  }

  /** A contract that no block runs over is kept word for word, markers inside it included. */
  lemma ContractStaysVerbatim(c: Content, block: Content)
    requires WellFormed(c) && IsBlock(block) && ContractSpan(c).Some? && !Straddled(c)
    ensures SameContract(c, Rewritten(c, block))
  {
    SeamAvoidsOldContract(c);
    OneBlockAfterwards(c, block);
    var x, k, y := ContractSurvives(c);
    assert Erased(c)[|x|..|x| + |k|] == k;
  }

  /** The last rewrite wins: whatever block was there before leaves no trace. With equal blocks, idempotence. */
  lemma LastRewriteWins(c: Content, first: Content, second: Content)
    requires WellFormed(c) && IsBlock(first) && IsBlock(second) && !SeamInContract(c)
    ensures WellFormed(Rewritten(c, first)) && Rewritten(Rewritten(c, first), second) == Rewritten(c, second)
  {
    AfterRewrite(c, first);
    var r, p := Rewritten(c, first), |Opening(c)|;
    assert Erased(r)[..p] == Opening(c) && Erased(r)[p..] == Closing(c);
    OpeningSettled(c);
    ClosingSettled(c);
  }

  lemma AfterRewrite(c: Content, block: Content)
    requires WellFormed(c) && IsBlock(block) && !SeamInContract(c)
    ensures Seam(c) <= |Erased(c)|
    ensures var r := Rewritten(c, block);
            && WellFormed(r) && All(r) != [] && Paired(All(r)) == [Span(|Opening(c)|, |Opening(c)| + |block|)]
            && Erased(r) == Opening(c) + Closing(c) && Seam(r) == |Opening(c)|
  {
    OneBlockAfterwards(c, block);
    OneBlockMeans(Opening(c), block, Closing(c));
  }

  lemma OneBlockMeans(a: Content, block: Content, b: Content)
    requires IsBlock(block) && OnlyBlock(a + block + b, |a|, block)
    ensures var r := a + block + b;
            && WellFormed(r) && All(r) != [] && Paired(All(r)) == [Span(|a|, |a| + |block|)]
            && Erased(r) == a + b && Seam(r) == |a|
  {
    var r := a + block + b;
    OnlyBlockParses(r, |a|, block);
    OnlyBlockErased(r, |a|, block);
    Around(a, block, b);
  }

  lemma Around(a: Content, b: Content, c: Content)
    ensures (a + b + c)[..|a|] == a && (a + b + c)[|a| + |b|..] == c
  {
  }

  lemma OpeningSettled(c: Content)
    requires WellFormed(c)
    ensures Seam(c) <= |Erased(c)| && Before(Opening(c)) == Opening(c)
  {
    SeamHolds(c);
  }

  lemma ClosingSettled(c: Content)
    requires WellFormed(c)
    ensures Seam(c) <= |Erased(c)| && After(Closing(c)) == Closing(c)
  {
    SeamHolds(c);
  }

  /** Part of the contract before the seam, part of it after. */
  lemma SplitContract(e: Content, n: nat, p: Content, q: Content, keptP: nat, keptQ: nat, x: Content, k: Content, y: Content)
    returns (a: Content, b: Content)
    requires e == x + k + y && IsContract(k) && |x| < n < |x| + |k|
    requires SameStart(e[..n], p, keptP) && SameEnd(e[n..], q, keptQ)
    ensures a != [] && b != [] && IsContract(a + b) && p == x + a && q == b + y
  {
    a := OpeningHalf(e, n, p, keptP, x, k, y);
    b := ClosingHalf(e, n, q, keptQ, x, k, y);
  }

  lemma OpeningHalf(e: Content, n: nat, p: Content, kept: nat, x: Content, k: Content, y: Content) returns (a: Content)
    requires e == x + k + y && IsContract(k) && |x| < n < |x| + |k| && SameStart(e[..n], p, kept)
    ensures a != [] && p == x + a && a[0] == ContractBegin && forall i :: 0 < i < |a| ==> !IsDelimiter(a[i])
  {
    assert e[..n][|x|] == k[0];
    assert kept > |x|;
    a := p[|x|..];
    forall i | 0 <= i <= |x| ensures p[i] == (x + k)[i] { StartIndex(e, n, p, kept, i); }
    forall i | 0 < i < |a| ensures !IsDelimiter(a[i]) {
      StartIndex(e, n, p, kept, |x| + i);
      if |x| + i < kept { assert e[|x| + i] == k[i]; }
    }
  }

  lemma ClosingHalf(e: Content, n: nat, q: Content, kept: nat, x: Content, k: Content, y: Content) returns (b: Content)
    requires e == x + k + y && IsContract(k) && |x| < n < |x| + |k| && SameEnd(e[n..], q, kept)
    ensures b != [] && q == b + y && b[|b| - 1] == ContractEnd && forall i :: 0 <= i < |b| - 1 ==> !IsDelimiter(b[i])
  {
    var last := |x| + |k| - 1;
    assert e[n..][last - n] == k[|k| - 1];
    assert kept > |y|;
    b := q[..|q| - |y|];
    forall i | |b| - 1 <= i < |q| ensures q[i] == e[i + |e| - |q|] { EndIndex(e, n, q, kept, i); }
    assert q[|b| - 1] == e[last];
    forall i | 0 <= i < |b| - 1 ensures !IsDelimiter(b[i]) {
      EndIndex(e, n, q, kept, i);
      if i >= |q| - kept { assert e[i + |e| - |q|] == k[i + |e| - |q| - |x|]; }
    }
  }

  lemma Reassembled(x: Content, a: Content, block: Content, b: Content, y: Content)
    ensures (x + a) + block + (b + y) == x + (a + block + b) + y
  {
  }

  /** With the seam inside a contract the block disappears from the parser's sight. */
  lemma SwallowedByContract(c: Content, block: Content)
    requires WellFormed(c) && IsBlock(block) && SeamInContract(c)
    ensures Quiet(Rewritten(c, block))
  {
    var e, n := Erased(c), Seam(c);
    var keptP := OpeningKeeps(c);
    var keptQ := ClosingKeeps(c);
    ErasedIsQuiet(c);
    var x, k, y := QuietAroundContract(e);
    var a, b := SplitContract(e, n, Opening(c), Closing(c), keptP, keptQ, x, k, y);
    BlockInsideContract(x, a, block, b, y);
    Reassembled(x, a, block, b, y);
  }

  lemma {:induction false} QuietHasNoMarkers(c: Content, n: nat)
    requires Quiet(c) && n <= |c|
    ensures Markers(c, n) == []
  {
    if n > 0 { QuietHasNoMarkers(c, n - 1); }
  }

  lemma QuietMeans(c: Content)
    requires Quiet(c)
    ensures WellFormed(c) && All(c) == [] && Paired(All(c)) == []
  {
    QuietHasNoMarkers(c, |c|);
  }

  /** After a rewrite there is exactly one block outside the contract, unless the seam fell into one. */
  lemma ExactlyOneBlockIff(c: Content, block: Content)
    requires WellFormed(c) && IsBlock(block)
    ensures WellFormed(Rewritten(c, block))
    ensures |Paired(All(Rewritten(c, block)))| == 1 <==> !SeamInContract(c)
  {
    var r := Rewritten(c, block);
    if SeamInContract(c) {
      SwallowedByContract(c, block);
      QuietMeans(r);
    } else {
      AfterRewrite(c, block);
    }
  }

  /** Repeating a rewrite changes nothing, unless the seam fell into a contract: then it adds a second block. */
  lemma IdempotentIff(c: Content, block: Content)
    requires WellFormed(c) && IsBlock(block)
    ensures WellFormed(Rewritten(c, block))
    ensures Rewritten(Rewritten(c, block), block) == Rewritten(c, block) <==> !SeamInContract(c)
  {
    var r := Rewritten(c, block);
    ExactlyOneBlockIff(c, block);
    if SeamInContract(c) {
      SwallowedByContract(c, block);
      QuietMeans(r);
      NotSettled(r, block);
    } else {
      LastRewriteWins(c, block, block);
    }
  }

  lemma NotSettled(r: Content, block: Content)
    requires IsBlock(block) && All(r) == []
    ensures Rewritten(r, block) != r
  {
    SeamHolds(r);
    if r != [] && IsSpace(r[|r| - 1]) {
      EndsWithBlock(Opening(r), block);
    } else {
      Longer(r, block);
    }
  }

  lemma EndsWithBlock(opening: Content, block: Content)
    requires IsBlock(block)
    ensures (opening + block + [])[|opening + block + []| - 1] == End
  {
  }

  lemma Longer(r: Content, block: Content)
    requires All(r) == [] && Seam(r) <= |Erased(r)| && !(r != [] && IsSpace(r[|r| - 1])) && block != []
    ensures |Opening(r) + block + Closing(r)| > |r|
  {
    assert RStrip(r) == r;
  }

  /** Content whose rewrite is swallowed: the erased block hid a second opening delimiter. */
  lemma RewriteCanBeSwallowed()
    ensures exists c :: WellFormed(c) && SeamInContract(c)
  {
    var c := [ContractBegin, Start, ContractBegin, End, ContractEnd];
    CountTwice(c, ContractBegin, 0, 2);
    assert ContractSpan(c).None?;
    assert forall i :: 0 <= i < |c| ==> (Visible(c, i) <==> i == 1 || i == 3);
    TwoMarkers(c, 1, 3, |c|);
    OnlyBlockOfHidden(c);
    var e := [ContractBegin, ContractEnd];
    assert [] + e + [] == e;
    SpanOfContract([], e, []);
    assert SeamInContract(c);
  }

  lemma OnlyBlockOfHidden(c: Content)
    requires c == [ContractBegin, Start, ContractBegin, End, ContractEnd] && All(c) == [1, 3]
    ensures WellFormed(c) && Erased(c) == [ContractBegin, ContractEnd] && Seam(c) == 1
  {
    assert All(c)[..0] == [];
    var blocks := [Span(1, 4)];
    assert Paired(All(c)) == blocks;
    assert blocks[0].from <= 1 < blocks[0].to && blocks[0].from <= 2 < blocks[0].to && blocks[0].from <= 3 < blocks[0].to;
    KeepAll(c, blocks, 0, 1);
    KeepNone(c, blocks, 1, 4);
    KeepAll(c, blocks, 4, 5);
    KeepConcat(c, blocks, 0, 1, 5);
    KeepConcat(c, blocks, 1, 4, 5);
  }

  // ------------------------------------------------------------------ the segment's messages

  datatype ChatMessage = ChatMessage(role: string, content: Content)

  /** The first system message, if any. */
  predicate IsFirstSystem(messages: seq<ChatMessage>, i: nat) {
    i < |messages| && messages[i].role == "system" && forall j :: 0 <= j < i ==> messages[j].role != "system"
  }

  predicate NoSystem(messages: seq<ChatMessage>) {
    forall j :: 0 <= j < |messages| ==> messages[j].role != "system"
  }

  /** What a segment's messages become: only the first system message changes, or one is put in front. */
  predicate IsRefreshed(messages: seq<ChatMessage>, block: Content, r: seq<ChatMessage>) {
    || (NoSystem(messages) && r == [ChatMessage("system", block)] + messages)
    || exists i :: 0 <= i < |messages| && RefreshedAt(messages, block, r, i)
  }

  predicate RefreshedAt(messages: seq<ChatMessage>, block: Content, r: seq<ChatMessage>, i: nat) {
    && IsFirstSystem(messages, i) && WellFormed(messages[i].content)
    && r == messages[i := ChatMessage("system", Rewritten(messages[i].content, block))]
  }

  method RefreshSegment(messages: seq<ChatMessage>, block: Content) returns (r: Option<seq<ChatMessage>>)
    ensures r.None? <==> exists i :: 0 <= i < |messages| && IsFirstSystem(messages, i) && !WellFormed(messages[i].content)
    ensures r.Some? ==> IsRefreshed(messages, block, r.value)
  {
    var i := 0;
    while i < |messages| && messages[i].role != "system"
      invariant i <= |messages| && forall j :: 0 <= j < i ==> messages[j].role != "system"
    {
      i := i + 1;
    }
    if i == |messages| {
      return Some([ChatMessage("system", block)] + messages);
    }
    assert IsFirstSystem(messages, i);
    var rewritten := ApplyRunBinding(messages[i].content, block);
    match rewritten {
      case None => r := None;
      case Some(content) =>
        r := Some(messages[i := ChatMessage("system", content)]);
        assert RefreshedAt(messages, block, r.value, i);
    }
  }

  /** The next segment's refresh replaces the previous one's, as if that had never been. */
  lemma RefreshesReplaceEachOther(messages: seq<ChatMessage>, first: Content, second: Content,
                                  once: seq<ChatMessage>, twice: seq<ChatMessage>)
    requires IsBlock(first) && IsBlock(second)
    requires forall i :: 0 <= i < |messages| && IsFirstSystem(messages, i) ==> !SeamInContract(messages[i].content)
    requires IsRefreshed(messages, first, once) && IsRefreshed(once, second, twice)
    ensures IsRefreshed(messages, second, twice)
  {
    if NoSystem(messages) {
      AddedIsReplaced(messages, first, second, once, twice);
    } else {
      var i :| 0 <= i < |messages| && RefreshedAt(messages, first, once, i);
      RefreshedAgain(messages, first, second, once, twice, i);
    }
  }

  lemma AddedIsReplaced(messages: seq<ChatMessage>, first: Content, second: Content,
                        once: seq<ChatMessage>, twice: seq<ChatMessage>)
    requires IsBlock(first) && IsBlock(second)
    requires once == [ChatMessage("system", first)] + messages && IsRefreshed(once, second, twice)
    ensures twice == [ChatMessage("system", second)] + messages
  {
    assert once[0].role == "system";
    var i :| 0 <= i < |once| && RefreshedAt(once, second, twice, i);
    assert i == 0;
    assert Rewritten(once[0].content, second) == second by { BareBlockReplaced(first, second); }
    FrontReplaced(ChatMessage("system", first), ChatMessage("system", second), messages);
  }

  lemma FrontReplaced(a: ChatMessage, b: ChatMessage, rest: seq<ChatMessage>)
    ensures ([a] + rest)[0 := b] == [b] + rest
  {
  }

  lemma RefreshedAgain(messages: seq<ChatMessage>, first: Content, second: Content,
                       once: seq<ChatMessage>, twice: seq<ChatMessage>, i: nat)
    requires IsBlock(first) && IsBlock(second) && i < |messages|
    requires RefreshedAt(messages, first, once, i) && !SeamInContract(messages[i].content)
    requires IsRefreshed(once, second, twice)
    ensures RefreshedAt(messages, second, twice, i)
  {
    var was, content := messages[i].content, Rewritten(messages[i].content, first);
    assert once == messages[i := ChatMessage("system", content)] && once[i].role == "system";
    var j :| 0 <= j < |once| && RefreshedAt(once, second, twice, j);
    SameFirst(messages, ChatMessage("system", content), i, j);
    LastRewriteWins(was, first, second);
    ReplacedTwice(messages, i, ChatMessage("system", content), ChatMessage("system", Rewritten(was, second)));
  }

  lemma SameFirst(messages: seq<ChatMessage>, m: ChatMessage, i: nat, j: nat)
    requires IsFirstSystem(messages, i) && m.role == "system" && IsFirstSystem(messages[i := m], j)
    ensures i == j
  {
    assert messages[i := m][i].role == "system";
    assert forall h :: 0 <= h < i ==> messages[i := m][h] == messages[h];
  }

  lemma ReplacedTwice(messages: seq<ChatMessage>, i: nat, a: ChatMessage, b: ChatMessage)
    requires i < |messages|
    ensures messages[i := a][i := b] == messages[i := b]
  {
  }

  lemma BareBlockReplaced(first: Content, second: Content)
    requires IsBlock(first) && IsBlock(second)
    ensures WellFormed(first) && Rewritten(first, second) == second
  {
    NoneCounted([]);
    assert ContractSpan([]).None?;
    RewriteBare([], 0, [], [], 0, 0, first);
    assert [] + first + [] == first;
    OnlyBlockParses(first, 0, first);
    OnlyBlockErased(first, 0, first);
    assert Opening(first) == [] && Closing(first) == [];
  }
}
