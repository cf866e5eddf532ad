/**
 The catalog's budget split: rounds of equal shares, the surplus of small demands handed on.
 Proved to be water-filling: everyone gets min(demand, level) for the highest level that
 fits, which is max-min fair, independent of order and monotone in the budget.
 */
module FairAllocation {
  import opened Common

  /** What one demand gets at a water level. */
  function AtLevel(demand: int, level: nat): nat {
    Min(Max(demand, 0), level)
  }

  function Pour(demands: seq<int>, level: nat): (r: seq<nat>)
    ensures |r| == |demands| && forall i :: 0 <= i < |r| ==> r[i] == AtLevel(demands[i], level)
  {
    seq(|demands|, i requires 0 <= i < |demands| => AtLevel(demands[i], level))
  }

  function Poured(demands: seq<int>, level: nat): nat {
    if demands == [] then 0 else Poured(demands[..|demands| - 1], level) + AtLevel(demands[|demands| - 1], level)
  }

  function Sum(s: seq<nat>): nat {
    if s == [] then 0 else Sum(s[..|s| - 1]) + s[|s| - 1]
  }

  /** How many demands a level leaves unsatisfied. */
  function Thirsty(demands: seq<int>, level: nat): nat {
    if demands == [] then 0
    else Thirsty(demands[..|demands| - 1], level) + (if demands[|demands| - 1] > level then 1 else 0)
  }

  function Highest(demands: seq<int>): nat {
    if demands == [] then 0 else Max(Highest(demands[..|demands| - 1]), demands[|demands| - 1])
  }

  function Need(demands: seq<int>): nat {
    Poured(demands, Highest(demands))
  }

  /** The highest level whose total fits; above the highest demand it makes no difference. */
  ghost predicate IsWaterLevel(demands: seq<int>, budget: int, level: nat) {
    && Poured(demands, level) <= Max(budget, 0)
    && (Thirsty(demands, level) > 0 ==> Poured(demands, level + 1) > Max(budget, 0))
  }

  // ------------------------------------------------------------------ levels

  lemma {:induction false} OneLevelUp(demands: seq<int>, level: nat)
    ensures Poured(demands, level + 1) == Poured(demands, level) + Thirsty(demands, level)
  {
    if demands != [] { OneLevelUp(demands[..|demands| - 1], level); }
  }

  lemma {:induction false} PouredMonotone(demands: seq<int>, low: nat, high: nat)
    requires low <= high
    ensures Poured(demands, low) <= Poured(demands, high) && Thirsty(demands, low) >= Thirsty(demands, high)
  {
    if demands != [] { PouredMonotone(demands[..|demands| - 1], low, high); }
  }

  lemma {:induction false} NoThirst(demands: seq<int>, level: nat)
    ensures Thirsty(demands, level) == 0 <==> level >= Highest(demands)
    ensures Thirsty(demands, level) == 0 ==> Poured(demands, level) == Need(demands)
    ensures forall i :: 0 <= i < |demands| ==> demands[i] <= Highest(demands)
    ensures Thirsty(demands, level) == 0 ==> forall i :: 0 <= i < |demands| ==> demands[i] <= level
    ensures Thirsty(demands, level) <= |demands|
  {
    if demands != [] {
      NoThirst(demands[..|demands| - 1], level);
      assert demands == demands[..|demands| - 1] + [demands[|demands| - 1]];
      if Thirsty(demands, level) == 0 {
        SameAbove(demands, level, Highest(demands));
      }
    }
  }

  lemma {:induction false} SameAbove(demands: seq<int>, a: nat, b: nat)
    requires forall i :: 0 <= i < |demands| ==> demands[i] <= a && demands[i] <= b
    ensures Poured(demands, a) == Poured(demands, b)
  {
    if demands != [] { SameAbove(demands[..|demands| - 1], a, b); }
  }

  lemma {:induction false} SumOfPour(demands: seq<int>, level: nat)
    ensures Sum(Pour(demands, level)) == Poured(demands, level)
  {
    if demands != [] {
      SumOfPour(demands[..|demands| - 1], level);
      assert Pour(demands, level)[..|demands| - 1] == Pour(demands[..|demands| - 1], level);
    }
  }

  lemma {:induction false} SumOfUpdate(s: seq<nat>, i: nat, v: nat)
    requires i < |s|
    ensures Sum(s[i := v]) == Sum(s) - s[i] + v
  {
    var t := s[i := v];
    if i == |s| - 1 {
      assert t[..i] == s[..i];
    } else {
      SumOfUpdate(s[..|s| - 1], i, v);
      assert t[..|s| - 1] == s[..|s| - 1][i := v];
    }
  }

  // ------------------------------------------------------------------ the rounds

  /** The kinds still wanting more, in kind order. */
  function Pending(demands: seq<int>, level: nat): seq<nat> {
    if demands == [] then []
    else Pending(demands[..|demands| - 1], level) + (if demands[|demands| - 1] > level then [|demands| - 1] else [])
  }

  lemma {:induction false} PendingMeans(demands: seq<int>, level: nat)
    ensures var r := Pending(demands, level);
            && |r| == Thirsty(demands, level)
            && (forall i :: i in r <==> 0 <= i < |demands| && demands[i] > level)
            && (forall j, k :: 0 <= j < k < |r| ==> r[j] < r[k])
  {
    if demands != [] {
      var init := Pending(demands[..|demands| - 1], level);
      PendingMeans(demands[..|demands| - 1], level);
      forall j, k | 0 <= j < k < |Pending(demands, level)| ensures Pending(demands, level)[j] < Pending(demands, level)[k] {
        if k == |init| { assert init[j] in init; }
      }
    }
  }

  /** During a round: the kinds in `raised` are at the new level, the others at the old one. */
  predicate Raising(demands: seq<int>, level: nat, share: nat, raised: seq<nat>, allocation: seq<nat>) {
    && |allocation| == |demands|
    && (demands == [] ||
        var n := |demands| - 1;
        && Raising(demands[..n], level, share, raised, allocation[..n])
        && allocation[n] == RaisedTo(demands[n], level, share, n in raised))
  }

  function RaisedTo(demand: int, level: nat, share: nat, raised: bool): nat {
    AtLevel(demand, if raised then level + share else level)
  }

  lemma {:induction false} RaisingMeans(demands: seq<int>, level: nat, share: nat, raised: seq<nat>, allocation: seq<nat>)
    ensures Raising(demands, level, share, raised, allocation) <==>
            |allocation| == |demands| &&
            forall i :: 0 <= i < |demands| ==> allocation[i] == RaisedTo(demands[i], level, share, i in raised)
  {
    if demands != [] && |allocation| == |demands| {
      RaisingMeans(demands[..|demands| - 1], level, share, raised, allocation[..|demands| - 1]);
    }
  }

  method StillWanting(demands: seq<int>, ghost level: nat, allocation: seq<nat>) returns (pending: seq<nat>)
    requires allocation == Pour(demands, level)
    ensures pending == Pending(demands, level)
  {
    pending := [];
    for n := 0 to |demands|
      invariant pending == Pending(demands[..n], level)
    {
      assert demands[..n + 1][..n] == demands[..n];
      if demands[n] - allocation[n] > 0 {
        pending := pending + [n];
      }
    }
    assert demands[..|demands|] == demands;
  }

  method Allocate(demands: seq<int>, budget: int) returns (allocation: seq<nat>)
    ensures exists level: nat :: IsWaterLevel(demands, budget, level) && allocation == Pour(demands, level)
    ensures FairestSplit(demands, budget, allocation)
  {
    ghost var level: nat := 0;
    allocation := seq(|demands|, i requires 0 <= i < |demands| => 0);
    assert allocation == Pour(demands, 0);
    var pending := StillWanting(demands, 0, allocation);
    var remaining := budget;
    NothingAtZero(demands);
    while pending != [] && remaining > 0
      invariant allocation == Pour(demands, level)
      invariant pending == Pending(demands, level)
      invariant remaining == budget - Poured(demands, level)
      invariant Poured(demands, level) <= Max(budget, 0)
      decreases remaining
    {
      var share := remaining / |pending|;
      ShareFits(remaining, |pending|);
      if share == 0 {
        LevelReached(demands, budget, level);
        WaterLevelIsFairest(demands, budget, level);
        return;
      }
      allocation, remaining := RaiseAll(demands, level, share, pending, allocation, remaining);
      level := level + share;
      pending := StillWanting(demands, level, allocation);
    }
    LevelReached(demands, budget, level);
    WaterLevelIsFairest(demands, budget, level);
  }

  lemma ShareFits(remaining: int, n: nat)
    requires remaining > 0 && n > 0
    ensures 0 <= remaining / n && remaining / n * n <= remaining && (remaining / n == 0 ==> remaining < n)
  {
  }

  lemma LevelReached(demands: seq<int>, budget: int, level: nat)
    requires Poured(demands, level) <= Max(budget, 0)
    requires Pending(demands, level) == [] || budget - Poured(demands, level) < |Pending(demands, level)|
    ensures IsWaterLevel(demands, budget, level)
  {
    PendingMeans(demands, level);
    OneLevelUp(demands, level);
  }

  lemma {:induction false} NothingAtZero(demands: seq<int>)
    ensures Poured(demands, 0) == 0
  {
    if demands != [] { NothingAtZero(demands[..|demands| - 1]); }
  }

  /** One round. */
  method RaiseAll(demands: seq<int>, ghost level: nat, share: nat, pending: seq<nat>, start: seq<nat>, remaining0: int)
    returns (allocation: seq<nat>, remaining: int)
    requires start == Pour(demands, level) && pending == Pending(demands, level) && pending != []
    requires share > 0 && share * |pending| <= remaining0
    ensures allocation == Pour(demands, level + share)
    ensures remaining == remaining0 - (Poured(demands, level + share) - Poured(demands, level))
    ensures 0 <= remaining < remaining0
  {
    allocation, remaining := start, remaining0;
    BeforeRound(demands, level, share);
    for n := 0 to |pending|
      invariant Raising(demands, level, share, pending[..n], allocation)
      invariant remaining == remaining0 - Sum(allocation) + Poured(demands, level)
    {
      var kind := pending[n];
      RaisedOne(demands, level, share, n, allocation);
      var take := Min(share, demands[kind] - allocation[kind]);
      allocation := allocation[kind := allocation[kind] + take];
      remaining := remaining - take;
    }
    AfterRound(demands, level, share, allocation);
    RoundCost(demands, level, share);
  }

  lemma BeforeRound(demands: seq<int>, level: nat, share: nat)
    ensures Raising(demands, level, share, Pending(demands, level)[..0], Pour(demands, level))
    ensures Sum(Pour(demands, level)) == Poured(demands, level)
    ensures |Pending(demands, level)| == Thirsty(demands, level)
  {
    RaisingMeans(demands, level, share, Pending(demands, level)[..0], Pour(demands, level));
    SumOfPour(demands, level);
    PendingMeans(demands, level);
  }

  lemma AfterRound(demands: seq<int>, level: nat, share: nat, allocation: seq<nat>)
    requires var all := Pending(demands, level); Raising(demands, level, share, all[..|all|], allocation)
    ensures allocation == Pour(demands, level + share) && Sum(allocation) == Poured(demands, level + share)
  {
    var all := Pending(demands, level);
    RaisingMeans(demands, level, share, all[..|all|], allocation);
    PendingMeans(demands, level);
    assert all[..|all|] == all;
    SumOfPour(demands, level + share);
  }

  lemma RaisedOne(demands: seq<int>, level: nat, share: nat, n: nat, allocation: seq<nat>)
    requires var pending := Pending(demands, level);
             n < |pending| && Raising(demands, level, share, pending[..n], allocation)
    ensures var pending := Pending(demands, level);
            var kind := pending[n];
            && kind < |allocation| == |demands| && demands[kind] > allocation[kind]
            && var raised := allocation[kind := allocation[kind] + Min(share, demands[kind] - allocation[kind])];
               && Raising(demands, level, share, pending[..n + 1], raised)
               && Sum(raised) == Sum(allocation) + Min(share, demands[kind] - allocation[kind])
  {
    var pending := Pending(demands, level);
    var kind := pending[n];
    PendingMeans(demands, level);
    assert kind in pending && kind !in pending[..n];
    RaisingMeans(demands, level, share, pending[..n], allocation);
    var v := allocation[kind] + Min(share, demands[kind] - allocation[kind]);
    SumOfUpdate(allocation, kind, v);
    assert pending[..n + 1] == pending[..n] + [kind];
    RaisingMeans(demands, level, share, pending[..n + 1], allocation[kind := v]);
  }

  lemma {:induction false} RoundCost(demands: seq<int>, level: nat, share: nat)
    ensures Poured(demands, level + share) <= Poured(demands, level) + share * Thirsty(demands, level)
    ensures share > 0 ==> Poured(demands, level + share) >= Poured(demands, level) + Thirsty(demands, level)
  {
    if share > 0 {
      RoundCost(demands, level, share - 1);
      OneLevelUp(demands, level + share - 1);
      PouredMonotone(demands, level, level + share - 1);
      OneLevelUp(demands, level);
      PouredMonotone(demands, level + 1, level + share);
      OneUnitMore(share, Thirsty(demands, level));
    }
  }

  lemma OneUnitMore(share: nat, kinds: nat)
    requires share > 0
    ensures share * kinds == (share - 1) * kinds + kinds
  {
  }

  // ------------------------------------------------------------------ what the level means

  /** Nobody who went without is below anybody else. */
  ghost predicate EnvyFree(demands: seq<int>, x: seq<nat>)
    requires |x| == |demands|
  {
    && (forall i :: 0 <= i < |x| ==> x[i] <= Max(demands[i], 0))
    && (forall i, j :: 0 <= i < |x| && 0 <= j < |x| && x[i] < demands[i] ==> x[j] <= x[i])
  }

  lemma PourIsEnvyFree(demands: seq<int>, level: nat)
    ensures EnvyFree(demands, Pour(demands, level))
  {
  }

  lemma {:induction false} SumAtLeast(demands: seq<int>, level: nat, x: seq<nat>)
    requires |x| == |demands| && forall i :: 0 <= i < |x| ==> x[i] >= AtLevel(demands[i], level)
    ensures Sum(x) >= Poured(demands, level)
  {
    if x != [] { SumAtLeast(demands[..|demands| - 1], level, x[..|x| - 1]); }
  }

  /** Max-min fairness: no affordable envy-free split gives anybody more. */
  lemma NoFairSplitIsBetter(demands: seq<int>, budget: int, level: nat, x: seq<nat>)
    requires IsWaterLevel(demands, budget, level)
    requires |x| == |demands| && EnvyFree(demands, x) && Sum(x) <= Max(budget, 0)
    ensures forall i :: 0 <= i < |x| ==> x[i] <= Pour(demands, level)[i]
  {
    forall i | 0 <= i < |x| ensures x[i] <= AtLevel(demands[i], level) {
      if x[i] > AtLevel(demands[i], level) {
        assert demands[i] > level;
        NoThirst(demands, level);
        SumAtLeast(demands, level + 1, x);
        PouredMonotone(demands, 0, level + 1);
        assert false;
      }
    }
  }

  predicate AtMost(x: seq<nat>, y: seq<nat>) {
    |x| == |y| && forall i :: 0 <= i < |x| ==> x[i] <= y[i]
  }

  /** Affordable, envy-free, and at least what any other affordable envy-free split gives to anybody. */
  ghost predicate FairestSplit(demands: seq<int>, budget: int, allocation: seq<nat>) {
    && |allocation| == |demands| && EnvyFree(demands, allocation) && Sum(allocation) <= Max(budget, 0)
    && (forall x: seq<nat> :: |x| == |demands| && EnvyFree(demands, x) && Sum(x) <= Max(budget, 0) ==> AtMost(x, allocation))
  }

  lemma WaterLevelIsFairest(demands: seq<int>, budget: int, level: nat)
    requires IsWaterLevel(demands, budget, level)
    ensures FairestSplit(demands, budget, Pour(demands, level))
  {
    SumOfPour(demands, level);
    forall x: seq<nat> | |x| == |demands| && EnvyFree(demands, x) && Sum(x) <= Max(budget, 0)
      ensures AtMost(x, Pour(demands, level))
    {
      NoFairSplitIsBetter(demands, budget, level, x);
    }
  }

  /** The level is determined: any two give the same split. */
  lemma LevelIsDetermined(demands: seq<int>, budget: int, a: nat, b: nat)
    requires IsWaterLevel(demands, budget, a) && IsWaterLevel(demands, budget, b)
    ensures Pour(demands, a) == Pour(demands, b)
  {
    LevelMonotone(demands, budget, a, budget, b);
    LevelMonotone(demands, budget, b, budget, a);
  }

  /** A larger budget takes nothing from anybody. */
  lemma LevelMonotone(demands: seq<int>, budget: int, level: nat, larger: int, higher: nat)
    requires IsWaterLevel(demands, budget, level) && IsWaterLevel(demands, larger, higher) && budget <= larger
    ensures forall i :: 0 <= i < |demands| ==> AtLevel(demands[i], level) <= AtLevel(demands[i], higher)
  {
    if level > higher {
      if Thirsty(demands, higher) > 0 {
        PouredMonotone(demands, higher + 1, level);
        assert false;
      }
      NoThirst(demands, higher);
    }
  }

  /** Everybody is satisfied exactly when the total demand fits. */
  lemma SatisfiedIffItFits(demands: seq<int>, budget: int, level: nat)
    requires IsWaterLevel(demands, budget, level)
    ensures Need(demands) <= Max(budget, 0) <==> forall i :: 0 <= i < |demands| ==> AtLevel(demands[i], level) == Max(demands[i], 0)
  {
    NoThirst(demands, level);
    if forall i :: 0 <= i < |demands| ==> AtLevel(demands[i], level) == Max(demands[i], 0) {
      NoThirst(demands, Highest(demands));
      assert forall i :: 0 <= i < |demands| ==> demands[i] <= level;
      SameAbove(demands, level, Highest(demands));
    }
    if Need(demands) <= Max(budget, 0) && Thirsty(demands, level) > 0 {
      var top := Max(Highest(demands), level + 1);
      PouredMonotone(demands, level + 1, top);
      NoThirst(demands, top);
    }
  }

  /** What is left over would not give every unsatisfied kind one more unit. */
  lemma LeftoverIsSmall(demands: seq<int>, budget: int, level: nat)
    requires IsWaterLevel(demands, budget, level) && Thirsty(demands, level) > 0
    ensures Max(budget, 0) - Sum(Pour(demands, level)) < Thirsty(demands, level)
  {
    OneLevelUp(demands, level);
    SumOfPour(demands, level);
  }

  /**
   While somebody is unsatisfied, the budget is spent to the last unit exactly when some
   level happens to pour it out; no round ever hands out less than one unit to each.
   */
  lemma SpentIffALevelFits(demands: seq<int>, budget: int, level: nat)
    requires IsWaterLevel(demands, budget, level) && Thirsty(demands, level) > 0
    ensures Sum(Pour(demands, level)) == Max(budget, 0) <==> exists l: nat :: Poured(demands, l) == Max(budget, 0)
  {
    SumOfPour(demands, level);
    forall l: nat | Poured(demands, l) == Max(budget, 0) ensures Poured(demands, level) == Max(budget, 0) {
      if l <= level {
        PouredMonotone(demands, l, level);
      } else {
        PouredMonotone(demands, level + 1, l);
      }
    }
  }

  /** Two demands of five, a budget of three: one unit each, and one left over. */
  lemma SomethingCanBeLeftOver()
    ensures IsWaterLevel([5, 5], 3, 1) && Thirsty([5, 5], 1) == 2 && Sum(Pour([5, 5], 1)) == 2
  {
    var d := [5, 5];
    assert d[..1] == [5] && d[..1][..0] == [];
    assert Poured(d[..1], 1) == 1 && Poured(d[..1], 2) == 2 && Thirsty(d[..1], 1) == 1;
    assert Poured(d, 1) == 2 && Poured(d, 2) == 4;
    SumOfPour(d, 1);
  }

  lemma {:induction false} PouredIsOrderFree(a: seq<int>, b: seq<int>, level: nat)
    requires multiset(a) == multiset(b)
    ensures Poured(a, level) == Poured(b, level) && Thirsty(a, level) == Thirsty(b, level)
    decreases |a|
  {
    assert |a| == |multiset(a)| == |multiset(b)| == |b|;
    if a != [] {
      var last := a[|a| - 1];
      assert last in multiset(b);
      var i :| 0 <= i < |b| && b[i] == last;
      var rest := b[..i] + b[i + 1..];
      assert multiset(a[..|a| - 1]) == multiset(a) - multiset{last} by { assert a == a[..|a| - 1] + [last]; }
      assert multiset(rest) == multiset(b) - multiset{last} by { assert b == b[..i] + [last] + b[i + 1..]; }
      PouredIsOrderFree(a[..|a| - 1], rest, level);
      PouredWithout(b, i, level);
    }
  }

  lemma {:induction false} PouredWithout(s: seq<int>, i: nat, level: nat)
    requires i < |s|
    ensures var rest := s[..i] + s[i + 1..];
            && Poured(s, level) == Poured(rest, level) + AtLevel(s[i], level)
            && Thirsty(s, level) == Thirsty(rest, level) + (if s[i] > level then 1 else 0)
    decreases |s|
  {
    var rest := s[..i] + s[i + 1..];
    if i == |s| - 1 {
      assert rest == s[..|s| - 1];
    } else {
      PouredWithout(s[..|s| - 1], i, level);
      assert rest[..|rest| - 1] == s[..|s| - 1][..i] + s[..|s| - 1][i + 1..];
      assert rest[|rest| - 1] == s[|s| - 1];
    }
  }

  /** Order-independence: the level of a permutation is a level of the original. */
  lemma LevelIsOrderFree(a: seq<int>, b: seq<int>, budget: int, level: nat)
    requires multiset(a) == multiset(b) && IsWaterLevel(a, budget, level)
    ensures IsWaterLevel(b, budget, level)
  {
    PouredIsOrderFree(a, b, level);
    PouredIsOrderFree(a, b, level + 1);
  }

  /** In whatever order the kinds come, equal demands get equal shares. */
  lemma OrderDoesNotMatter(a: seq<int>, b: seq<int>, budget: int, levelA: nat, levelB: nat, i: nat, j: nat)
    requires multiset(a) == multiset(b) && IsWaterLevel(a, budget, levelA) && IsWaterLevel(b, budget, levelB)
    requires i < |a| && j < |b| && a[i] == b[j]
    ensures Pour(a, levelA)[i] == Pour(b, levelB)[j]
  {
    LevelIsOrderFree(a, b, budget, levelA);
    LevelIsDetermined(b, budget, levelA, levelB);
    assert Pour(b, levelA)[j] == Pour(b, levelB)[j];
  }
}
