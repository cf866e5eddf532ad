/**
 The eager context: root instructions whole or not at all, then each optional rule whole if it
 still fits. The budget bounds the text that is emitted.
 */
module EagerContext {
  import opened Common

  datatype Entry = Entry(title: string, body: string)

  /** RootInstructionTooLarge, or the text with the titles left out. */
  datatype Assembled = TooLarge(used: nat) | Eager(text: string, omitted: seq<string>)

  function Strip(s: string): string {
    if s != "" && IsSpaceChar(s[0]) then Strip(s[1..])
    else if s != "" && IsSpaceChar(s[|s| - 1]) then Strip(s[..|s| - 1])
    else s
  }

  function Block(e: Entry): string {
    Strip("## " + e.title + "\n\n" + e.body)
  }

  /** Blocks with the separator each is charged for. */
  function Charge(blocks: seq<string>): nat {
    if blocks == [] then 0 else Charge(blocks[..|blocks| - 1]) + |blocks[|blocks| - 1]| + 2
  }

  function Blocks(entries: seq<Entry>): seq<string> {
    if entries == [] then []
    else
      var e := entries[|entries| - 1];
      Blocks(entries[..|entries| - 1]) + (if e.body == "" then [] else [Block(e)])
  }

  /** The optional entries that fit one after another, each whole. */
  function Chosen(before: seq<string>, optional: seq<Entry>, budget: int): seq<string> {
    if optional == [] then before
    else
      var e, earlier := optional[|optional| - 1], Chosen(before, optional[..|optional| - 1], budget);
      if e.body == "" || Charge(earlier) + |Block(e)| + 2 > budget then earlier else earlier + [Block(e)]
  }

  function LeftOut(before: seq<string>, optional: seq<Entry>, budget: int): seq<string> {
    if optional == [] then []
    else
      var init, e := optional[..|optional| - 1], optional[|optional| - 1];
      LeftOut(before, init, budget)
      + (if e.body != "" && Charge(Chosen(before, init, budget)) + |Block(e)| + 2 > budget then [e.title] else [])
  }

  lemma ChargeOneMore(blocks: seq<string>, b: string)
    ensures Charge(blocks + [b]) == Charge(blocks) + |b| + 2
  {
    assert (blocks + [b])[..|blocks|] == blocks;
  }

  method Assemble(mandatory: seq<Entry>, optional: seq<Entry>, budget: int) returns (r: Assembled)
    ensures r == if Charge(Blocks(mandatory)) > budget then TooLarge(Charge(Blocks(mandatory)))
                 else Eager(Join(Chosen(Blocks(mandatory), optional, budget), "\n\n"), LeftOut(Blocks(mandatory), optional, budget))
    ensures r.Eager? ==> |r.text| <= budget
  {
    var blocks: seq<string>, used: nat, omitted: seq<string> := [], 0, [];
    for n := 0 to |mandatory|
      invariant blocks == Blocks(mandatory[..n]) && used == Charge(blocks)
    {
      assert mandatory[..n + 1][..n] == mandatory[..n];
      if mandatory[n].body != "" {
        var block := Block(mandatory[n]);
        ChargeOneMore(blocks, block);
        blocks, used := blocks + [block], used + |block| + 2;
      }
    }
    assert mandatory[..|mandatory|] == mandatory;
    if used > budget {
      return TooLarge(used);
    }
    for n := 0 to |optional|
      invariant blocks == Chosen(Blocks(mandatory), optional[..n], budget) && used == Charge(blocks) <= budget
      invariant omitted == LeftOut(Blocks(mandatory), optional[..n], budget)
    {
      assert optional[..n + 1][..n] == optional[..n];
      if optional[n].body != "" {
        var block := Block(optional[n]);
        if used + |block| + 2 > budget {
          omitted := omitted + [optional[n].title];
        } else {
          ChargeOneMore(blocks, block);
          blocks, used := blocks + [block], used + |block| + 2;
        }
      }
    }
    assert optional[..|optional|] == optional;
    JoinWithinCharge(blocks);
    r := Eager(Join(blocks, "\n\n"), omitted);
  }

  lemma {:induction false} JoinWithinCharge(blocks: seq<string>)
    ensures |Join(blocks, "\n\n")| <= Charge(blocks) && (blocks != [] ==> |Join(blocks, "\n\n")| == Charge(blocks) - 2)
  {
    if |blocks| == 1 {
      assert blocks[..0] == [];
    } else if blocks != [] {
      JoinWithinCharge(blocks[..|blocks| - 1]);
    }
  }

  /** Mandatory blocks come first and whole; every optional entry is in the text whole or among the omitted. */
  lemma {:induction false} WholeOrOmitted(before: seq<string>, optional: seq<Entry>, budget: int, k: nat)
    requires k < |optional| && optional[k].body != ""
    ensures before <= Chosen(before, optional, budget)
    ensures Block(optional[k]) in Chosen(before, optional, budget) || optional[k].title in LeftOut(before, optional, budget)
    decreases |optional|
  {
    MandatoryFirst(before, optional, budget);
    if k < |optional| - 1 {
      WholeOrOmitted(before, optional[..|optional| - 1], budget, k);
    }
  }

  lemma {:induction false} MandatoryFirst(before: seq<string>, optional: seq<Entry>, budget: int)
    ensures before <= Chosen(before, optional, budget)
  {
    if optional != [] { MandatoryFirst(before, optional[..|optional| - 1], budget); }
  }

  /** With nothing omitted, all optional entries are there, in order. */
  lemma {:induction false} AllThere(before: seq<string>, optional: seq<Entry>, budget: int)
    requires LeftOut(before, optional, budget) == []
    ensures Chosen(before, optional, budget) == before + Blocks(optional)
  {
    if optional == [] {
      assert before + Blocks(optional) == before;
    } else {
      AllThere(before, optional[..|optional| - 1], budget);
    }
  }

  // ------------------------------------------------------------------ what a block and the text hold

  lemma {:induction false} StripKeepsStart(s: string)
    requires s != "" && !IsSpaceChar(s[0])
    ensures 0 < |Strip(s)| <= |s| && Strip(s) == s[..|Strip(s)|]
    ensures !IsSpaceChar(s[|Strip(s)| - 1]) && forall i :: |Strip(s)| <= i < |s| ==> IsSpaceChar(s[i])
    decreases |s|
  {
    if IsSpaceChar(s[|s| - 1]) {
      var shorter := s[..|s| - 1];
      StripKeepsStart(shorter);
      assert Strip(s) == Strip(shorter);
    }
  }

  /** A block is its heading, a blank line and its body, but for white space at the end. */
  lemma BlockHolds(e: Entry)
    ensures var whole := "## " + e.title + "\n\n" + e.body; var n := |Block(e)|;
            && 0 < n <= |whole| && Block(e) == whole[..n]
            && !IsSpaceChar(whole[n - 1]) && forall i :: n <= i < |whole| ==> IsSpaceChar(whole[i])
  {
    StripKeepsStart("## " + e.title + "\n\n" + e.body);
  }

  function WithBody(entries: seq<Entry>): nat {
    if entries == [] then 0
    else WithBody(entries[..|entries| - 1]) + (if entries[|entries| - 1].body == "" then 0 else 1)
  }

  /** Each entry with a body has its block, in order, and there is no other. */
  lemma {:induction false} BlocksInOrder(entries: seq<Entry>, k: nat)
    requires k < |entries| && entries[k].body != ""
    ensures |Blocks(entries)| == WithBody(entries) > WithBody(entries[..k])
    ensures Blocks(entries)[WithBody(entries[..k])] == Block(entries[k])
    decreases |entries|
  {
    var n := |entries| - 1;
    BlocksLength(entries);
    BlocksLength(entries[..n]);
    if k < n {
      assert entries[..n][..k] == entries[..k];
      BlocksInOrder(entries[..n], k);
    }
  }

  lemma {:induction false} BlocksLength(entries: seq<Entry>)
    ensures |Blocks(entries)| == WithBody(entries)
  {
    if entries != [] { BlocksLength(entries[..|entries| - 1]); }
  }

  /** The text so far with one block more, and the separator after it. */
  function Grown(chosen: seq<string>, e: Entry): nat {
    |Join(chosen + [Block(e)], "\n\n")| + 2
  }

  /** The last entry is taken whole when the text with it still fits, and is reported otherwise. */
  lemma LastTakenIffItFits(before: seq<string>, optional: seq<Entry>, budget: int)
    requires optional != []
    ensures var init, e := optional[..|optional| - 1], optional[|optional| - 1];
            var chosen, left := Chosen(before, init, budget), LeftOut(before, init, budget);
            && Chosen(before, optional, budget) == chosen + (if e.body != "" && Grown(chosen, e) <= budget then [Block(e)] else [])
            && LeftOut(before, optional, budget) == left + (if e.body != "" && Grown(chosen, e) > budget then [e.title] else [])
  {
    var init, e := optional[..|optional| - 1], optional[|optional| - 1];
    GrownIsCharged(Chosen(before, init, budget), e);
  }

  lemma GrownIsCharged(chosen: seq<string>, e: Entry)
    ensures Grown(chosen, e) == Charge(chosen) + |Block(e)| + 2
  {
    JoinWithinCharge(chosen + [Block(e)]);
    ChargeOneMore(chosen, Block(e));
  }

  lemma {:induction false} WhatIsTakenStays(before: seq<string>, optional: seq<Entry>, budget: int, k: nat)
    requires k <= |optional|
    ensures Chosen(before, optional[..k], budget) <= Chosen(before, optional, budget)
    ensures LeftOut(before, optional[..k], budget) <= LeftOut(before, optional, budget)
    decreases |optional|
  {
    if k == |optional| {
      assert optional[..k] == optional;
    } else {
      assert optional[..|optional| - 1][..k] == optional[..k];
      WhatIsTakenStays(before, optional[..|optional| - 1], budget, k);
    }
  }

  /** The entries are taken or reported in turn, and what has been taken or reported stays. */
  lemma TakenIffItFits(before: seq<string>, optional: seq<Entry>, budget: int, k: nat)
    requires k < |optional|
    ensures var e, chosen, left := optional[k], Chosen(before, optional[..k], budget), LeftOut(before, optional[..k], budget);
            && (e.body != "" && Grown(chosen, e) <= budget ==> chosen + [Block(e)] <= Chosen(before, optional, budget))
            && (e.body != "" && Grown(chosen, e) > budget ==> left + [e.title] <= LeftOut(before, optional, budget))
  {
    assert optional[..k + 1][..k] == optional[..k];
    LastTakenIffItFits(before, optional[..k + 1], budget);
    WhatIsTakenStays(before, optional, budget, k + 1);
  }

  /** Each entry with a body is counted once, among the taken or among the reported. */
  lemma {:induction false} EveryBodyCounted(before: seq<string>, optional: seq<Entry>, budget: int)
    ensures |Chosen(before, optional, budget)| + |LeftOut(before, optional, budget)| == |before| + WithBody(optional)
  {
    if optional != [] { EveryBodyCounted(before, optional[..|optional| - 1], budget); }
  }
}
