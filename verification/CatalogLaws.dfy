/**
 What the reader of the catalog sees, by position: which entries are listed, what a line, a
 section and the whole text hold.
 */
module CatalogLaws {
  import opened Common
  import opened CatalogRendering

  /** Never what is in the prompt already, and what only a user invokes only if it is a command. */
  predicate Selectable(r: Ref) {
    r.policy != Eager && (r.policy == ExplicitOnly ==> r.kind == "command")
  }

  function CountSelectable(refs: seq<Ref>): nat {
    if refs == [] then 0
    else CountSelectable(refs[..|refs| - 1]) + (if Selectable(refs[|refs| - 1]) then 1 else 0)
  }

  /** The selectable entries are listed in their order, and no others are. */
  lemma {:induction false} VisibleInOrder(refs: seq<Ref>, k: nat)
    requires k < |refs| && Selectable(refs[k])
    ensures |Visible(refs)| == CountSelectable(refs) > CountSelectable(refs[..k])
    ensures Visible(refs)[CountSelectable(refs[..k])] == refs[k]
    decreases |refs|
  {
    var n := |refs| - 1;
    VisibleLength(refs);
    VisibleLength(refs[..n]);
    if k < n {
      assert refs[..n][..k] == refs[..k];
      VisibleInOrder(refs[..n], k);
    }
  }

  lemma {:induction false} VisibleLength(refs: seq<Ref>)
    ensures |Visible(refs)| == CountSelectable(refs)
  {
    if refs != [] { VisibleLength(refs[..|refs| - 1]); }
  }

  // ------------------------------------------------------------------ one line

  function NameAndPath(r: Ref): string {
    "- `" + r.name + "` (" + r.path + ")"
  }

  /** A line begins with name and path, shows the scope next and ends with the description. */
  lemma LineSays(r: Ref)
    ensures NameAndPath(r) <= EntryLine(r)
    ensures r.scope != [] ==> NameAndPath(r) + " [applies to: " + Join(r.scope, ", ") + "]" <= EntryLine(r)
    ensures r.description != "" ==> EndsWith(EntryLine(r), " \U{2014} " + r.description)
    ensures |EntryLine(r)| == |NameAndPath(r)| + (if r.scope == [] then 0 else 15 + |Join(r.scope, ", ")|)
                              + (if r.description == "" then 0 else 3 + |r.description|)
  {
    var head := NameAndPath(r) + (if r.scope == [] then "" else " [applies to: " + Join(r.scope, ", ") + "]");
    var tail := if r.description == "" then "" else " \U{2014} " + r.description;
    assert EntryLine(r) == head + tail;
    assert (head + tail)[|head|..] == tail;
  }

  predicate EndsWith(s: string, end: string) {
    |end| <= |s| && s[|s| - |end|..] == end
  }

  // ------------------------------------------------------------------ one section

  /** A section that shows anything: its heading, its first `k` entries, a notice if some are missing, a blank line. */
  lemma SectionHolds(title: string, lines: seq<string>, k: nat)
    requires 0 < k <= |lines|
    ensures var s := SectionLines(title, lines, k);
            && |s| == 1 + k + (if k < |lines| then 1 else 0) + 1
            && s[0] == "### " + title && s[|s| - 1] == ""
            && (forall j :: 0 <= j < k ==> s[1 + j] == lines[j])
            && (k < |lines| ==> Announces(s[1 + k], |lines| - k))
  {
    if k < |lines| { NoticeAnnounces(|lines| - k); }
  }

  function NumberOf(digits: string): int {
    if digits == "" then 0
    else 10 * NumberOf(digits[..|digits| - 1]) + (digits[|digits| - 1] as int - '0' as int)
  }

  const NOTICE_END := " more not shown (catalog budget reached)"

  /** The line gives this number in decimal between its fixed words. */
  ghost predicate Announces(line: string, n: nat) {
    exists digits :: line == "- ... " + digits + NOTICE_END && NumberOf(digits) == n
  }

  lemma {:induction false} DigitsSay(n: nat)
    ensures NumberOf(Digits(n)) == n
  {
    if n < 10 {
      assert NumberOf(Digits(n)[..0]) == 0;
    } else {
      DigitsSay(n / 10);
      assert Digits(n)[..|Digits(n)| - 1] == Digits(n / 10);
    }
  }

  lemma NoticeAnnounces(skipped: nat)
    ensures Announces(Notice(skipped), skipped)
  {
    DigitsSay(skipped);
    assert Notice(skipped) == "- ... " + Digits(skipped) + NOTICE_END;
  }

  /** A section asks for exactly what showing all its entries costs. */
  lemma DemandIsFullCost(s: Section)
    ensures DemandOf(s) == Cost(SectionLines(s.title, LinesOf(s), |LinesOf(s)|))
  {
    if LinesOf(s) != [] {
      SectionCost(s.title, LinesOf(s), |LinesOf(s)|);
      assert LinesOf(s)[..|LinesOf(s)|] == LinesOf(s);
    }
  }

  // ------------------------------------------------------------------ the whole catalog

  /** Blocks of lines one after another. */
  function Flat(blocks: seq<seq<string>>): seq<string> {
    if blocks == [] then [] else Flat(blocks[..|blocks| - 1]) + blocks[|blocks| - 1]
  }

  /** The line at which the `i`-th block begins. */
  function StartOf(blocks: seq<seq<string>>, i: nat): nat
    requires i <= |blocks|
  {
    if i == 0 then 0 else StartOf(blocks, i - 1) + |blocks[i - 1]|
  }

  lemma {:induction false} FlatLength(blocks: seq<seq<string>>, n: nat)
    requires n <= |blocks|
    ensures |Flat(blocks[..n])| == StartOf(blocks, n)
  {
    if n > 0 {
      assert blocks[..n][..n - 1] == blocks[..n - 1];
      FlatLength(blocks, n - 1);
    }
  }

  lemma {:induction false} LineInPlace(blocks: seq<seq<string>>, n: nat, i: nat, j: nat)
    requires i < n <= |blocks| && j < |blocks[i]|
    ensures StartOf(blocks, i) + j < |Flat(blocks[..n])| && Flat(blocks[..n])[StartOf(blocks, i) + j] == blocks[i][j]
    decreases n
  {
    assert blocks[..n][..n - 1] == blocks[..n - 1];
    if i < n - 1 { LineInPlace(blocks, n - 1, i, j); } else { FlatLength(blocks, n - 1); }
  }

  /** What each section shows. */
  function Blocks(sections: seq<Section>, level: nat): (r: seq<seq<string>>)
    ensures |r| == |sections|
  {
    if sections == [] then []
    else Blocks(sections[..|sections| - 1], level) + [ShownLines(sections[|sections| - 1], level)]
  }

  lemma {:induction false} BlockAt(sections: seq<Section>, level: nat, i: nat)
    requires i < |sections|
    ensures Blocks(sections, level)[i] == ShownLines(sections[i], level)
    decreases |sections|
  {
    if i < |sections| - 1 { BlockAt(sections[..|sections| - 1], level, i); }
  }

  lemma {:induction false} BodyIsFlat(sections: seq<Section>, level: nat)
    ensures Body(sections, level) == Flat(Blocks(sections, level))
  {
    if sections != [] {
      var init := sections[..|sections| - 1];
      BodyIsFlat(init, level);
      assert Blocks(sections, level)[..|init|] == Blocks(init, level);
    }
  }

  /**
   Each selectable entry among those its section has room for has its line, in its place
   under the section's own heading.
   */
  lemma EntryInPlace(sections: seq<Section>, level: nat, i: nat, k: nat)
    requires i < |sections| && k < |sections[i].refs| && Selectable(sections[i].refs[k])
    requires CountSelectable(sections[i].refs[..k]) < KeptAt(sections[i], level)
    ensures Heads(Body(sections, level), StartOf(Blocks(sections, level), i), sections[i].title,
                  CountSelectable(sections[i].refs[..k]), EntryLine(sections[i].refs[k]))
  {
    var s := sections[i];
    BlockAt(sections, level, i);
    BodyIsFlat(sections, level);
    ShownEntry(s, level, k);
    HeadsInFlat(Blocks(sections, level), i, s.title, CountSelectable(s.refs[..k]), EntryLine(s.refs[k]));
  }

  lemma HeadsInFlat(blocks: seq<seq<string>>, i: nat, title: string, j: nat, line: string)
    requires i < |blocks| && Heads(blocks[i], 0, title, j, line)
    ensures Heads(Flat(blocks), StartOf(blocks, i), title, j, line)
  {
    assert blocks[..|blocks|] == blocks;
    LineInPlace(blocks, |blocks|, i, 0);
    LineInPlace(blocks, |blocks|, i, 1 + j);
  }

  /** The heading stands at this line, and `line` comes `j` entries after it. */
  predicate Heads(lines: seq<string>, at: nat, title: string, j: nat, line: string) {
    at + 1 + j < |lines| && lines[at] == "### " + title && lines[at + 1 + j] == line
  }

  lemma ShownEntry(s: Section, level: nat, k: nat)
    requires k < |s.refs| && Selectable(s.refs[k]) && CountSelectable(s.refs[..k]) < KeptAt(s, level)
    ensures Heads(ShownLines(s, level), 0, s.title, CountSelectable(s.refs[..k]), EntryLine(s.refs[k]))
  {
    VisibleInOrder(s.refs, k);
    SectionHolds(s.title, LinesOf(s), KeptAt(s, level));
  }

  // ------------------------------------------------------------------ the text

  ghost predicate Blank(s: string) {
    forall i :: 0 <= i < |s| ==> IsSpaceChar(s[i])
  }

  ghost predicate Trimmed(s: string) {
    s == "" || (!IsSpaceChar(s[0]) && !IsSpaceChar(s[|s| - 1]))
  }

  lemma {:induction false} StartStripped(s: string) returns (n: nat)
    ensures n <= |s| && Blank(s[..n]) && StripStart(s) == s[n..] && (n < |s| ==> !IsSpaceChar(s[n]))
  {
    if s != "" && IsSpaceChar(s[0]) {
      n := StartStripped(s[1..]);
      assert s[1..][n..] == s[n + 1..] && s[..n + 1] == [s[0]] + s[1..][..n];
      n := n + 1;
    } else {
      n := 0;
    }
  }

  lemma {:induction false} EndStripped(s: string) returns (n: nat)
    ensures n <= |s| && Blank(s[n..]) && StripEnd(s) == s[..n] && (n > 0 ==> !IsSpaceChar(s[n - 1]))
    decreases |s|
  {
    if s != "" && IsSpaceChar(s[|s| - 1]) {
      n := EndStripped(s[..|s| - 1]);
      assert s[..|s| - 1][..n] == s[..n] && s[n..] == s[..|s| - 1][n..] + [s[|s| - 1]];
    } else {
      n := |s|;
    }
  }

  /** The text is the header, a blank line and the joined lines but for white space around them. */
  lemma TextHolds(lines: seq<string>) returns (before: string, core: string, after: string)
    ensures lines == [] ==> Text(lines) == ""
    ensures lines != [] ==> Text(lines) == HEADER + "\n\n" + core
    ensures lines != [] ==> Join(lines, "\n") == before + core + after && Blank(before) && Blank(after) && Trimmed(core)
  {
    before, core, after := Stripped(Join(lines, "\n"));
  }

  lemma Stripped(all: string) returns (before: string, core: string, after: string)
    ensures StripEnd(StripStart(all)) == core && all == before + core + after
    ensures Blank(before) && Blank(after) && Trimmed(core)
  {
    var a := StartStripped(all);
    var rest := StripStart(all);
    var b := EndStripped(rest);
    before, core, after := all[..a], rest[..b], rest[b..];
    assert all == before + rest && rest == core + after;
    assert b > 0 ==> core[0] == rest[0] == all[a] && core[b - 1] == rest[b - 1];
  }

  /** Every kind has its section, in this order, under its own heading and its own key. */
  lemma KindsInOrder(m: Manifest, i: nat)
    requires i < |Sections(m)|
    ensures |Sections(m)| == 4
    ensures Sections(m)[i].title == ["Skills", "Commands", "Agents", "Rules"][i]
    ensures Sections(m)[i].key == ["skills", "commands", "agents", "rules"][i]
    ensures Sections(m)[i].refs == [m.skills, m.commands, m.agents, m.rules][i]
    ensures DistinctKeys(Sections(m))
  {
    assert i == 0 || i == 1 || i == 2 || i == 3;
  }
}
