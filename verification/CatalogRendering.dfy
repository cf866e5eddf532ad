/**
 The capability catalog: entries of four kinds rendered under one character budget, shared
 out by FairAllocation, each section a prefix of its entries with a notice of what is missing.
 */
module CatalogRendering {
  import opened Common
  import FA = FairAllocation

  datatype Policy = Eager | Scoped | ModelDiscoverable | ExplicitOnly

  datatype Ref = Ref(name: string, path: string, kind: string, description: string, policy: Policy, scope: seq<string>)

  /** `key` is the title in lower case. */
  datatype Section = Section(title: string, key: string, refs: seq<Ref>)

  datatype Manifest = Manifest(skills: seq<Ref>, commands: seq<Ref>, agents: seq<Ref>, rules: seq<Ref>)

  const SECTION_OVERHEAD := 6
  const OMISSION_NOTICE_CHARS := 56

  const PROGRESSIVE_DISCLOSURE_INSTRUCTION :=
    "Catalog entries list names, relative paths, and short descriptions only. "
    + "They are references \U{2014} not loaded content. Before following any skill, command, "
    + "rule, or agent entry, read the referenced file with your available filesystem "
    + "tools and apply what you read."

  const HEADER :=
    "## Available capabilities (NOT loaded yet)\n" + PROGRESSIVE_DISCLOSURE_INSTRUCTION
    + "\nPaths are relative to the workspace root."

  function Sections(m: Manifest): seq<Section> {
    [Section("Skills", "skills", m.skills), Section("Commands", "commands", m.commands),
     Section("Agents", "agents", m.agents), Section("Rules", "rules", m.rules)]
  }

  // ------------------------------------------------------------------ entries

  predicate IsCatalogued(r: Ref) {
    match r.policy
    case Eager => false
    case ExplicitOnly => r.kind == "command"
    case _ => true
  }

  function Visible(refs: seq<Ref>): seq<Ref> {
    if refs == [] then []
    else Visible(refs[..|refs| - 1]) + (if IsCatalogued(refs[|refs| - 1]) then [refs[|refs| - 1]] else [])
  }

  function EntryLine(r: Ref): string {
    "- `" + r.name + "` (" + r.path + ")"
    + (if r.scope == [] then "" else " [applies to: " + Join(r.scope, ", ") + "]")
    + (if r.description == "" then "" else " \U{2014} " + r.description)
  }

  function EntryLines(refs: seq<Ref>): (r: seq<string>)
    ensures |r| == |refs|
  {
    seq(|refs|, i requires 0 <= i < |refs| => EntryLine(refs[i]))
  }

  /** What lines take once each ends in a newline. */
  function Cost(lines: seq<string>): nat {
    if lines == [] then 0 else Cost(lines[..|lines| - 1]) + |lines[|lines| - 1]| + 1
  }

  lemma {:induction false} CostMonotone(lines: seq<string>, k: nat, n: nat)
    requires k <= n <= |lines|
    ensures Cost(lines[..k]) <= Cost(lines[..n])
    decreases n
  {
    if k < n {
      CostMonotone(lines, k, n - 1);
      assert lines[..n][..n - 1] == lines[..n - 1];
    }
  }

  // ------------------------------------------------------------------ filling one section

  /** As many leading lines as fit. */
  ghost predicate Fits(lines: seq<string>, available: int, k: nat) {
    && k <= |lines|
    && Cost(lines[..k]) <= Max(available, 0)
    && (k < |lines| ==> Cost(lines[..k + 1]) > available)
  }

  function FillFrom(lines: seq<string>, k: nat, available: int): (r: nat)
    requires k <= |lines|
    ensures k <= r <= |lines|
    decreases |lines| - k
  {
    if k == |lines| || |lines[k]| + 1 > available then k else FillFrom(lines, k + 1, available - |lines[k]| - 1)
  }

  lemma {:induction false} FillIsMaximal(lines: seq<string>, k: nat, available: int)
    requires k <= |lines| && Cost(lines[..k]) <= Max(available, 0) && (k > 0 ==> available >= 0)
    ensures Fits(lines, available, FillFrom(lines, k, available - Cost(lines[..k])))
    decreases |lines| - k
  {
    if k < |lines| {
      assert lines[..k + 1][..k] == lines[..k];
      if |lines[k]| + 1 <= available - Cost(lines[..k]) {
        FillIsMaximal(lines, k + 1, available);
      }
    }
  }

  method Fill(lines: seq<string>, available0: int) returns (kept: seq<string>)
    ensures kept == lines[..FillFrom(lines, 0, available0)]
  {
    kept := [];
    var available := available0;
    for n := 0 to |lines|
      invariant kept == lines[..n]
      invariant FillFrom(lines, n, available) == FillFrom(lines, 0, available0)
    {
      var cost := |lines[n]| + 1;
      if cost > available {
        return;
      }
      kept := kept + [lines[n]];
      available := available - cost;
    }
  }

  // ------------------------------------------------------------------ one section under its share

  /** The share a section asks for: everything it could show, or nothing when it has no entries. */
  function Demand(title: string, lines: seq<string>): nat {
    if lines == [] then 0 else Cost(lines) + SECTION_OVERHEAD + |title|
  }

  /** How many entries fit this room; a cut section keeps room for the notice. */
  function Kept(lines: seq<string>, available: int): (k: nat)
    ensures k <= |lines|
  {
    if FillFrom(lines, 0, available) < |lines| then FillFrom(lines, 0, available - OMISSION_NOTICE_CHARS) else |lines|
  }

  function Digits(n: nat): string {
    if n < 10 then [(n as char) + '0'] else Digits(n / 10) + [((n % 10) as char) + '0']
  }

  function Notice(skipped: nat): string {
    "- ... " + Digits(skipped) + " more not shown (catalog budget reached)"
  }

  function SectionLines(title: string, lines: seq<string>, k: nat): seq<string>
    requires k <= |lines|
  {
    if k == 0 then []
    else ["### " + title] + lines[..k] + (if k < |lines| then [Notice(|lines| - k)] else []) + [""]
  }

  function Power10(k: nat): nat {
    if k == 0 then 1 else 10 * Power10(k - 1)
  }

  lemma {:induction false} DigitCount(n: nat, k: nat)
    requires n < Power10(k) && k > 0
    ensures |Digits(n)| <= k
  {
    if n >= 10 {
      DigitCount(n / 10, k - 1);
    }
  }

  lemma {:induction false} CostConcat(a: seq<string>, b: seq<string>)
    ensures Cost(a + b) == Cost(a) + Cost(b)
    decreases |b|
  {
    if b == [] {
      assert a + b == a;
    } else {
      assert (a + b)[..|a + b| - 1] == a + b[..|b| - 1];
      CostConcat(a, b[..|b| - 1]);
    }
  }

  /** A section, its heading and notice included, stays within its share. */
  lemma SectionWithinShare(title: string, lines: seq<string>, share: nat)
    requires |lines| < 1_000_000_000
    ensures Cost(SectionLines(title, lines, Kept(lines, share - (SECTION_OVERHEAD + |title|)))) <= share
  {
    var available := share - (SECTION_OVERHEAD + |title|);
    var k := Kept(lines, available);
    FillIsMaximal(lines, 0, available);
    FillIsMaximal(lines, 0, available - OMISSION_NOTICE_CHARS);
    assert lines[..0] == [];
    if k > 0 {
      SectionCost(title, lines, k);
      if k < |lines| {
        NoticeFits(|lines| - k);
        NothingFitsInNothing(lines, available - OMISSION_NOTICE_CHARS, k);
      } else {
        NothingFitsInNothing(lines, available, k);
      }
    }
  }

  lemma {:induction false} NothingFitsInNothing(lines: seq<string>, available: int, k: nat)
    requires 0 < k <= |lines| && Cost(lines[..k]) <= Max(available, 0)
    ensures available > 0
  {
  }

  lemma NoticeFits(skipped: nat)
    requires skipped < 1_000_000_000
    ensures |Notice(skipped)| + 1 <= OMISSION_NOTICE_CHARS
  {
    assert Power10(9) == 1_000_000_000;
    DigitCount(skipped, 9);
  }

  lemma SectionCost(title: string, lines: seq<string>, k: nat)
    requires 0 < k <= |lines|
    ensures Cost(SectionLines(title, lines, k))
            == SECTION_OVERHEAD + |title| + Cost(lines[..k]) + (if k < |lines| then |Notice(|lines| - k)| + 1 else 0)
  {
    var head, notice := ["### " + title], if k < |lines| then [Notice(|lines| - k)] else [];
    CostConcat(head, lines[..k]);
    CostConcat(head + lines[..k], notice);
    CostConcat(head + lines[..k] + notice, [""]);
    assert Cost(head) == Cost([]) + 4 + |title| + 1;
    assert Cost([""]) == Cost([]) + 1;
    assert k < |lines| ==> Cost(notice) == Cost([]) + |Notice(|lines| - k)| + 1;
  }

  // ------------------------------------------------------------------ the catalog

  function LinesOf(s: Section): seq<string> {
    EntryLines(Visible(s.refs))
  }

  function DemandOf(s: Section): nat {
    Demand(s.title, LinesOf(s))
  }

  function Demands(sections: seq<Section>): seq<int> {
    if sections == [] then [] else Demands(sections[..|sections| - 1]) + [DemandOf(sections[|sections| - 1])]
  }

  lemma {:induction false} DemandAt(sections: seq<Section>, i: nat)
    requires i < |sections|
    ensures |Demands(sections)| == |sections| && Demands(sections)[i] == DemandOf(sections[i])
    decreases |sections|
  {
    if i < |sections| - 1 {
      DemandAt(sections[..|sections| - 1], i);
    } else if i > 0 {
      DemandAt(sections[..i], i - 1);
    }
  }

  /** How many entries a section shows when the shares come from this water level. */
  function KeptAt(s: Section, level: nat): (k: nat)
    ensures k <= |LinesOf(s)|
  {
    Kept(LinesOf(s), FA.AtLevel(DemandOf(s), level) - (SECTION_OVERHEAD + |s.title|))
  }

  function Body(sections: seq<Section>, level: nat): seq<string> {
    if sections == [] then []
    else
      Body(sections[..|sections| - 1], level) + ShownLines(sections[|sections| - 1], level)
  }

  function Omitted(sections: seq<Section>, level: nat): map<string, nat> {
    if sections == [] then map[]
    else
      WithSkipped(Omitted(sections[..|sections| - 1], level), sections[|sections| - 1], level)
  }

  function WithSkipped(omitted: map<string, nat>, s: Section, level: nat): map<string, nat> {
    var skipped := |LinesOf(s)| - KeptAt(s, level);
    if skipped > 0 then omitted[s.key := skipped] else omitted
  }

  function ShownLines(s: Section, level: nat): seq<string> {
    SectionLines(s.title, LinesOf(s), KeptAt(s, level))
  }

  function StripEnd(s: string): string {
    if s != "" && IsSpaceChar(s[|s| - 1]) then StripEnd(s[..|s| - 1]) else s
  }

  function StripStart(s: string): string {
    if s != "" && IsSpaceChar(s[0]) then StripStart(s[1..]) else s
  }

  function Text(lines: seq<string>): string {
    if lines == [] then "" else HEADER + "\n\n" + StripEnd(StripStart(Join(lines, "\n")))
  }

  /** What is left for the sections once the header is paid. */
  function BodyBudget(budget: int): int {
    Max(budget - |HEADER| - 2, 0)
  }

  /** Lines and omissions of a fair split of `available`. */
  ghost predicate FairlyRendered(sections: seq<Section>, available: int, level: nat, lines: seq<string>, omitted: map<string, nat>) {
    && FA.IsWaterLevel(Demands(sections), available, level)
    && lines == Body(sections, level) && omitted == Omitted(sections, level)
  }

  method RenderCatalog(manifest: Manifest, budget: int) returns (text: string, omitted: map<string, nat>)
    ensures exists level: nat, lines :: FairlyRendered(Sections(manifest), BodyBudget(budget), level, lines, omitted) && text == Text(lines)
    ensures Countable(Sections(manifest)) ==> |text| <= Max(budget, 0)
  {
    var lines;
    lines, omitted := RenderSections(Sections(manifest), BodyBudget(budget));
    text := Text(lines);
    if Countable(Sections(manifest)) {
      ghost var level: nat :| FairlyRendered(Sections(manifest), BodyBudget(budget), level, lines, omitted);
      TextWithinBudget(Sections(manifest), budget, level);
    }
  }

  method RenderSections(sections: seq<Section>, available: int) returns (lines: seq<string>, omitted: map<string, nat>)
    ensures exists level: nat :: FairlyRendered(sections, available, level, lines, omitted)
  {
    var allocation := FA.Allocate(Demands(sections), available);
    ghost var level: nat :| FA.IsWaterLevel(Demands(sections), available, level) && allocation == FA.Pour(Demands(sections), level);
    lines, omitted := RenderShares(sections, level, allocation);
    assert FairlyRendered(sections, available, level, lines, omitted);
  }

  method RenderShares(sections: seq<Section>, ghost level: nat, allocation: seq<nat>)
    returns (lines: seq<string>, omitted: map<string, nat>)
    requires allocation == FA.Pour(Demands(sections), level)
    ensures lines == Body(sections, level) && omitted == Omitted(sections, level)
  {
    lines, omitted := [], map[];
    for n := 0 to |sections|
      invariant lines == Body(sections[..n], level) && omitted == Omitted(sections[..n], level)
    {
      var s := sections[n];
      ShareAt(sections, n, level);
      OneSectionMore(sections, n, level);
      lines, omitted := AddSection(lines, omitted, s, level, allocation[n]);
    }
    assert sections[..|sections|] == sections;
  }

  lemma ShareAt(sections: seq<Section>, n: nat, level: nat)
    requires n < |sections|
    ensures var shares := FA.Pour(Demands(sections), level);
            |shares| == |sections| && shares[n] == FA.AtLevel(DemandOf(sections[n]), level)
  {
    DemandAt(sections, n);
  }

  lemma OneSectionMore(sections: seq<Section>, n: nat, level: nat)
    requires n < |sections|
    ensures Body(sections[..n + 1], level) == Body(sections[..n], level) + ShownLines(sections[n], level)
    ensures Omitted(sections[..n + 1], level) == WithSkipped(Omitted(sections[..n], level), sections[n], level)
  {
    assert sections[..n + 1][..n] == sections[..n];
  }

  method AddSection(lines0: seq<string>, omitted0: map<string, nat>, s: Section, ghost level: nat, share: nat)
    returns (lines: seq<string>, omitted: map<string, nat>)
    requires share == FA.AtLevel(DemandOf(s), level)
    ensures lines == lines0 + ShownLines(s, level) && omitted == WithSkipped(omitted0, s, level)
  {
    var kept := FillSection(s, level, share);
    var skipped: nat := |LinesOf(s)| - |kept|;
    omitted := omitted0;
    if skipped > 0 {
      omitted := omitted[s.key := skipped];
    }
    var section := Heading(s.title, kept, skipped);
    lines := lines0 + section;
  }

  method FillSection(s: Section, ghost level: nat, share: nat) returns (kept: seq<string>)
    requires share == FA.AtLevel(DemandOf(s), level)
    ensures kept == LinesOf(s)[..KeptAt(s, level)]
  {
    var entries := LinesOf(s);
    var available := share - (SECTION_OVERHEAD + |s.title|);
    kept := Fill(entries, available);
    if |kept| < |entries| {
      kept := Fill(entries, available - OMISSION_NOTICE_CHARS);
    }
  }

  method Heading(title: string, kept: seq<string>, skipped: nat) returns (lines: seq<string>)
    ensures kept == [] ==> lines == []
    ensures kept != [] ==> lines == ["### " + title] + kept + (if skipped > 0 then [Notice(skipped)] else []) + [""]
  {
    lines := [];
    if kept != [] {
      lines := lines + ["### " + title];
      lines := lines + kept;
      if skipped > 0 {
        lines := lines + [Notice(skipped)];
      }
      lines := lines + [""];
    }
  }

  // ------------------------------------------------------------------ what the reader is promised

  lemma {:induction false} JoinLength(lines: seq<string>)
    requires lines != []
    ensures |Join(lines, "\n")| == Cost(lines) - 1
  {
    if |lines| == 1 {
      assert lines[..0] == [];
    } else {
      JoinLength(lines[..|lines| - 1]);
    }
  }

  lemma {:induction false} StripShortens(s: string)
    ensures |StripEnd(s)| <= |s| && |StripStart(s)| <= |s|
  {
    if s != "" {
      StripShortens(s[..|s| - 1]);
      StripShortens(s[1..]);
    }
  }

  predicate Countable(sections: seq<Section>) {
    forall i :: 0 <= i < |sections| ==> |LinesOf(sections[i])| < 1_000_000_000
  }

  lemma ShownWithinShare(s: Section, level: nat)
    requires |LinesOf(s)| < 1_000_000_000
    ensures Cost(ShownLines(s, level)) <= FA.AtLevel(DemandOf(s), level)
  {
    SectionWithinShare(s.title, LinesOf(s), FA.AtLevel(DemandOf(s), level));
  }

  lemma {:induction false} BodyWithinShares(sections: seq<Section>, level: nat)
    requires Countable(sections)
    ensures Cost(Body(sections, level)) <= FA.Poured(Demands(sections), level)
  {
    if sections != [] {
      var s, init := sections[|sections| - 1], sections[..|sections| - 1];
      BodyWithinShares(init, level);
      ShownWithinShare(s, level);
      CostConcat(Body(init, level), ShownLines(s, level));
      assert Demands(sections)[..|Demands(sections)| - 1] == Demands(init);
    }
  }

  /** The budget is a hard ceiling on the whole text, header and notices included. */
  lemma TextWithinBudget(sections: seq<Section>, budget: int, level: nat)
    requires FA.IsWaterLevel(Demands(sections), BodyBudget(budget), level) && Countable(sections)
    ensures |Text(Body(sections, level))| <= Max(budget, 0)
  {
    var lines := Body(sections, level);
    BodyWithinShares(sections, level);
    if lines != [] {
      JoinLength(lines);
      TextLength(lines);
    }
  }

  lemma TextLength(lines: seq<string>)
    requires lines != []
    ensures |Text(lines)| <= |HEADER| + 2 + |Join(lines, "\n")|
  {
    StripShortens(Join(lines, "\n"));
    StripShortens(StripStart(Join(lines, "\n")));
  }

  /** A section is cut only because all its entries, and one entry more with the notice, would overrun its share. */
  lemma CutOnlyWhenFull(lines: seq<string>, available: int)
    requires Kept(lines, available) < |lines|
    ensures Cost(lines) > available
    ensures Cost(lines[..Kept(lines, available) + 1]) + OMISSION_NOTICE_CHARS > available
  {
    TooLong(lines, available);
    FillStops(lines, available - OMISSION_NOTICE_CHARS);
  }

  lemma TooLong(lines: seq<string>, available: int)
    requires FillFrom(lines, 0, available) < |lines|
    ensures Cost(lines) > available
  {
    FillStops(lines, available);
    CostMonotone(lines, FillFrom(lines, 0, available) + 1, |lines|);
    assert lines[..|lines|] == lines;
  }

  lemma FillStops(lines: seq<string>, available: int)
    requires FillFrom(lines, 0, available) < |lines|
    ensures Cost(lines[..FillFrom(lines, 0, available) + 1]) > available
  {
    assert lines[..0] == [];
    FillIsMaximal(lines, 0, available);
  }

  /** When the whole demand fits, every visible entry is shown. */
  lemma EverythingShownWhenItFits(sections: seq<Section>, budget: int, level: nat, i: nat)
    requires FA.IsWaterLevel(Demands(sections), BodyBudget(budget), level) && i < |sections|
    requires FA.Need(Demands(sections)) <= Max(budget - |HEADER| - 2, 0)
    ensures KeptAt(sections[i], level) == |Visible(sections[i].refs)|
  {
    var s := sections[i];
    DemandAt(sections, i);
    FA.SatisfiedIffItFits(Demands(sections), BodyBudget(budget), level);
    FullShareShowsAll(s, level);
  }

  lemma FullShareShowsAll(s: Section, level: nat)
    requires FA.AtLevel(DemandOf(s), level) == DemandOf(s)
    ensures KeptAt(s, level) == |LinesOf(s)|
  {
    var available := DemandOf(s) - (SECTION_OVERHEAD + |s.title|);
    if Kept(LinesOf(s), available) < |LinesOf(s)| {
      CutOnlyWhenFull(LinesOf(s), available);
    }
  }

  predicate DistinctKeys(sections: seq<Section>) {
    forall a, b :: 0 <= a < b < |sections| ==> sections[a].key != sections[b].key
  }

  /** Shown plus omitted is visible: nothing of the section is dropped without being counted. */
  predicate Counted(omitted: map<string, nat>, s: Section, level: nat) {
    KeptAt(s, level) + (if s.key in omitted then omitted[s.key] else 0) == |Visible(s.refs)|
  }

  lemma CountedHere(omitted: map<string, nat>, s: Section, level: nat)
    requires s.key !in omitted
    ensures Counted(WithSkipped(omitted, s, level), s, level)
  {
  }

  lemma CountedStill(omitted: map<string, nat>, s: Section, later: Section, level: nat)
    requires Counted(omitted, s, level) && later.key != s.key
    ensures Counted(WithSkipped(omitted, later, level), s, level)
  {
  }

  lemma {:induction false} ShownPlusOmitted(sections: seq<Section>, level: nat, i: nat)
    requires i < |sections| && DistinctKeys(sections)
    ensures Counted(Omitted(sections, level), sections[i], level)
    decreases |sections|
  {
    var n := |sections| - 1;
    var init := sections[..n];
    if i < n {
      ShownPlusOmitted(init, level, i);
      CountedStill(Omitted(init, level), sections[i], sections[n], level);
    } else {
      NotYetOmitted(init, level, sections[i].key);
      CountedHere(Omitted(init, level), sections[i], level);
    }
  }

  lemma {:induction false} NotYetOmitted(sections: seq<Section>, level: nat, key: string)
    requires forall a :: 0 <= a < |sections| ==> sections[a].key != key
    ensures key !in Omitted(sections, level)
  {
    if sections != [] { NotYetOmitted(sections[..|sections| - 1], level, key); }
  }
}
