/**
 Primitive discovery: every catalog entry goes through one transaction that deduplicates,
 applies the per-kind ceiling, scans, then appends. The loops around it stop early; the
 specification considers every candidate.
 */
module Discovery {
  import opened Common

  datatype Kind = Skill | Command | Agent | Rule

  datatype Ref = Ref(name: string, path: string, kind: Kind)

  datatype Note = CeilingReached(kind: Kind) | OtherNote(text: string)

  /** A workspace path as text: its components never contain a backslash. */
  type PosixPath = p: string | '\\' !in p

  datatype Candidate = Candidate(kind: Kind, path: PosixPath)

  datatype AddOutcome = Added | Duplicate | Rejected | Ceiling

  datatype Manifest = Manifest(skills: seq<Ref>, commands: seq<Ref>, agents: seq<Ref>, rules: seq<Ref>, notes: seq<Note>)

  datatype State = State(manifest: Manifest, seen: set<string>, capped: set<Kind>)

  /** What scanning the file learns: its name, or None when it cannot be read safely. */
  type Scanner = (Kind, string) -> Option<string>

  const MAX_PRIMITIVES_PER_KIND := 200

  const ALL_KINDS: set<Kind> := {Skill, Command, Agent, Rule}

  function Bucket(m: Manifest, k: Kind): seq<Ref> {
    match k case Skill => m.skills case Command => m.commands case Agent => m.agents case Rule => m.rules
  }

  function Append(m: Manifest, r: Ref): Manifest {
    match r.kind
    case Skill => m.(skills := m.skills + [r])
    case Command => m.(commands := m.commands + [r])
    case Agent => m.(agents := m.agents + [r])
    case Rule => m.(rules := m.rules + [r])
  }

  function Forward(path: string): string {
    if path == "" then "" else [if path[0] == '\\' then '/' else path[0]] + Forward(path[1..])
  }

  lemma {:induction false} ForwardKeeps(path: PosixPath)
    ensures Forward(path) == path
  {
    if path != "" {
      assert '\\' !in path[1..];
      ForwardKeeps(path[1..]);
    }
  }

  // ------------------------------------------------------------------ the transaction

  function Announce(s: State, k: Kind): State {
    if k in s.capped then s
    else s.(capped := s.capped + {k}, manifest := s.manifest.(notes := s.manifest.notes + [CeilingReached(k)]))
  }

  function Considered(scan: Scanner, s: State, c: Candidate): (State, AddOutcome) {
    if c.path in s.seen then (s, Duplicate)
    else if |Bucket(s.manifest, c.kind)| >= MAX_PRIMITIVES_PER_KIND then (Announce(s, c.kind), Ceiling)
    else match scan(c.kind, c.path)
         case None => (s, Rejected)
         case Some(name) =>
           (s.(manifest := Append(s.manifest, Ref(name, c.path, c.kind)), seen := s.seen + {c.path}), Added)
  }

  function ConsiderAll(scan: Scanner, s: State, candidates: seq<Candidate>): State
    decreases |candidates|
  {
    if candidates == [] then s else ConsiderAll(scan, Considered(scan, s, candidates[0]).0, candidates[1..])
  }

  function OfKind(k: Kind, paths: seq<PosixPath>): seq<Candidate> {
    seq(|paths|, i requires 0 <= i < |paths| => Candidate(k, paths[i]))
  }

  /** One pattern of the capability roots with the files it matches, in walk order. */
  datatype Source = Source(kind: Kind, paths: seq<PosixPath>)

  function Candidates(sources: seq<Source>): seq<Candidate> {
    if sources == [] then [] else OfKind(sources[0].kind, sources[0].paths) + Candidates(sources[1..])
  }

  // ------------------------------------------------------------------ what discovery guarantees

  predicate CappedAreFull(s: State) {
    forall k :: k in s.capped ==> |Bucket(s.manifest, k)| >= MAX_PRIMITIVES_PER_KIND
  }

  predicate Listed(m: Manifest, path: string) {
    exists k, i :: 0 <= i < |Bucket(m, k)| && Forward(Bucket(m, k)[i].path) == path
  }

  ghost predicate SeenIsListed(s: State) {
    forall p :: p in s.seen <==> Listed(s.manifest, p)
  }

  predicate SamePlace(m: Manifest, k1: Kind, i1: nat, k2: Kind, i2: nat)
    requires i1 < |Bucket(m, k1)| && i2 < |Bucket(m, k2)|
  {
    Forward(Bucket(m, k1)[i1].path) == Forward(Bucket(m, k2)[i2].path) ==> k1 == k2 && i1 == i2
  }

  predicate ListedOnce(m: Manifest) {
    forall k1, i1, k2, i2 :: 0 <= i1 < |Bucket(m, k1)| && 0 <= i2 < |Bucket(m, k2)| ==> SamePlace(m, k1, i1, k2, i2)
  }

  predicate WithinCeiling(m: Manifest) {
    forall k :: |Bucket(m, k)| <= MAX_PRIMITIVES_PER_KIND
  }

  function CeilingNotes(notes: seq<Note>, k: Kind): nat {
    if notes == [] then 0
    else CeilingNotes(notes[..|notes| - 1], k) + (if notes[|notes| - 1] == CeilingReached(k) then 1 else 0)
  }

  predicate AnnouncedOnce(s: State) {
    forall k :: CeilingNotes(s.manifest.notes, k) == if k in s.capped then 1 else 0
  }

  ghost predicate Sound(s: State) {
    CappedAreFull(s) && SeenIsListed(s) && ListedOnce(s.manifest) && WithinCeiling(s.manifest) && AnnouncedOnce(s)
  }

  lemma AppendedBuckets(m: Manifest, r: Ref)
    ensures forall k :: Bucket(Append(m, r), k) == if k == r.kind then Bucket(m, k) + [r] else Bucket(m, k)
  {
  }

  lemma AddKeepsSeen(s: State, r: Ref)
    requires SeenIsListed(s) && Forward(r.path) == r.path
    ensures SeenIsListed(s.(manifest := Append(s.manifest, r), seen := s.seen + {r.path}))
  {
    var m, m' := s.manifest, Append(s.manifest, r);
    AppendedBuckets(m, r);
    forall p ensures p in s.seen + {r.path} <==> Listed(m', p) {
      if p in s.seen {
        var k, i :| 0 <= i < |Bucket(m, k)| && Forward(Bucket(m, k)[i].path) == p;
        assert Bucket(m', k)[i] == Bucket(m, k)[i];
      }
      if p == r.path {
        assert Bucket(m', r.kind)[|Bucket(m, r.kind)|] == r;
      }
      if Listed(m', p) {
        var k, i :| 0 <= i < |Bucket(m', k)| && Forward(Bucket(m', k)[i].path) == p;
        if i < |Bucket(m, k)| {
          assert Bucket(m', k)[i] == Bucket(m, k)[i];
          assert Listed(m, p);
        }
      }
    }
  }

  lemma AddKeepsOnce(s: State, r: Ref)
    requires SeenIsListed(s) && ListedOnce(s.manifest) && Forward(r.path) == r.path && r.path !in s.seen
    ensures ListedOnce(Append(s.manifest, r))
  {
    var m, m' := s.manifest, Append(s.manifest, r);
    AppendedBuckets(m, r);
    forall k1, i1, k2, i2 | 0 <= i1 < |Bucket(m', k1)| && 0 <= i2 < |Bucket(m', k2)| ensures SamePlace(m', k1, i1, k2, i2) {
      var old1, old2 := i1 < |Bucket(m, k1)|, i2 < |Bucket(m, k2)|;
      if old1 { assert Bucket(m', k1)[i1] == Bucket(m, k1)[i1]; assert Listed(m, Forward(Bucket(m, k1)[i1].path)); }
      if old2 { assert Bucket(m', k2)[i2] == Bucket(m, k2)[i2]; assert Listed(m, Forward(Bucket(m, k2)[i2].path)); }
      if old1 && old2 { assert SamePlace(m, k1, i1, k2, i2); }
    }
  }

  /** One candidate: duplicates, overflow, unreadable files and additions all keep the guarantees. */
  lemma ConsideredKeeps(scan: Scanner, s: State, c: Candidate)
    requires Sound(s)
    ensures Sound(Considered(scan, s, c).0)
  {
    var (s', outcome) := Considered(scan, s, c);
    ForwardKeeps(c.path);
    match outcome {
      case Added =>
        var r := Ref(scan(c.kind, c.path).value, c.path, c.kind);
        AddKeepsSeen(s, r);
        AddKeepsOnce(s, r);
        AppendedBuckets(s.manifest, r);
      case Ceiling =>
        AnnounceKeeps(s, c.kind);
      case _ =>
    }
  }

  lemma SameBuckets(m: Manifest, m': Manifest)
    requires m' == m.(notes := m'.notes)
    ensures forall p :: Listed(m', p) <==> Listed(m, p)
    ensures ListedOnce(m) ==> ListedOnce(m')
  {
    assert forall k :: Bucket(m', k) == Bucket(m, k);
    forall p ensures Listed(m', p) <==> Listed(m, p) {
      if Listed(m, p) {
        var k, i :| 0 <= i < |Bucket(m, k)| && Forward(Bucket(m, k)[i].path) == p;
        assert Forward(Bucket(m', k)[i].path) == p;
      }
    }
    if ListedOnce(m) {
      forall k1, i1, k2, i2 | 0 <= i1 < |Bucket(m', k1)| && 0 <= i2 < |Bucket(m', k2)| ensures SamePlace(m', k1, i1, k2, i2) {
        assert SamePlace(m, k1, i1, k2, i2);
      }
    }
  }

  lemma AnnouncedIsCounted(notes: seq<Note>, k: Kind, q: Kind)
    ensures CeilingNotes(notes + [CeilingReached(k)], q) == CeilingNotes(notes, q) + (if q == k then 1 else 0)
  {
    assert (notes + [CeilingReached(k)])[..|notes|] == notes;
  }

  lemma AnnounceKeeps(s: State, k: Kind)
    requires Sound(s) && |Bucket(s.manifest, k)| >= MAX_PRIMITIVES_PER_KIND
    ensures Sound(Announce(s, k))
  {
    if k !in s.capped {
      var s' := Announce(s, k);
      SameBuckets(s.manifest, s'.manifest);
      assert CappedAreFull(s') && WithinCeiling(s'.manifest) by {
        assert forall q :: Bucket(s'.manifest, q) == Bucket(s.manifest, q);
      }
      forall q ensures CeilingNotes(s'.manifest.notes, q) == if q in s'.capped then 1 else 0 {
        AnnouncedIsCounted(s.manifest.notes, k, q);
      }
    }
  }

  lemma AnyKind(k: Kind)
    ensures k in ALL_KINDS
  {
    match k { case Skill => case Command => case Agent => case Rule => }
  }

  lemma {:induction false} ConsiderAllKeeps(scan: Scanner, s: State, candidates: seq<Candidate>)
    requires Sound(s)
    ensures Sound(ConsiderAll(scan, s, candidates))
    decreases |candidates|
  {
    if candidates != [] {
      ConsideredKeeps(scan, s, candidates[0]);
      ConsiderAllKeeps(scan, Considered(scan, s, candidates[0]).0, candidates[1..]);
    }
  }

  /** Nothing disappears silently: a candidate is listed, unreadable, or its kind's overflow was announced. */
  lemma {:induction false} NothingLostSilently(scan: Scanner, s: State, candidates: seq<Candidate>, c: Candidate)
    requires c in candidates
    ensures var s' := ConsiderAll(scan, s, candidates);
            c.path in s'.seen || scan(c.kind, c.path).None? || c.kind in s'.capped
    decreases |candidates|
  {
    var s1 := Considered(scan, s, candidates[0]).0;
    if c == candidates[0] {
      ConsideringGrows(scan, s1, candidates[1..]);
    } else {
      NothingLostSilently(scan, s1, candidates[1..], c);
    }
  }

  lemma {:induction false} ConsideringGrows(scan: Scanner, s: State, candidates: seq<Candidate>)
    ensures var s' := ConsiderAll(scan, s, candidates); s.seen <= s'.seen && s.capped <= s'.capped
    decreases |candidates|
  {
    if candidates != [] {
      ConsideringGrows(scan, Considered(scan, s, candidates[0]).0, candidates[1..]);
    }
  }

  /** The manifest with this reference at the end of its kind's list. */
  predicate Gained(m: Manifest, r: Ref, m': Manifest) {
    && (r.kind == Skill ==> m' == m.(skills := m.skills + [r]))
    && (r.kind == Command ==> m' == m.(commands := m.commands + [r]))
    && (r.kind == Agent ==> m' == m.(agents := m.agents + [r]))
    && (r.kind == Rule ==> m' == m.(rules := m.rules + [r]))
  }

  predicate Full(m: Manifest, k: Kind) {
    && (k == Skill ==> |m.skills| >= 200) && (k == Command ==> |m.commands| >= 200)
    && (k == Agent ==> |m.agents| >= 200) && (k == Rule ==> |m.rules| >= 200)
  }

  predicate Overflowed(s: State, k: Kind, s': State) {
    && s'.seen == s.seen && s'.capped == s.capped + {k}
    && s'.manifest == s.manifest.(notes := s.manifest.notes + (if k in s.capped then [] else [CeilingReached(k)]))
  }

  /** The transaction, outcome by outcome: seen paths first, then the ceiling, then the scan. */
  predicate Transacted(scan: Scanner, s: State, kind: Kind, path: string, s': State, outcome: AddOutcome) {
    && (path in s.seen ==> outcome == Duplicate && s' == s)
    && (path !in s.seen && Full(s.manifest, kind) ==> outcome == Ceiling && Overflowed(s, kind, s'))
    && (path !in s.seen && !Full(s.manifest, kind) && scan(kind, path).None? ==> outcome == Rejected && s' == s)
    && (path !in s.seen && !Full(s.manifest, kind) && scan(kind, path).Some? ==>
      && outcome == Added && s'.seen == s.seen + {path} && s'.capped == s.capped
      && Gained(s.manifest, Ref(scan(kind, path).value, path, kind), s'.manifest))
  }

  lemma ConsideredTransacts(scan: Scanner, s: State, c: Candidate)
    ensures Transacted(scan, s, c.kind, c.path, Considered(scan, s, c).0, Considered(scan, s, c).1)
  {
    AnyKind(c.kind);
    assert Full(s.manifest, c.kind) <==> |Bucket(s.manifest, c.kind)| >= MAX_PRIMITIVES_PER_KIND;
  }

  /** Every entry is in the list of its kind under the name its file was scanned with. */
  predicate AsScanned(scan: Scanner, refs: seq<Ref>, kind: Kind) {
    forall i :: 0 <= i < |refs| ==> refs[i].kind == kind && scan(kind, refs[i].path) == Some(refs[i].name)
  }

  predicate AllAsScanned(scan: Scanner, m: Manifest) {
    && AsScanned(scan, m.skills, Skill) && AsScanned(scan, m.commands, Command)
    && AsScanned(scan, m.agents, Agent) && AsScanned(scan, m.rules, Rule)
  }

  lemma {:induction false} ListedAsScanned(scan: Scanner, s: State, candidates: seq<Candidate>)
    requires AllAsScanned(scan, s.manifest)
    ensures AllAsScanned(scan, ConsiderAll(scan, s, candidates).manifest)
    decreases |candidates|
  {
    if candidates != [] {
      ConsideredTransacts(scan, s, candidates[0]);
      ListedAsScanned(scan, Considered(scan, s, candidates[0]).0, candidates[1..]);
    }
  }

  // ------------------------------------------------------------------ why stopping early changes nothing

  lemma {:induction false} CappedKindIgnores(scan: Scanner, s: State, k: Kind, paths: seq<PosixPath>)
    requires CappedAreFull(s) && k in s.capped
    ensures ConsiderAll(scan, s, OfKind(k, paths)) == s
    decreases |paths|
  {
    if paths != [] {
      assert OfKind(k, paths)[1..] == OfKind(k, paths[1..]);
      CappedKindIgnores(scan, s, k, paths[1..]);
    }
  }

  lemma {:induction false} ConsiderConcat(scan: Scanner, s: State, a: seq<Candidate>, b: seq<Candidate>)
    ensures ConsiderAll(scan, s, a + b) == ConsiderAll(scan, ConsiderAll(scan, s, a), b)
    decreases |a|
  {
    if a == [] {
      assert a + b == b;
    } else {
      assert (a + b)[1..] == a[1..] + b;
      ConsiderConcat(scan, Considered(scan, s, a[0]).0, a[1..], b);
    }
  }

  lemma {:induction false} AllCappedIgnores(scan: Scanner, s: State, sources: seq<Source>)
    requires CappedAreFull(s) && ALL_KINDS <= s.capped
    ensures ConsiderAll(scan, s, Candidates(sources)) == s
  {
    if sources != [] {
      AnyKind(sources[0].kind);
      CappedKindIgnores(scan, s, sources[0].kind, sources[0].paths);
      ConsiderConcat(scan, s, OfKind(sources[0].kind, sources[0].paths), Candidates(sources[1..]));
      AllCappedIgnores(scan, s, sources[1..]);
    }
  }

  /** The discovery context of one collection. */
  class DiscoveryContext {
    var manifest: Manifest
    var seen: set<string>
    var capped: set<Kind>
    const scan: Scanner

    ghost predicate Valid()
      reads this
    {
      CappedAreFull(Now())
    }

    function Now(): State
      reads this
    {
      State(manifest, seen, capped)
    }

    constructor (scan: Scanner, manifest: Manifest)
      ensures Valid() && this.scan == scan && this.manifest == manifest && capped == {}
      ensures SeenIsListed(Now())
      ensures ListedOnce(manifest) && WithinCeiling(manifest) && (forall k :: CeilingNotes(manifest.notes, k) == 0) ==> Sound(Now())
    {
      this.scan, this.manifest, capped := scan, manifest, {};
      seen := (set i | 0 <= i < |manifest.skills| :: Forward(manifest.skills[i].path))
              + (set i | 0 <= i < |manifest.agents| :: Forward(manifest.agents[i].path))
              + (set i | 0 <= i < |manifest.commands| :: Forward(manifest.commands[i].path))
              + (set i | 0 <= i < |manifest.rules| :: Forward(manifest.rules[i].path));
      new;
      forall p ensures p in seen <==> Listed(manifest, p) {
        if p in seen {
          AnySeenIsListed(manifest, p);
        }
        if Listed(manifest, p) {
          var k, i :| 0 <= i < |Bucket(manifest, k)| && Forward(Bucket(manifest, k)[i].path) == p;
        }
      }
    }

    method ReportCeiling(kind: Kind)
      requires |Bucket(manifest, kind)| >= MAX_PRIMITIVES_PER_KIND && Valid()
      modifies this
      ensures Valid() && Now() == Announce(old(Now()), kind)
    {
      if kind !in capped {
        capped := capped + {kind};
        manifest := manifest.(notes := manifest.notes + [CeilingReached(kind)]);
      }
      assert forall k :: Bucket(manifest, k) == Bucket(old(manifest), k);
    }

    method Consider(kind: Kind, path: PosixPath) returns (outcome: AddOutcome)
      requires Valid()
      modifies this
      ensures Valid() && (Now(), outcome) == Considered(scan, old(Now()), Candidate(kind, path))
      ensures outcome == Ceiling ==> kind in capped
      ensures Transacted(scan, old(Now()), kind, path, Now(), outcome)
    {
      ConsideredTransacts(scan, Now(), Candidate(kind, path));
      if path in seen {
        return Duplicate;
      }
      if |Bucket(manifest, kind)| >= MAX_PRIMITIVES_PER_KIND {
        ReportCeiling(kind);
        return Ceiling;
      }
      match scan(kind, path) {
        case None => outcome := Rejected;
        case Some(name) =>
          AppendedBuckets(manifest, Ref(name, path, kind));
          manifest := Append(manifest, Ref(name, path, kind));
          seen := seen + {path};
          outcome := Added;
      }
    }

    /** One loop of discovery: a capped kind is not walked, and the first overflow stops the walk. */
    method Discover(source: Source)
      requires Valid()
      modifies this
      ensures Valid() && Now() == ConsiderAll(scan, old(Now()), OfKind(source.kind, source.paths))
    {
      var k, paths := source.kind, source.paths;
      if k in capped {
        CappedKindIgnores(scan, Now(), k, paths);
        return;
      }
      for n := 0 to |paths|
        invariant Valid()
        invariant ConsiderAll(scan, Now(), OfKind(k, paths[n..])) == ConsiderAll(scan, old(Now()), OfKind(k, paths))
      {
        assert OfKind(k, paths[n..])[0] == Candidate(k, paths[n]) && OfKind(k, paths[n..])[1..] == OfKind(k, paths[n + 1..]);
        var outcome := Consider(k, paths[n]);
        if outcome == Ceiling {
          CappedKindIgnores(scan, Now(), k, paths[n + 1..]);
          return;
        }
      }
      assert OfKind(k, paths[|paths|..]) == [];
    }

    /** All capability roots: the skill walk, then each pattern, stopping once every kind has overflowed. */
    method DiscoverPrimitives(skillFiles: seq<PosixPath>, patterns: seq<Source>)
      requires Valid()
      modifies this
      ensures Valid() && Now() == ConsiderAll(scan, old(Now()), OfKind(Skill, skillFiles) + Candidates(patterns))
    {
      ConsiderConcat(scan, Now(), OfKind(Skill, skillFiles), Candidates(patterns));
      if ALL_KINDS <= capped {
        CappedKindIgnores(scan, Now(), Skill, skillFiles);
        AllCappedIgnores(scan, Now(), patterns);
        return;
      }
      Discover(Source(Skill, skillFiles));
      for n := 0 to |patterns|
        invariant Valid()
        invariant ConsiderAll(scan, Now(), Candidates(patterns[n..]))
               == ConsiderAll(scan, old(Now()), OfKind(Skill, skillFiles) + Candidates(patterns))
      {
        var p := patterns[n];
        assert patterns[n..][0] == p && patterns[n..][1..] == patterns[n + 1..];
        ConsiderConcat(scan, Now(), OfKind(p.kind, p.paths), Candidates(patterns[n + 1..]));
        if ALL_KINDS <= capped {
          AnyKind(p.kind);
          CappedKindIgnores(scan, Now(), p.kind, p.paths);
          AllCappedIgnores(scan, Now(), patterns[n + 1..]);
          return;
        }
        Discover(p);
      }
      assert patterns[|patterns|..] == [];
    }
  }

  lemma AnySeenIsListed(m: Manifest, p: string)
    requires || (exists i :: 0 <= i < |m.skills| && Forward(m.skills[i].path) == p)
             || (exists i :: 0 <= i < |m.agents| && Forward(m.agents[i].path) == p)
             || (exists i :: 0 <= i < |m.commands| && Forward(m.commands[i].path) == p)
             || (exists i :: 0 <= i < |m.rules| && Forward(m.rules[i].path) == p)
    ensures Listed(m, p)
  {
    if i :| 0 <= i < |m.skills| && Forward(m.skills[i].path) == p {
      assert Bucket(m, Skill)[i] == m.skills[i];
    } else if i :| 0 <= i < |m.agents| && Forward(m.agents[i].path) == p {
      assert Bucket(m, Agent)[i] == m.agents[i];
    } else if i :| 0 <= i < |m.commands| && Forward(m.commands[i].path) == p {
      assert Bucket(m, Command)[i] == m.commands[i];
    } else {
      var i :| 0 <= i < |m.rules| && Forward(m.rules[i].path) == p;
      assert Bucket(m, Rule)[i] == m.rules[i];
    }
  }
}
