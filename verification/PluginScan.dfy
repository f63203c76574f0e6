// Scanning plug-in files, with a cache of what an earlier scan found.
module PluginScan {
  import opened Wrappers

  // Normalised paths and architecture names.
  type Path = string
  type Arch = string

  const ABI: int := 1

  datatype Fingerprint = Fingerprint(modifiedMs: int, size: int)

  /** One class found in a file. `group` stands for format, name and vendor; `details` for everything else. */
  datatype Entry = Entry(path: Path, arch: Arch, fingerprint: Fingerprint, abi: int, group: int, details: int)

  /** An entry as a scan returns it, with the architectures its group comes in. */
  datatype Listed = Listed(entry: Entry, available: seq<Arch>)

  /** What the disk holds under a path; hard links share an identity. */
  datatype File = File(identity: nat, fingerprint: Fingerprint, architectures: seq<Arch>)

  type Files = map<Path, File>

  /** What probing a file for an architecture finds. */
  type Probes = map<(Path, Arch, Fingerprint), seq<Entry>>

  function Probed(probes: Probes, p: Path, a: Arch, f: Fingerprint): seq<Entry> {
    if (p, a, f) in probes then probes[(p, a, f)] else []
  }

  /** A probe labels what it finds with what it was asked about. */
  ghost predicate Honest(probes: Probes) {
    forall p, a, f, e :: e in Probed(probes, p, a, f) ==>
        e.path == p && e.arch == a && e.fingerprint == f && e.abi == ABI
  }

  // ------------------------------------------------------------- what is computed

  function FirstOther(archs: seq<Arch>): Option<Arch> {
    if archs == [] then None else if archs[0] != "x86" then Some(archs[0]) else FirstOther(archs[1..])
  }

  function X86Lane(probes: Probes, p: Path, file: File): seq<Entry> {
    if "x86" in file.architectures then Probed(probes, p, "x86", file.fingerprint) else []
  }

  function OtherLane(probes: Probes, p: Path, file: File): seq<Entry> {
    match FirstOther(file.architectures)
    case Some(a) => Probed(probes, p, a, file.fingerprint)
    case None => []
  }

  /** The cached entries of a path. */
  function Variants(cached: seq<Listed>, p: Path): seq<Entry> {
    if cached == [] then []
    else
      var last := cached[|cached| - 1].entry;
      Variants(cached[..|cached| - 1], p) + if last.path == p then [last] else []
  }

  predicate IsHit(variants: seq<Entry>, file: File) {
    && variants != []
    && (forall a :: a in file.architectures ==> exists e :: e in variants && e.arch == a)
    && (forall e :: e in variants ==> e.arch in file.architectures && e.fingerprint == file.fingerprint && e.abi == ABI)
  }

  /** What a path adds to a scan, with or without a cache. */
  function Contribution(probes: Probes, cached: seq<Listed>, force: bool, p: Path, file: File): multiset<Entry> {
    if Reused(cached, force, p, file) then multiset(Variants(cached, p))
    else multiset(X86Lane(probes, p, file)) + multiset(OtherLane(probes, p, file))
  }

  /** The first candidate of each identity. */
  function Selected(files: Files, candidates: seq<Path>): seq<Path>
    requires forall p :: p in candidates ==> p in files
  {
    if candidates == [] then []
    else
      var (before, last) := (candidates[..|candidates| - 1], candidates[|candidates| - 1]);
      Selected(files, before) + if files[last].identity in Identities(files, before) then [] else [last]
  }

  function Identities(files: Files, candidates: seq<Path>): set<nat>
    requires forall p :: p in candidates ==> p in files
  {
    set p | p in candidates :: files[p].identity
  }

  function Total(files: Files, probes: Probes, cached: seq<Listed>, force: bool, paths: seq<Path>): multiset<Entry>
    requires forall p :: p in paths ==> p in files
  {
    if paths == [] then multiset{}
    else
      var (before, last) := (paths[..|paths| - 1], paths[|paths| - 1]);
      Total(files, probes, cached, force, before) + Contribution(probes, cached, force, last, files[last])
  }

  predicate Reused(cached: seq<Listed>, force: bool, p: Path, file: File) {
    !force && IsHit(Variants(cached, p), file)
  }

  /** The cached entries that a scan of these paths takes over, in the order of the paths. */
  function HitEntries(files: Files, cached: seq<Listed>, force: bool, paths: seq<Path>): seq<Entry>
    requires forall p :: p in paths ==> p in files
  {
    if paths == [] then []
    else
      var (before, last) := (paths[..|paths| - 1], paths[|paths| - 1]);
      HitEntries(files, cached, force, before)
      + if Reused(cached, force, last, files[last]) then Variants(cached, last) else []
  }

  /** What one lane finds in the other paths, in their order. */
  function LaneEntries(files: Files, probes: Probes, cached: seq<Listed>, force: bool, paths: seq<Path>,
                       x86: bool): seq<Entry>
    requires forall p :: p in paths ==> p in files
  {
    if paths == [] then []
    else
      var (before, last) := (paths[..|paths| - 1], paths[|paths| - 1]);
      LaneEntries(files, probes, cached, force, before, x86)
      + if Reused(cached, force, last, files[last]) then []
        else if x86 then X86Lane(probes, last, files[last]) else OtherLane(probes, last, files[last])
  }

  /** The entries of a scan: first the cache hits, then the x86 lane, then the other lane. */
  function ScanEntries(files: Files, probes: Probes, cached: seq<Listed>, force: bool, paths: seq<Path>): seq<Entry>
    requires forall p :: p in paths ==> p in files
  {
    HitEntries(files, cached, force, paths)
    + LaneEntries(files, probes, cached, force, paths, true)
    + LaneEntries(files, probes, cached, force, paths, false)
  }

  function Entries(listed: seq<Listed>): seq<Entry> {
    seq(|listed|, i requires 0 <= i < |listed| => listed[i].entry)
  }

  // ---- the architectures of a group

  function Only(archs: seq<Arch>, x64: bool): seq<Arch> {
    if archs == [] then [] else (if (archs[0] == "x64") == x64 then [archs[0]] else []) + Only(archs[1..], x64)
  }

  /** Remove repeated neighbours. */
  function Dedup(archs: seq<Arch>): seq<Arch> {
    if |archs| <= 1 then archs
    else if archs[0] == archs[1] then Dedup(archs[1..])
    else [archs[0]] + Dedup(archs[1..])
  }

  /** A stable sort that puts x64 first, then removal of repeated neighbours. */
  function ArchList(archs: seq<Arch>): seq<Arch> {
    Dedup(Only(archs, true) + Only(archs, false))
  }

  function GroupArchs(entries: seq<Entry>, group: int): seq<Arch> {
    if entries == [] then []
    else
      var last := entries[|entries| - 1];
      GroupArchs(entries[..|entries| - 1], group) + if last.group == group then [last.arch] else []
  }

  // ------------------------------------------------------------------- the scan

  method IndexCache(cached: seq<Listed>) returns (byPath: map<Path, seq<Entry>>)
    ensures forall p :: (if p in byPath then byPath[p] else []) == Variants(cached, p)
  {
    hide Variants;
    byPath := map[];
    NoVariants();
    for i := 0 to |cached|
      invariant forall p :: (if p in byPath then byPath[p] else []) == Variants(cached[..i], p)
    {
      var e := cached[i].entry;
      var earlier := if e.path in byPath then byPath[e.path] else [];
      byPath := byPath[e.path := earlier + [e]];
      VariantsOneMore(cached, i);
    }
    assert cached[..|cached|] == cached;
  }

  lemma NoVariants()
    ensures forall p :: Variants([], p) == []
  {
  }

  lemma VariantsOneMore(cached: seq<Listed>, i: nat)
    requires i < |cached|
    ensures forall p :: Variants(cached[..i + 1], p)
                        == Variants(cached[..i], p) + if cached[i].entry.path == p then [cached[i].entry] else []
  {
    assert cached[..i + 1][..i] == cached[..i];
  }

  method RunLane(probes: Probes, files: Files, lane: seq<(Path, Arch)>) returns (found: seq<Entry>)
    requires forall c :: c in lane ==> c.0 in files
    ensures found == Found(probes, files, lane)
  {
    found := [];
    for i := 0 to |lane|
      invariant found == Found(probes, files, lane[..i])
    {
      var (p, a) := lane[i];
      found := found + Probed(probes, p, a, files[p].fingerprint);
      assert lane[..i + 1][..i] == lane[..i];
    }
    assert lane[..|lane|] == lane;
  }

  /** What probing for each pair of a lane finds, one after the other. */
  function Found(probes: Probes, files: Files, lane: seq<(Path, Arch)>): seq<Entry>
    requires forall c :: c in lane ==> c.0 in files
  {
    if lane == [] then []
    else
      var last := lane[|lane| - 1];
      Found(probes, files, lane[..|lane| - 1]) + Probed(probes, last.0, last.1, files[last.0].fingerprint)
  }

  lemma FoundOneMore(probes: Probes, files: Files, lane: seq<(Path, Arch)>, p: Path, a: Arch)
    requires (forall c :: c in lane ==> c.0 in files) && p in files
    ensures Found(probes, files, lane + [(p, a)])
            == Found(probes, files, lane) + Probed(probes, p, a, files[p].fingerprint)
  {
    assert (lane + [(p, a)])[..|lane|] == lane;
  }

  /** A file is a cache hit, or work for the lanes of its architectures. */
  method ClassifyOne(files: Files, ghost probes: Probes, ghost cached: seq<Listed>, variants: seq<Entry>, force: bool,
                     p: Path,
                     hits: seq<Entry>, x86: seq<(Path, Arch)>, other: seq<(Path, Arch)>)
    returns (hits': seq<Entry>, x86': seq<(Path, Arch)>, other': seq<(Path, Arch)>)
    requires (forall c :: c in x86 ==> c.0 in files) && (forall c :: c in other ==> c.0 in files)
    requires p in files && variants == Variants(cached, p)
    ensures (forall c :: c in x86' ==> c.0 in files) && (forall c :: c in other' ==> c.0 in files)
    ensures var reused := Reused(cached, force, p, files[p]);
            && hits' == hits + (if reused then Variants(cached, p) else [])
            && Found(probes, files, x86') == Found(probes, files, x86)
                                             + (if reused then [] else X86Lane(probes, p, files[p]))
            && Found(probes, files, other') == Found(probes, files, other)
                                               + (if reused then [] else OtherLane(probes, p, files[p]))
  {
    hide IsHit, Variants, FirstOther, Found, Probed;
    hits', x86', other' := hits, x86, other;
    var file := files[p];
    if !force && IsHit(variants, file) {
      hits' := hits + variants;
    } else {
      if "x86" in file.architectures {
        FoundOneMore(probes, files, x86, p, "x86");
        x86' := x86 + [(p, "x86")];
      }
      var first := FirstOther(file.architectures);
      if first.Some? {
        FoundOneMore(probes, files, other, p, first.value);
        other' := other + [(p, first.value)];
      }
    }
  }

  lemma SelectedOneMore(files: Files, before: seq<Path>, p: Path)
    requires (forall q :: q in before ==> q in files) && p in files
    ensures forall q :: q in before + [p] ==> q in files
    ensures Selected(files, before + [p])
            == Selected(files, before) + if files[p].identity in Identities(files, before) then [] else [p]
    ensures Identities(files, before + [p]) == Identities(files, before) + {files[p].identity}
  {
    assert (before + [p])[..|before|] == before;
  }

  lemma {:induction false} SelectedAreCandidates(files: Files, candidates: seq<Path>)
    requires forall p :: p in candidates ==> p in files
    ensures forall p :: p in Selected(files, candidates) ==> p in candidates
    decreases |candidates|
  {
    if candidates != [] {
      SelectedAreCandidates(files, candidates[..|candidates| - 1]);
    }
  }

  /** Sort the candidates into cache hits and work for the two probing lanes. */
  method Classify(files: Files, ghost probes: Probes, candidates: seq<Path>, cached: seq<Listed>, force: bool)
    returns (hits: seq<Entry>, x86: seq<(Path, Arch)>, other: seq<(Path, Arch)>)
    requires forall p :: p in candidates ==> p in files
    ensures (forall c :: c in x86 ==> c.0 in files) && (forall c :: c in other ==> c.0 in files)
    ensures (forall p :: p in Selected(files, candidates) ==> p in files)
    ensures var paths := Selected(files, candidates);
            && hits == HitEntries(files, cached, force, paths)
            && Found(probes, files, x86) == LaneEntries(files, probes, cached, force, paths, true)
            && Found(probes, files, other) == LaneEntries(files, probes, cached, force, paths, false)
  {
    hide Selected, Identities, HitEntries, LaneEntries, Reused, X86Lane, OtherLane, Variants, Found;
    var byPath := IndexCache(cached);
    var seen: set<nat> := {};
    hits, x86, other := [], [], [];
    ghost var selected: seq<Path> := [];
    NothingYet(files, probes, cached, force);
    for i := 0 to |candidates|
      invariant (forall c :: c in x86 ==> c.0 in files) && (forall c :: c in other ==> c.0 in files)
      invariant seen == Identities(files, candidates[..i]) && selected == Selected(files, candidates[..i])
      invariant forall p :: p in selected ==> p in files
      invariant hits == HitEntries(files, cached, force, selected)
      invariant Found(probes, files, x86) == LaneEntries(files, probes, cached, force, selected, true)
      invariant Found(probes, files, other) == LaneEntries(files, probes, cached, force, selected, false)
    {
      var p := candidates[i];
      Prefix(candidates, i);
      SelectedOneMore(files, candidates[..i], p);
      if files[p].identity !in seen {
        seen := seen + {files[p].identity};
        EntriesOneMore(files, probes, cached, force, selected, p);
        selected := selected + [p];
        var variants := if p in byPath then byPath[p] else [];
        hits, x86, other := ClassifyOne(files, probes, cached, variants, force, p, hits, x86, other);
      } else {
        assert selected + [] == selected && seen + {files[p].identity} == seen;
      }
    }
    assert candidates[..|candidates|] == candidates;
  }

  lemma Prefix<T>(s: seq<T>, i: nat)
    requires i < |s|
    ensures s[..i + 1] == s[..i] + [s[i]]
  {
  }

  lemma NothingYet(files: Files, probes: Probes, cached: seq<Listed>, force: bool)
    ensures Selected(files, []) == [] && Identities(files, []) == {}
    ensures HitEntries(files, cached, force, []) == [] && Found(probes, files, []) == []
    ensures LaneEntries(files, probes, cached, force, [], true)
        == LaneEntries(files, probes, cached, force, [], false) == []
  {
  }

  lemma EntriesOneMore(files: Files, probes: Probes, cached: seq<Listed>, force: bool, paths: seq<Path>, p: Path)
    requires (forall q :: q in paths ==> q in files) && p in files
    ensures var reused := Reused(cached, force, p, files[p]);
            && HitEntries(files, cached, force, paths + [p])
               == HitEntries(files, cached, force, paths) + (if reused then Variants(cached, p) else [])
            && LaneEntries(files, probes, cached, force, paths + [p], true)
               == LaneEntries(files, probes, cached, force, paths, true)
                  + (if reused then [] else X86Lane(probes, p, files[p]))
            && LaneEntries(files, probes, cached, force, paths + [p], false)
               == LaneEntries(files, probes, cached, force, paths, false)
                  + (if reused then [] else OtherLane(probes, p, files[p]))
  {
    assert (paths + [p])[..|paths|] == paths;
  }

  lemma TotalOneMore(files: Files, probes: Probes, cached: seq<Listed>, force: bool, paths: seq<Path>, p: Path)
    requires (forall q :: q in paths ==> q in files) && p in files
    ensures Total(files, probes, cached, force, paths + [p])
            == Total(files, probes, cached, force, paths) + Contribution(probes, cached, force, p, files[p])
  {
    assert (paths + [p])[..|paths|] == paths;
  }

  method ListArchitectures(entries: seq<Entry>) returns (listed: seq<Listed>)
    ensures Entries(listed) == entries
    ensures forall k :: 0 <= k < |listed| ==>
          listed[k].available == ArchList(GroupArchs(entries, listed[k].entry.group))
  {
    hide ArchList, GroupArchs;
    listed := [];
    for i := 0 to |entries|
      invariant |listed| == i
      invariant forall k :: 0 <= k < i ==>
            listed[k] == Listed(entries[k], ArchList(GroupArchs(entries, entries[k].group)))
    {
      listed := listed + [Listed(entries[i], ArchList(GroupArchs(entries, entries[i].group)))];
    }
  }

  method Scan(files: Files, probes: Probes, candidates: seq<Path>, cached: seq<Listed>, force: bool)
    returns (listed: seq<Listed>)
    requires forall p :: p in candidates ==> p in files
    ensures IsScan(files, probes, candidates, cached, force, listed)
  {
    hide HitEntries, LaneEntries, Found, Selected, ArchList, GroupArchs;
    var hits, x86, other := Classify(files, probes, candidates, cached, force);
    var found86 := RunLane(probes, files, x86);
    var foundOther := RunLane(probes, files, other);
    var entries := hits + found86 + foundOther;
    listed := ListArchitectures(entries);
  }

  /** What a scan promises: the right entries in the right order, each with the architectures of its group. */
  ghost predicate IsScan(files: Files, probes: Probes, candidates: seq<Path>, cached: seq<Listed>, force: bool,
                         listed: seq<Listed>) {
    && (forall p :: p in candidates ==> p in files)
    && (forall p :: p in Selected(files, candidates) ==> p in files)
    && Entries(listed) == ScanEntries(files, probes, cached, force, Selected(files, candidates))
    && (forall k :: 0 <= k < |listed| ==>
          listed[k].available == ArchList(GroupArchs(Entries(listed), listed[k].entry.group)))
  }

  /** As a multiset, a scan's entries are what its paths contribute. */
  lemma {:induction false} ScanAddsUp(files: Files, probes: Probes, cached: seq<Listed>, force: bool, paths: seq<Path>)
    requires forall p :: p in paths ==> p in files
    ensures multiset(ScanEntries(files, probes, cached, force, paths)) == Total(files, probes, cached, force, paths)
    decreases |paths|
  {
    hide Reused, Variants, X86Lane, OtherLane;
    if paths != [] {
      ScanAddsUp(files, probes, cached, force, paths[..|paths| - 1]);
    }
  }

  // --------------------------------------------------------- a cache changes nothing

  function Lanes(probes: Probes, p: Path, file: File): multiset<Entry> {
    multiset(X86Lane(probes, p, file)) + multiset(OtherLane(probes, p, file))
  }

  /** The entries that probing every selected file afresh finds. */
  function FreshTotal(files: Files, probes: Probes, paths: seq<Path>): multiset<Entry>
    requires forall p :: p in paths ==> p in files
  {
    Total(files, probes, [], true, paths)
  }

  /** A list of entries is faithful to a state of the disk if a scan without a cache would find the same. */
  ghost predicate Faithful(files: Files, probes: Probes, candidates: seq<Path>, listed: seq<Listed>) {
    && (forall p :: p in candidates ==> p in files) && (forall p :: p in Selected(files, candidates) ==> p in files)
    && multiset(Entries(listed)) == FreshTotal(files, probes, Selected(files, candidates))
  }

  lemma {:induction false} SelectedAreDistinct(files: Files, candidates: seq<Path>)
    requires forall p :: p in candidates ==> p in files
    ensures forall i, j :: 0 <= i < j < |Selected(files, candidates)| ==>
          Selected(files, candidates)[i] != Selected(files, candidates)[j]
    decreases |candidates|
  {
    if candidates != [] {
      var before := candidates[..|candidates| - 1];
      SelectedAreDistinct(files, before);
      SelectedAreCandidates(files, before);
      hide Selected;
      SelectedOneMore(files, before, candidates[|candidates| - 1]);
      assert candidates == before + [candidates[|candidates| - 1]];
    }
  }

  lemma {:induction false} FirstOtherIsNotX86(archs: seq<Arch>)
    ensures FirstOther(archs).Some? ==> FirstOther(archs).value != "x86" && FirstOther(archs).value in archs
    ensures FirstOther(archs).None? ==> forall a :: a in archs ==> a == "x86"
    decreases |archs|
  {
    if archs != [] {
      FirstOtherIsNotX86(archs[1..]);
      assert archs == [archs[0]] + archs[1..];
    }
  }

  /** Every entry of the lanes says which path, fingerprint and lane it comes from. */
  lemma LanesAreHonest(probes: Probes, p: Path, file: File, e: Entry)
    requires Honest(probes) && e in Lanes(probes, p, file)
    ensures e.path == p && e.fingerprint == file.fingerprint && e.abi == ABI
    ensures e in X86Lane(probes, p, file) ==> e.arch == "x86" && "x86" in file.architectures
    ensures e in OtherLane(probes, p, file) ==> FirstOther(file.architectures) == Some(e.arch) && e.arch != "x86"
  {
    FirstOtherIsNotX86(file.architectures);
  }

  lemma {:induction false} FreshTotalCounts(files: Files, probes: Probes, paths: seq<Path>, e: Entry)
    requires Honest(probes) && forall p :: p in paths ==> p in files
    requires forall i, j :: 0 <= i < j < |paths| ==> paths[i] != paths[j]
    ensures FreshTotal(files, probes, paths)[e]
            == if e.path in paths then Lanes(probes, e.path, files[e.path])[e] else 0
    decreases |paths|
  {
    if paths != [] {
      var before, last := paths[..|paths| - 1], paths[|paths| - 1];
      assert paths == before + [last];
      FreshTotalCounts(files, probes, before, e);
      FreshTotalOneMore(files, probes, before, last);
      hide FreshTotal, Lanes, Honest;
      if e in Lanes(probes, last, files[last]) { LanesAreHonest(probes, last, files[last], e); }
    }
  }

  lemma FreshTotalOneMore(files: Files, probes: Probes, before: seq<Path>, p: Path)
    requires (forall q :: q in before ==> q in files) && p in files
    ensures FreshTotal(files, probes, before + [p]) == FreshTotal(files, probes, before) + Lanes(probes, p, files[p])
  {
    hide X86Lane, OtherLane;
    TotalOneMore(files, probes, [], true, before, p);
  }

  lemma {:induction false} VariantsCount(cached: seq<Listed>, p: Path, e: Entry)
    ensures multiset(Variants(cached, p))[e] == if e.path == p then multiset(Entries(cached))[e] else 0
    decreases |cached|
  {
    if cached != [] {
      VariantsCount(cached[..|cached| - 1], p, e);
      assert Entries(cached) == Entries(cached[..|cached| - 1]) + [cached[|cached| - 1].entry];
    }
  }

  /** The cached entries of a path are what its lanes found when the cache was made. */
  lemma VariantsAreOldLanes(files: Files, probes: Probes, candidates: seq<Path>, cached: seq<Listed>, p: Path)
    requires Honest(probes) && Faithful(files, probes, candidates, cached)
    ensures multiset(Variants(cached, p))
            == if p in Selected(files, candidates) then Lanes(probes, p, files[p]) else multiset{}
  {
    hide Selected, FreshTotal, Lanes, Variants;
    var paths := Selected(files, candidates);
    SelectedAreDistinct(files, candidates);
    forall e: Entry
      ensures multiset(Variants(cached, p))[e] == if p in paths then Lanes(probes, p, files[p])[e] else 0
    {
      VariantsCount(cached, p, e);
      FreshTotalCounts(files, probes, paths, e);
      if p in paths && e in Lanes(probes, p, files[p]) { LanesAreHonest(probes, p, files[p], e); }
    }
  }

  /** Two states of a file whose lanes hold the same entries as far as one architecture list says. */
  lemma SameLanes(probes: Probes, p: Path, was: File, now: File)
    requires Honest(probes) && was.fingerprint == now.fingerprint
    requires forall e :: e in Lanes(probes, p, was) ==> e.arch in now.architectures
    requires forall a :: a in now.architectures ==> exists e :: e in Lanes(probes, p, was) && e.arch == a
    ensures Lanes(probes, p, was) == Lanes(probes, p, now)
  {
    SameX86Lane(probes, p, was, now);
    SameOtherLane(probes, p, was, now);
  }

  lemma SameX86Lane(probes: Probes, p: Path, was: File, now: File)
    requires Honest(probes) && was.fingerprint == now.fingerprint
    requires forall e :: e in Lanes(probes, p, was) ==> e.arch in now.architectures
    requires forall a :: a in now.architectures ==> exists e :: e in Lanes(probes, p, was) && e.arch == a
    ensures X86Lane(probes, p, was) == X86Lane(probes, p, now)
  {
    hide FirstOther, Probed;
    if "x86" in now.architectures {
      var e :| e in Lanes(probes, p, was) && e.arch == "x86";
      LanesAreHonest(probes, p, was, e);
    } else if X86Lane(probes, p, was) != [] {
      var e := X86Lane(probes, p, was)[0];
      assert e in Lanes(probes, p, was);
      LanesAreHonest(probes, p, was, e);
    }
  }

  lemma SameOtherLane(probes: Probes, p: Path, was: File, now: File)
    requires Honest(probes) && was.fingerprint == now.fingerprint
    requires forall e :: e in Lanes(probes, p, was) ==> e.arch in now.architectures
    requires forall a :: a in now.architectures ==> exists e :: e in Lanes(probes, p, was) && e.arch == a
    ensures OtherLane(probes, p, was) == OtherLane(probes, p, now)
  {
    hide FirstOther, Probed;
    FirstOtherIsNotX86(now.architectures);
    if FirstOther(now.architectures).Some? {
      var a := FirstOther(now.architectures).value;
      var e :| e in Lanes(probes, p, was) && e.arch == a;
      LanesAreHonest(probes, p, was, e);
    } else if OtherLane(probes, p, was) != [] {
      var e := OtherLane(probes, p, was)[0];
      assert e in Lanes(probes, p, was);
      LanesAreHonest(probes, p, was, e);
    }
  }

  /** A hit contributes exactly what probing the file now would find. */
  lemma HitsAreFresh(files: Files, probes: Probes, candidates: seq<Path>, cached: seq<Listed>, p: Path, file: File)
    requires Honest(probes) && Faithful(files, probes, candidates, cached) && IsHit(Variants(cached, p), file)
    ensures multiset(Variants(cached, p)) == Lanes(probes, p, file)
  {
    hide Selected, FreshTotal, Lanes, Variants;
    var variants := Variants(cached, p);
    VariantsAreOldLanes(files, probes, candidates, cached, p);
    assert variants[0] in multiset(variants);
    LanesAreHonest(probes, p, files[p], variants[0]);
    assert forall e :: e in Lanes(probes, p, files[p]) ==> e in variants;
    assert forall e :: e in variants ==> e in Lanes(probes, p, files[p]);
    SameLanes(probes, p, files[p], file);
  }

  lemma {:induction false} CachedTotalIsFresh(files: Files, probes: Probes, paths: seq<Path>, force: bool,
                                              before: Files, candidates: seq<Path>, cached: seq<Listed>)
    requires Honest(probes) && Faithful(before, probes, candidates, cached) && forall p :: p in paths ==> p in files
    ensures Total(files, probes, cached, force, paths) == FreshTotal(files, probes, paths)
    decreases |paths|
  {
    hide Faithful, IsHit, Variants, X86Lane, OtherLane;
    if paths != [] {
      var last := paths[|paths| - 1];
      CachedTotalIsFresh(files, probes, paths[..|paths| - 1], force, before, candidates, cached);
      if IsHit(Variants(cached, last), files[last]) {
        HitsAreFresh(before, probes, candidates, cached, last, files[last]);
      }
    }
  }

  /**
   * The cache is transparent. If a probe's findings depend only on path, architecture and
   * fingerprint, then a scan that uses what any earlier scan found, whatever files have
   * changed, appeared or gone since, finds the same entries as one without a cache; so its
   * own result can serve as the next cache.
   */
  lemma CacheIsTransparent(files: Files, probes: Probes, candidates: seq<Path>, force: bool, listed: seq<Listed>,
                           before: Files, earlier: seq<Path>, cached: seq<Listed>)
    requires Honest(probes) && Faithful(before, probes, earlier, cached)
    requires IsScan(files, probes, candidates, cached, force, listed)
    ensures Faithful(files, probes, candidates, listed)
  {
    hide Total, FreshTotal, ScanEntries, Selected, GroupArchs, ArchList;
    ScanAddsUp(files, probes, cached, force, Selected(files, candidates));
    CachedTotalIsFresh(files, probes, Selected(files, candidates), force, before, earlier, cached);
  }

  /** A scan without a cache is faithful: an empty cache is as good as a forced retest. */
  lemma UncachedScansAreFaithful(files: Files, probes: Probes, candidates: seq<Path>, force: bool, listed: seq<Listed>)
    requires Honest(probes) && IsScan(files, probes, candidates, [], force, listed)
    ensures Faithful(files, probes, candidates, listed)
  {
    hide GroupArchs, ArchList;
    assert Faithful(map[], probes, [], []) by {
      assert Entries([]) == [];
    }
    CacheIsTransparent(files, probes, candidates, force, listed, map[], [], []);
  }

  // ------------------------------------------------------- what is scanned, and when

  /** No earlier candidate is the same file. */
  predicate IsFirst(files: Files, candidates: seq<Path>, i: nat)
    requires i < |candidates| && forall p :: p in candidates ==> p in files
  {
    forall j :: 0 <= j < i ==> files[candidates[j]].identity != files[candidates[i]].identity
  }

  lemma FirstMeansNew(files: Files, candidates: seq<Path>, n: nat)
    requires n == |candidates| - 1 && forall p :: p in candidates ==> p in files
    ensures IsFirst(files, candidates, n) <==> files[candidates[n]].identity !in Identities(files, candidates[..n])
    ensures forall i: nat :: i < n ==> IsFirst(files, candidates[..n], i) == IsFirst(files, candidates, i)
  {
    var before, last := candidates[..n], candidates[n];
    if files[last].identity in Identities(files, before) {
      var p :| p in before && files[p].identity == files[last].identity;
      var j :| 0 <= j < n && before[j] == p;
      assert files[candidates[j]].identity == files[last].identity;
    }
    forall j | 0 <= j < n && files[candidates[j]].identity == files[last].identity
      ensures files[last].identity in Identities(files, before)
    {
      assert before[j] in before;
    }
  }

  /** `at` lists some places of a sequence in order, and `picked` what is there. */
  ghost predicate PicksAt(at: seq<nat>, candidates: seq<Path>, picked: seq<Path>) {
    && |at| == |picked|
    && (forall k :: 0 <= k < |at| ==> at[k] < |candidates| && picked[k] == candidates[at[k]])
    && (forall k, l :: 0 <= k < l < |at| ==> at[k] < at[l])
  }

  lemma PickOneMore(at: seq<nat>, candidates: seq<Path>, picked: seq<Path>, n: nat)
    requires n == |candidates| - 1 && PicksAt(at, candidates[..n], picked)
    ensures PicksAt(at, candidates, picked) && n !in at && PicksAt(at + [n], candidates, picked + [candidates[n]])
  {
  }

  /** The scanned paths are the candidates whose file no earlier candidate is, in their order. */
  lemma {:induction false} SelectedAreTheFirsts(files: Files, candidates: seq<Path>) returns (at: seq<nat>)
    requires forall p :: p in candidates ==> p in files
    ensures PicksAt(at, candidates, Selected(files, candidates))
    ensures forall i: nat :: i < |candidates| ==> (i in at <==> IsFirst(files, candidates, i))
    decreases |candidates|
  {
    hide IsFirst, PicksAt, Selected;
    if candidates == [] {
      at := [];
      NoPicks(files);
    } else {
      var n := |candidates| - 1;
      var earlier := SelectedAreTheFirsts(files, candidates[..n]);
      FirstMeansNew(files, candidates, n);
      PickOneMore(earlier, candidates, Selected(files, candidates[..n]), n);
      SelectedLast(files, candidates, n);
      at := if IsFirst(files, candidates, n) then earlier + [n] else earlier;
      FirstsOneMore(files, candidates, n, earlier, at);
    }
  }

  lemma SelectedLast(files: Files, candidates: seq<Path>, n: nat)
    requires n == |candidates| - 1 && forall p :: p in candidates ==> p in files
    ensures Selected(files, candidates)
            == if IsFirst(files, candidates, n) then Selected(files, candidates[..n]) + [candidates[n]]
               else Selected(files, candidates[..n])
  {
    FirstMeansNew(files, candidates, n);
  }

  lemma FirstsOneMore(files: Files, candidates: seq<Path>, n: nat, earlier: seq<nat>, at: seq<nat>)
    requires n == |candidates| - 1 && (forall p :: p in candidates ==> p in files) && n !in earlier
    requires forall i: nat :: i < n ==> (i in earlier <==> IsFirst(files, candidates[..n], i))
    requires at == if IsFirst(files, candidates, n) then earlier + [n] else earlier
    ensures forall i: nat :: i < |candidates| ==> (i in at <==> IsFirst(files, candidates, i))
  {
    hide IsFirst;
    FirstMeansNew(files, candidates, n);
    forall i: nat | i < |candidates|
      ensures i in at <==> IsFirst(files, candidates, i)
    {
      assert i < n ==> (i in earlier <==> IsFirst(files, candidates[..n], i));
    }
  }

  lemma NoPicks(files: Files)
    ensures PicksAt([], [], Selected(files, []))
  {
  }

  /** Beside x86 a file is probed for the first architecture it names. */
  lemma {:induction false} FirstOtherIsTheFirst(archs: seq<Arch>, i: nat)
    requires i < |archs| && archs[i] != "x86" && forall j :: 0 <= j < i ==> archs[j] == "x86"
    ensures FirstOther(archs) == Some(archs[i])
    decreases i
  {
    if i > 0 { FirstOtherIsTheFirst(archs[1..], i - 1); }
  }

  /**
   * When the cache serves. After a scan, a file that has changed is probed again. One that has not is
   * taken from the cache if and only if probing found something for each architecture it names, so
   * that it names at least one, and at most one beside x86.
   */
  lemma ReusedExactlyWhenFound(files: Files, probes: Probes, candidates: seq<Path>, cached: seq<Listed>, p: Path,
                               now: File)
    requires Honest(probes) && Faithful(files, probes, candidates, cached) && p in Selected(files, candidates)
    ensures now.fingerprint != files[p].fingerprint ==> !Reused(cached, false, p, now)
    ensures now == files[p] ==>
              (Reused(cached, false, p, now) <==>
               now.architectures != [] && forall a :: a in now.architectures ==> IsFound(probes, p, now, a))
    ensures !Reused(cached, true, p, now)
  {
    hide Selected, FreshTotal, Variants, Probed, FirstOther, Honest, Lanes;
    var variants, was := Variants(cached, p), files[p];
    VariantsAreOldLanes(files, probes, candidates, cached, p);
    forall e: Entry
      ensures e in variants <==> e in Lanes(probes, p, was)
      ensures e in variants ==> e.fingerprint == was.fingerprint && e.abi == ABI && e.arch in was.architectures
    {
      assert e in variants <==> e in multiset(variants);
      if e in Lanes(probes, p, was) { EntriesAreOfTheFile(probes, p, was, e); }
    }
    if variants != [] { assert variants[0] in variants; }
    if was.architectures != [] { assert was.architectures[0] in was.architectures; }
    forall a | a in was.architectures
      ensures (exists e :: e in variants && e.arch == a) <==> IsFound(probes, p, was, a)
    {
      FoundMeansEntries(probes, p, was, a);
    }
  }

  /** Probing for this architecture is done, and finds something. */
  predicate IsFound(probes: Probes, p: Path, file: File, a: Arch) {
    (a == "x86" || FirstOther(file.architectures) == Some(a)) && Probed(probes, p, a, file.fingerprint) != []
  }

  lemma EntriesAreOfTheFile(probes: Probes, p: Path, file: File, e: Entry)
    requires Honest(probes) && e in Lanes(probes, p, file)
    ensures e.fingerprint == file.fingerprint && e.abi == ABI && e.arch in file.architectures
  {
    LanesAreHonest(probes, p, file, e);
    FirstOtherIsNotX86(file.architectures);
    hide Probed, FirstOther;
  }

  lemma FoundMeansEntries(probes: Probes, p: Path, file: File, a: Arch)
    requires Honest(probes) && a in file.architectures
    ensures (exists e :: e in Lanes(probes, p, file) && e.arch == a) <==> IsFound(probes, p, file, a)
  {
    hide FirstOther;
    FirstOtherIsNotX86(file.architectures);
    if IsFound(probes, p, file, a) {
      var e := Probed(probes, p, a, file.fingerprint)[0];
      assert e in Probed(probes, p, a, file.fingerprint);
      assert e in Lanes(probes, p, file);
    }
    forall e | e in Lanes(probes, p, file) && e.arch == a
      ensures IsFound(probes, p, file, a)
    {
      LanesAreHonest(probes, p, file, e);
    }
  }
}
