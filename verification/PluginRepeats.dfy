// When the list a scan computes for a group names an architecture twice.
module PluginRepeats {
  import opened Wrappers
  import opened PluginScan
  import opened PluginLists

  // ------------------------------------------------ the others of a group, as entries

  predicate IsOther(e: Entry, group: int) {
    e.group == group && e.arch != "x64"
  }

  function Others(entries: seq<Entry>, group: int): seq<Entry> {
    if entries == [] then []
    else
      var last := entries[|entries| - 1];
      Others(entries[..|entries| - 1], group) + if IsOther(last, group) then [last] else []
  }

  function Archs(entries: seq<Entry>): seq<Arch> {
    seq(|entries|, i requires 0 <= i < |entries| => entries[i].arch)
  }

  lemma {:induction false} OthersAreOnly(entries: seq<Entry>, group: int)
    ensures Archs(Others(entries, group)) == Only(GroupArchs(entries, group), false)
    decreases |entries|
  {
    if entries != [] {
      var before, last := entries[..|entries| - 1], entries[|entries| - 1];
      OthersAreOnly(before, group);
      var one := if last.group == group then [last.arch] else [];
      OnlyConcat(GroupArchs(before, group), one, false);
      assert Only(one, false) == if IsOther(last, group) then [last.arch] else [];
      hide Only;
    }
  }

  lemma {:induction false} OthersMembers(entries: seq<Entry>, group: int)
    ensures forall e :: e in Others(entries, group) <==> e in entries && IsOther(e, group)
    decreases |entries|
  {
    if entries != [] {
      var before, last := entries[..|entries| - 1], entries[|entries| - 1];
      OthersMembers(before, group);
      assert entries == before + [last];
    }
  }

  lemma {:induction false} OthersConcat(a: seq<Entry>, b: seq<Entry>, group: int)
    ensures Others(a + b, group) == Others(a, group) + Others(b, group)
    decreases |b|
  {
    if b == [] {
      assert a + b == a;
    } else {
      assert (a + b)[..|a + b| - 1] == a + b[..|b| - 1];
      OthersConcat(a, b[..|b| - 1], group);
    }
  }

  /** An entry of another kind between two of one kind: the list names that kind twice. */
  lemma Interleaved(x: seq<Entry>, y: seq<Entry>, z: seq<Entry>, group: int, u: Entry, v: Entry, w: Entry)
    requires u in x && v in y && w in z && u.arch == w.arch != v.arch
    requires IsOther(u, group) && IsOther(v, group) && IsOther(w, group)
    ensures !NamedOnce(ArchList(GroupArchs(x + y + z, group)))
  {
    hide ArchList, GroupArchs, Others, NamedOnce, Only;
    var xs, ys, zs := Others(x, group), Others(y, group), Others(z, group);
    OthersMembers(x, group);
    OthersMembers(y, group);
    OthersMembers(z, group);
    OthersConcat(x, y, group);
    OthersConcat(x + y, z, group);
    OthersAreOnly(x + y + z, group);
    ListNamesTheGroup(GroupArchs(x + y + z, group));
    var i :| 0 <= i < |xs| && xs[i] == u;
    var j :| 0 <= j < |ys| && ys[j] == v;
    var k :| 0 <= k < |zs| && zs[k] == w;
    var all := Archs(xs + ys + zs);
    assert all[i] == u.arch && all[|xs| + j] == v.arch && all[|xs| + |ys| + k] == w.arch;
  }

  // --------------------------------------------------------- the order of a scan

  function IndexOf(paths: seq<Path>, p: Path): (i: nat)
    ensures i <= |paths|
    ensures p in paths ==> i < |paths| && paths[i] == p
    ensures forall j :: 0 <= j < i ==> paths[j] != p
  {
    if paths == [] || paths[0] == p then 0 else 1 + IndexOf(paths[1..], p)
  }

  /** Hits come first, then the x86 lane, then the other. */
  function Stage(files: Files, cached: seq<Listed>, force: bool, e: Entry): int {
    if e.path in files && Reused(cached, force, e.path, files[e.path]) then 0 else if e.arch == "x86" then 1 else 2
  }

  predicate NotAfter(files: Files, cached: seq<Listed>, force: bool, paths: seq<Path>, u: Entry, v: Entry) {
    var s, t := Stage(files, cached, force, u), Stage(files, cached, force, v);
    s < t || (s == t && IndexOf(paths, u.path) <= IndexOf(paths, v.path))
  }

  ghost predicate InOrder(files: Files, cached: seq<Listed>, force: bool, paths: seq<Path>, entries: seq<Entry>) {
    forall i, j :: 0 <= i <= j < |entries| ==> NotAfter(files, cached, force, paths, entries[i], entries[j])
  }

  /** Entries of one stage, of paths before n. */
  ghost predicate OfStage(files: Files, cached: seq<Listed>, force: bool, paths: seq<Path>, entries: seq<Entry>,
                          stage: int, n: nat)
  {
    forall e :: e in entries ==> Stage(files, cached, force, e) == stage && IndexOf(paths, e.path) < n
  }

  lemma OrderConcat(files: Files, cached: seq<Listed>, force: bool, paths: seq<Path>, a: seq<Entry>, b: seq<Entry>)
    requires InOrder(files, cached, force, paths, a) && InOrder(files, cached, force, paths, b)
    requires forall u, v :: u in a && v in b ==> NotAfter(files, cached, force, paths, u, v)
    ensures InOrder(files, cached, force, paths, a + b)
  {
    hide NotAfter;
    var all := a + b;
    forall i, j | 0 <= i <= j < |all|
      ensures NotAfter(files, cached, force, paths, all[i], all[j])
    {
      if j < |a| {
        assert all[i] == a[i] && all[j] == a[j];
      } else if i >= |a| {
        assert all[i] == b[i - |a|] && all[j] == b[j - |a|];
      } else {
        assert all[i] in a && all[j] in b;
      }
    }
  }

  /** What one path adds after those before it. */
  lemma NextPath(files: Files, cached: seq<Listed>, force: bool, paths: seq<Path>, before: seq<Entry>, more: seq<Entry>,
                 stage: int, n: nat)
    requires n < |paths| && InOrder(files, cached, force, paths, before)
    requires OfStage(files, cached, force, paths, before, stage, n)
    requires forall e :: e in more ==> Stage(files, cached, force, e) == stage && IndexOf(paths, e.path) == n
    ensures InOrder(files, cached, force, paths, before + more)
    ensures OfStage(files, cached, force, paths, before + more, stage, n + 1)
  {
    hide Stage, IndexOf;
    OrderConcat(files, cached, force, paths, before, more);
  }

  lemma {:induction false} VariantsHavePath(cached: seq<Listed>, p: Path)
    ensures forall e :: e in Variants(cached, p) ==> e.path == p
    decreases |cached|
  {
    if cached != [] { VariantsHavePath(cached[..|cached| - 1], p); }
  }

  ghost predicate AreDistinct(paths: seq<Path>) {
    forall i, j :: 0 <= i < j < |paths| ==> paths[i] != paths[j]
  }

  lemma PlaceOf(paths: seq<Path>, n: nat)
    requires AreDistinct(paths) && n < |paths|
    ensures IndexOf(paths, paths[n]) == n
  {
    assert paths[n] in paths;
  }

  lemma {:induction false} HitsInOrder(files: Files, cached: seq<Listed>, force: bool, paths: seq<Path>, n: nat)
    requires (forall p :: p in paths ==> p in files) && AreDistinct(paths) && n <= |paths|
    ensures InOrder(files, cached, force, paths, HitEntries(files, cached, force, paths[..n]))
    ensures OfStage(files, cached, force, paths, HitEntries(files, cached, force, paths[..n]), 0, n)
    decreases n
  {
    if n > 0 {
      var p := paths[n - 1];
      HitsInOrder(files, cached, force, paths, n - 1);
      PlaceOf(paths, n - 1);
      VariantsHavePath(cached, p);
      assert paths[..n][..n - 1] == paths[..n - 1];
      var before := HitEntries(files, cached, force, paths[..n - 1]);
      var more := if Reused(cached, force, p, files[p]) then Variants(cached, p) else [];
      hide Reused, Variants;
      NextPath(files, cached, force, paths, before, more, 0, n - 1);
    }
  }

  lemma {:induction false} LanesInOrder(files: Files, probes: Probes, cached: seq<Listed>, force: bool,
                                        paths: seq<Path>, x86: bool, n: nat)
    requires Honest(probes) && (forall p :: p in paths ==> p in files) && AreDistinct(paths) && n <= |paths|
    ensures var found := LaneEntries(files, probes, cached, force, paths[..n], x86);
            && InOrder(files, cached, force, paths, found)
            && OfStage(files, cached, force, paths, found, if x86 then 1 else 2, n)
    decreases n
  {
    if n > 0 {
      var p := paths[n - 1];
      LanesInOrder(files, probes, cached, force, paths, x86, n - 1);
      PlaceOf(paths, n - 1);
      assert paths[..n][..n - 1] == paths[..n - 1];
      var before := LaneEntries(files, probes, cached, force, paths[..n - 1], x86);
      var lane := if x86 then X86Lane(probes, p, files[p]) else OtherLane(probes, p, files[p]);
      var more := if Reused(cached, force, p, files[p]) then [] else lane;
      hide Reused, X86Lane, OtherLane, Honest;
      forall e | e in more
        ensures Stage(files, cached, force, e) == (if x86 then 1 else 2) && IndexOf(paths, e.path) == n - 1
      {
        assert e in Lanes(probes, p, files[p]);
        LanesAreHonest(probes, p, files[p], e);
      }
      NextPath(files, cached, force, paths, before, more, if x86 then 1 else 2, n - 1);
    }
  }

  /** A scan's entries come in the order of their stages, and in the order of the paths within a stage. */
  lemma ScanInOrder(files: Files, probes: Probes, cached: seq<Listed>, force: bool, paths: seq<Path>)
    requires Honest(probes) && (forall p :: p in paths ==> p in files) && AreDistinct(paths)
    ensures InOrder(files, cached, force, paths, ScanEntries(files, probes, cached, force, paths))
  {
    HitsInOrder(files, cached, force, paths, |paths|);
    LanesInOrder(files, probes, cached, force, paths, true, |paths|);
    LanesInOrder(files, probes, cached, force, paths, false, |paths|);
    hide InOrder, Stage, IndexOf, HitEntries, LaneEntries;
    assert paths[..|paths|] == paths;
    var hits := HitEntries(files, cached, force, paths);
    var x86 := LaneEntries(files, probes, cached, force, paths, true);
    var other := LaneEntries(files, probes, cached, force, paths, false);
    OrderConcat(files, cached, force, paths, hits, x86);
    OrderConcat(files, cached, force, paths, hits + x86, other);
  }

  lemma {:induction false} OthersInOrder(files: Files, cached: seq<Listed>, force: bool, paths: seq<Path>,
                                         entries: seq<Entry>, group: int)
    requires InOrder(files, cached, force, paths, entries)
    ensures InOrder(files, cached, force, paths, Others(entries, group))
    decreases |entries|
  {
    hide NotAfter;
    if entries != [] {
      var before, last := entries[..|entries| - 1], entries[|entries| - 1];
      OthersInOrder(files, cached, force, paths, before, group);
      OthersMembers(before, group);
      forall u | u in before
        ensures NotAfter(files, cached, force, paths, u, last)
      {
        var i :| 0 <= i < |before| && before[i] == u;
        assert entries[i] == u;
      }
      assert NotAfter(files, cached, force, paths, entries[|entries| - 1], entries[|entries| - 1]);
      if IsOther(last, group) {
        OrderConcat(files, cached, force, paths, Others(before, group), [last]);
      }
    }
  }

  // ------------------------------------------------------- which files can interleave

  /** The file holds an entry of the group for this architecture. */
  ghost predicate Holds(files: Files, probes: Probes, p: Path, group: int, a: Arch)
    requires p in files
  {
    exists e :: Finds(files, probes, p, e) && e.group == group && e.arch == a
  }

  /** Every architecture the file offers has something to find: then an earlier scan of it can be a cache hit. */
  ghost predicate FullyFound(files: Files, probes: Probes, p: Path)
    requires p in files
  {
    forall a :: a in files[p].architectures ==> Probed(probes, p, a, files[p].fingerprint) != []
  }

  /**
   * Two files p and q of one kind and a file r of another, which some cache can bring between
   * them: always, unless p and q are 32-bit; then only if p can be a hit and comes before r.
   */
  ghost predicate CanComeBetween(files: Files, probes: Probes, paths: seq<Path>, group: int, p: Path, q: Path, r: Path,
                                 a: Arch, b: Arch)
    requires p in files && q in files && r in files
  {
    && p != q && Holds(files, probes, p, group, a) && Holds(files, probes, q, group, a)
    && Holds(files, probes, r, group, b) && a != b && a != "x64" && b != "x64"
    && (a == "x86" ==> FullyFound(files, probes, p) && IndexOf(paths, p) < IndexOf(paths, r))
  }

  ghost predicate SomeComeBetween(files: Files, probes: Probes, paths: seq<Path>, group: int)
    requires forall p :: p in paths ==> p in files
  {
    exists p, q, r, a, b :: p in paths && q in paths && r in paths
                            && CanComeBetween(files, probes, paths, group, p, q, r, a, b)
  }

  /** Without a cache: three files in order, none of them 32-bit, the one between of another kind. */
  ghost predicate InBetween(files: Files, probes: Probes, paths: seq<Path>, group: int, p: Path, q: Path, r: Path,
                            a: Arch, b: Arch)
    requires p in files && q in files && r in files
  {
    && Holds(files, probes, p, group, a) && Holds(files, probes, q, group, a) && Holds(files, probes, r, group, b)
    && a != b && a !in {"x64", "x86"} && b !in {"x64", "x86"}
    && IndexOf(paths, p) < IndexOf(paths, r) < IndexOf(paths, q)
  }

  ghost predicate SomeIsInBetween(files: Files, probes: Probes, paths: seq<Path>, group: int)
    requires forall p :: p in paths ==> p in files
  {
    exists p, q, r, a, b :: p in paths && q in paths && r in paths
                            && InBetween(files, probes, paths, group, p, q, r, a, b)
  }

  /** A file has one architecture besides x64 at most. */
  lemma OneOtherEach(files: Files, probes: Probes, p: Path, e: Entry, e': Entry)
    requires Honest(probes) && Offered(files) && p in files && Finds(files, probes, p, e) && Finds(files, probes, p, e')
    requires e.arch != "x64" && e'.arch != "x64"
    ensures e.arch == e'.arch
  {
    var a :| a in files[p].architectures && e in Probed(probes, p, a, files[p].fingerprint);
    var b :| b in files[p].architectures && e' in Probed(probes, p, b, files[p].fingerprint);
    assert e.arch == a && e'.arch == b;
  }

  lemma LanesAreFound(files: Files, probes: Probes, p: Path, e: Entry)
    requires Offered(files) && p in files
    ensures e in Lanes(probes, p, files[p]) <==> Finds(files, probes, p, e)
  {
    LanesFindAll(files, probes, p, e);
    hide Finds, X86Lane, OtherLane, Offered;
  }

  /** Whatever faithful cache a scan is given, its entries are what probing their files finds. */
  lemma EntriesAreFound(files: Files, probes: Probes, candidates: seq<Path>, force: bool, before: Files,
                        earlier: seq<Path>, cached: seq<Listed>, e: Entry)
    requires Honest(probes) && Offered(files) && Faithful(before, probes, earlier, cached)
    requires (forall p :: p in candidates ==> p in files) && forall p :: p in Selected(files, candidates) ==> p in files
    requires e in ScanEntries(files, probes, cached, force, Selected(files, candidates))
    ensures e.path in Selected(files, candidates) && Finds(files, probes, e.path, e)
  {
    var paths := Selected(files, candidates);
    hide Selected, ScanEntries, Honest, Offered, Faithful, Finds, Lanes;
    ScanAddsUp(files, probes, cached, force, paths);
    ScanAddsUp(files, probes, [], true, paths);
    CachedTotalIsFresh(files, probes, paths, force, before, earlier, cached);
    assert e in multiset(ScanEntries(files, probes, cached, force, paths));
    assert e in multiset(ScanEntries(files, probes, [], true, paths));
    UncachedMembers(files, probes, paths, e);
    var p :| p in paths && Finds(files, probes, p, e);
    LanesAreFound(files, probes, p, e);
    LanesAreHonest(probes, p, files[p], e);
  }

  /** A list that names an architecture twice comes from three entries, in the scan's order. */
  lemma RepeatHasThree(files: Files, cached: seq<Listed>, force: bool, paths: seq<Path>, entries: seq<Entry>,
                       group: int)
      returns (u: Entry, v: Entry, w: Entry)
    requires InOrder(files, cached, force, paths, entries) && !NamedOnce(ArchList(GroupArchs(entries, group)))
    ensures u in entries && v in entries && w in entries && u.arch == w.arch != v.arch
    ensures IsOther(u, group) && IsOther(v, group) && IsOther(w, group)
    ensures NotAfter(files, cached, force, paths, u, v) && NotAfter(files, cached, force, paths, v, w)
  {
    hide ArchList, GroupArchs, Others, NamedOnce, Only, NotAfter;
    var others := Others(entries, group);
    ListNamesTheGroup(GroupArchs(entries, group));
    OthersAreOnly(entries, group);
    OthersMembers(entries, group);
    OthersInOrder(files, cached, force, paths, entries, group);
    var archs := Archs(others);
    var i, j, k :| 0 <= i < j < k < |archs| && archs[i] == archs[k] && archs[j] != archs[i];
    u, v, w := others[i], others[j], others[k];
    assert u in others && v in others && w in others;
  }

  /** With a faithful cache, these are entries of files that can come between. */
  lemma RepeatComesBetween(files: Files, probes: Probes, candidates: seq<Path>, group: int, before: Files,
                           earlier: seq<Path>, cached: seq<Listed>)
    requires Honest(probes) && Offered(files) && Faithful(before, probes, earlier, cached)
    requires (forall p :: p in candidates ==> p in files) && forall p :: p in Selected(files, candidates) ==> p in files
    requires !NamedOnce(ListOf(files, probes, cached, false, Selected(files, candidates), group))
    ensures SomeComeBetween(files, probes, Selected(files, candidates), group)
  {
    hide Selected, ScanEntries, Honest, Offered, Faithful, Finds, FullyFound, NamedOnce, ArchList, GroupArchs, InOrder;
    var paths := Selected(files, candidates);
    SelectedAreDistinct(files, candidates);
    ScanInOrder(files, probes, cached, false, paths);
    var entries := ScanEntries(files, probes, cached, false, paths);
    var u, v, w := RepeatHasThree(files, cached, false, paths, entries, group);
    EntriesAreFound(files, probes, candidates, false, before, earlier, cached, u);
    EntriesAreFound(files, probes, candidates, false, before, earlier, cached, v);
    EntriesAreFound(files, probes, candidates, false, before, earlier, cached, w);
    if u.path == v.path { OneOtherEach(files, probes, u.path, u, v); }
    if v.path == w.path { OneOtherEach(files, probes, v.path, v, w); }
    DifferentPlaces(paths, u.path, v.path);
    DifferentPlaces(paths, v.path, w.path);
    hide IndexOf;
    if u.arch == "x86" {
      assert Stage(files, cached, false, u) == 0;
      HitsAreFullyFound(files, probes, before, earlier, cached, u.path);
    }
    assert CanComeBetween(files, probes, paths, group, u.path, w.path, v.path, u.arch, v.arch);
  }

  lemma DifferentPlaces(paths: seq<Path>, p: Path, q: Path)
    requires p in paths && q in paths && p != q
    ensures IndexOf(paths, p) != IndexOf(paths, q)
  {
  }

  /** A hit has found something for every architecture. */
  lemma HitsAreFullyFound(files: Files, probes: Probes, before: Files, earlier: seq<Path>, cached: seq<Listed>, p: Path)
    requires Honest(probes) && Faithful(before, probes, earlier, cached)
    requires p in files && Reused(cached, false, p, files[p])
    ensures FullyFound(files, probes, p)
  {
    var variants := Variants(cached, p);
    HitsAreFresh(before, probes, earlier, cached, p, files[p]);
    hide Variants, Faithful;
    forall a | a in files[p].architectures
      ensures Probed(probes, p, a, files[p].fingerprint) != []
    {
      var e :| e in variants && e.arch == a;
      assert e in multiset(variants);
      LanesAreHonest(probes, p, files[p], e);
    }
  }

  lemma UncachedRepeatIsInBetween(files: Files, probes: Probes, candidates: seq<Path>, group: int)
    requires Honest(probes) && Offered(files)
    requires (forall p :: p in candidates ==> p in files) && forall p :: p in Selected(files, candidates) ==> p in files
    requires !NamedOnce(ListOf(files, probes, [], true, Selected(files, candidates), group))
    ensures SomeIsInBetween(files, probes, Selected(files, candidates), group)
  {
    hide Selected, ScanEntries, Honest, Offered, Faithful, Finds, NamedOnce, ArchList, GroupArchs, InOrder;
    var paths := Selected(files, candidates);
    SelectedAreDistinct(files, candidates);
    ScanInOrder(files, probes, [], true, paths);
    NothingIsFaithful(probes);
    var entries := ScanEntries(files, probes, [], true, paths);
    var u, v, w := RepeatHasThree(files, [], true, paths, entries, group);
    EntriesAreFound(files, probes, candidates, true, map[], [], [], u);
    EntriesAreFound(files, probes, candidates, true, map[], [], [], v);
    EntriesAreFound(files, probes, candidates, true, map[], [], [], w);
    if u.path == v.path { OneOtherEach(files, probes, u.path, u, v); }
    if v.path == w.path { OneOtherEach(files, probes, v.path, v, w); }
    DifferentPlaces(paths, u.path, v.path);
    DifferentPlaces(paths, v.path, w.path);
    hide IndexOf;
    assert InBetween(files, probes, paths, group, u.path, w.path, v.path, u.arch, v.arch);
  }

  lemma NothingIsFaithful(probes: Probes)
    ensures Faithful(map[], probes, [], [])
  {
    assert Entries([]) == [];
  }

  // -------------------------------------------------------- caches that interleave

  lemma TwoSelected(files: Files, a: Path, b: Path)
    requires a in files && b in files && files[a].identity != files[b].identity
    ensures Selected(files, [a]) == [a] && Selected(files, [a, b]) == [a, b]
    ensures Identities(files, [a, b]) == {files[a].identity, files[b].identity}
  {
    NoneSelected(files);
    hide Selected, Identities;
    Joins(a, b, b);
    SelectedOneMore(files, [], a);
    SelectedOneMore(files, [a], b);
  }

  lemma NoneSelected(files: Files)
    ensures Selected(files, []) == [] && Identities(files, []) == {}
  {
  }

  lemma Joins<T>(x: T, y: T, z: T)
    ensures [] + [x] == [x] && [x] + [] == [x] && [x] + [y] == [x, y] && [x, y] + [] == [x, y]
    ensures [x, y] + [z] == [x, y, z] && [x] + [z] == [x, z] && [] + [x, z] + [y] == [x, z, y]
    ensures [x, y] + [z] + [] == [x, y, z] && [] + [x] + [y] == [x, y] && [x, y] + [] + [] == [x, y]
  {
  }

  lemma ListedAsScanned(entries: seq<Entry>)
    ensures forall k :: 0 <= k < |ListAll(entries)| ==>
              ListAll(entries)[k].available == ArchList(GroupArchs(entries, ListAll(entries)[k].entry.group))
  {
    hide ArchList, GroupArchs;
  }

  /** The result of a scan of these paths without a cache. */
  function CacheOf(files: Files, probes: Probes, earlier: seq<Path>): seq<Listed>
    requires forall p :: p in earlier ==> p in files
  {
    ListAll(ScanEntries(files, probes, [], true, earlier))
  }

  lemma CacheIsScan(files: Files, probes: Probes, earlier: seq<Path>)
    requires (forall p :: p in earlier ==> p in files) && Selected(files, earlier) == earlier
    ensures IsScan(files, probes, earlier, [], true, CacheOf(files, probes, earlier))
  {
    ListedAsScanned(ScanEntries(files, probes, [], true, earlier));
    hide ScanEntries, Selected, ListAll, GroupArchs, ArchList;
  }

  /** With such a cache its paths are hits, if all their architectures were found, and no others are. */
  lemma ReusedExactly(files: Files, probes: Probes, earlier: seq<Path>, p: Path)
    requires Honest(probes) && Offered(files) && p in files
    requires (forall q :: q in earlier ==> q in files) && Selected(files, earlier) == earlier
    requires p in earlier ==> FullyFound(files, probes, p)
    ensures var cached := CacheOf(files, probes, earlier);
            && Reused(cached, false, p, files[p]) == (p in earlier)
            && (p in earlier ==> forall e :: Finds(files, probes, p, e) ==> e in Variants(cached, p))
  {
    var cached := CacheOf(files, probes, earlier);
    CacheIsScan(files, probes, earlier);
    UncachedScansAreFaithful(files, probes, earlier, true, cached);
    VariantsAreOldLanes(files, probes, earlier, cached, p);
    hide CacheOf, Selected, Variants, Finds, Lanes;
    var variants := Variants(cached, p);
    if p in earlier {
      forall e
        ensures e in variants <==> Finds(files, probes, p, e)
      {
        assert e in variants <==> e in multiset(variants);
        LanesAreFound(files, probes, p, e);
      }
      FoundIsAHit(files, probes, p, variants);
    } else {
      assert |multiset(variants)| == 0;
    }
  }

  lemma FoundIsAHit(files: Files, probes: Probes, p: Path, variants: seq<Entry>)
    requires Honest(probes) && Offered(files) && p in files && FullyFound(files, probes, p)
    requires forall e :: e in variants <==> Finds(files, probes, p, e)
    ensures IsHit(variants, files[p])
  {
    var file := files[p];
    assert file.architectures[0] in file.architectures;
    forall a | a in file.architectures
      ensures exists e :: e in variants && e.arch == a
    {
      var e := Probed(probes, p, a, file.fingerprint)[0];
      assert e in Probed(probes, p, a, file.fingerprint);
      assert Finds(files, probes, p, e);
    }
    forall e | e in variants
      ensures e.arch in file.architectures && e.fingerprint == file.fingerprint && e.abi == ABI
    {
      assert Finds(files, probes, p, e);
    }
    var e :| e in variants && e.arch == file.architectures[0];
  }

  /** A file of another architecture offers no other, so it is fully found once it holds anything. */
  lemma AloneIsFullyFound(files: Files, probes: Probes, p: Path, group: int, a: Arch)
    requires Honest(probes) && Offered(files) && p in files && Holds(files, probes, p, group, a) && a !in {"x64", "x86"}
    ensures FullyFound(files, probes, p) && files[p].architectures == [a]
  {
    var e :| Finds(files, probes, p, e) && e.group == group && e.arch == a;
    var c :| c in files[p].architectures && e in Probed(probes, p, c, files[p].fingerprint);
  }

  lemma LastOne<T>(a: seq<T>, b: seq<T>)
    requires b != []
    ensures a + b == (a + b[..|b| - 1]) + [b[|b| - 1]] && b == b[..|b| - 1] + [b[|b| - 1]]
  {
  }

  lemma Associate<T>(a: seq<T>, b: seq<T>, c: seq<T>)
    ensures a + (b + c) == a + b + c && a + [] == a
  {
  }

  function HitsOf(files: Files, cached: seq<Listed>, force: bool, p: Path): seq<Entry>
    requires p in files
  {
    if Reused(cached, force, p, files[p]) then Variants(cached, p) else []
  }

  function LaneOf(files: Files, probes: Probes, cached: seq<Listed>, force: bool, p: Path, x86: bool): seq<Entry>
    requires p in files
  {
    if Reused(cached, force, p, files[p]) then []
    else if x86 then X86Lane(probes, p, files[p]) else OtherLane(probes, p, files[p])
  }

  lemma OneMorePath(files: Files, probes: Probes, cached: seq<Listed>, force: bool, paths: seq<Path>, p: Path,
                    x86: bool)
    requires (forall q :: q in paths ==> q in files) && p in files
    ensures HitEntries(files, cached, force, paths + [p])
            == HitEntries(files, cached, force, paths) + HitsOf(files, cached, force, p)
    ensures LaneEntries(files, probes, cached, force, paths + [p], x86)
            == LaneEntries(files, probes, cached, force, paths, x86) + LaneOf(files, probes, cached, force, p, x86)
  {
    EntriesOneMore(files, probes, cached, force, paths, p);
    hide HitEntries, LaneEntries, Reused, Variants, X86Lane, OtherLane;
  }

  lemma {:induction false} HitsConcat(files: Files, cached: seq<Listed>, force: bool, a: seq<Path>, b: seq<Path>)
    requires (forall p :: p in a ==> p in files) && forall p :: p in b ==> p in files
    ensures HitEntries(files, cached, force, a + b)
        == HitEntries(files, cached, force, a) + HitEntries(files, cached, force, b)
    decreases |b|
  {
    NothingYet(files, map[], cached, force);
    hide HitEntries, HitsOf;
    Associate(a, [], []);
    if b == [] {
      Associate(HitEntries(files, cached, force, a), [], []);
    } else {
      var before, last := b[..|b| - 1], b[|b| - 1];
      LastOne(a, b);
      HitsConcat(files, cached, force, a, before);
      OneMorePath(files, map[], cached, force, a + before, last, true);
      OneMorePath(files, map[], cached, force, before, last, true);
      Associate(HitEntries(files, cached, force, a), HitEntries(files, cached, force, before),
                HitsOf(files, cached, force, last));
    }
  }

  lemma {:induction false} LanesConcat(files: Files, probes: Probes, cached: seq<Listed>, force: bool, a: seq<Path>,
                                       b: seq<Path>, x86: bool)
    requires (forall p :: p in a ==> p in files) && forall p :: p in b ==> p in files
    ensures LaneEntries(files, probes, cached, force, a + b, x86)
            == LaneEntries(files, probes, cached, force, a, x86) + LaneEntries(files, probes, cached, force, b, x86)
    decreases |b|
  {
    NothingYet(files, probes, cached, force);
    hide LaneEntries, LaneOf;
    Associate(a, [], []);
    if b == [] {
      Associate(LaneEntries(files, probes, cached, force, a, x86), [], []);
    } else {
      var before, last := b[..|b| - 1], b[|b| - 1];
      LastOne(a, b);
      LanesConcat(files, probes, cached, force, a, before, x86);
      OneMorePath(files, probes, cached, force, a + before, last, x86);
      OneMorePath(files, probes, cached, force, before, last, x86);
      Associate(LaneEntries(files, probes, cached, force, a, x86),
          LaneEntries(files, probes, cached, force, before, x86),
                LaneOf(files, probes, cached, force, last, x86));
    }
  }

  lemma {:induction false} LaneHas(files: Files, probes: Probes, cached: seq<Listed>, force: bool, paths: seq<Path>,
                                   x86: bool, p: Path, e: Entry)
    requires (forall q :: q in paths ==> q in files) && p in paths && !Reused(cached, force, p, files[p])
    requires e in if x86 then X86Lane(probes, p, files[p]) else OtherLane(probes, p, files[p])
    ensures e in LaneEntries(files, probes, cached, force, paths, x86)
    decreases |paths|
  {
    hide Reused, X86Lane, OtherLane;
    var before, last := paths[..|paths| - 1], paths[|paths| - 1];
    assert paths == before + [last];
    if p in before { LaneHas(files, probes, cached, force, before, x86, p, e); }
  }

  /** The lane in which a scan finds an entry of a file it does not reuse. */
  lemma LaneOfKind(files: Files, probes: Probes, cached: seq<Listed>, force: bool, paths: seq<Path>, p: Path, e: Entry)
    requires Honest(probes) && Offered(files) && (forall q :: q in paths ==> q in files) && p in paths
    requires !Reused(cached, force, p, files[p]) && Finds(files, probes, p, e)
    ensures e in LaneEntries(files, probes, cached, force, paths, e.arch == "x86")
  {
    LanesFindAll(files, probes, p, e);
    hide Finds, Reused, Offered, X86Lane, OtherLane, LaneEntries, Honest;
    var x86 := e in X86Lane(probes, p, files[p]);
    assert e in Lanes(probes, p, files[p]);
    LanesAreHonest(probes, p, files[p], e);
    LaneHas(files, probes, cached, force, paths, x86, p, e);
  }

  lemma HitHas(files: Files, probes: Probes, earlier: seq<Path>, paths: seq<Path>, p: Path, e: Entry)
    requires Honest(probes) && Offered(files) && (forall q :: q in paths ==> q in files) && p in paths && p in earlier
    requires (forall q :: q in earlier ==> q in files) && Selected(files, earlier) == earlier
    requires FullyFound(files, probes, p) && Finds(files, probes, p, e)
    ensures e in HitEntries(files, CacheOf(files, probes, earlier), false, paths)
  {
    ReusedExactly(files, probes, earlier, p);
    hide CacheOf, Reused, Variants, Finds, FullyFound, HitEntries;
    HitMembers(files, CacheOf(files, probes, earlier), false, paths, e);
  }

  // ------------------------------------------------------------- the three ways

  ghost predicate Differ(group: int, u: Entry, v: Entry, w: Entry) {
    IsOther(u, group) && IsOther(v, group) && IsOther(w, group) && u.arch == w.arch != v.arch
  }

  /** Two hits in order, and a third file of the first one's kind that is no hit. */
  lemma TwoHitsAndALane(files: Files, probes: Probes, paths: seq<Path>, group: int, p: Path, r: Path, q: Path,
                        u: Entry, v: Entry, w: Entry)
    requires Honest(probes) && Offered(files) && (forall t :: t in paths ==> t in files)
    requires p in paths && r in paths && q in paths && IndexOf(paths, p) < IndexOf(paths, r) && q !in [p, r]
    requires Selected(files, [p, r]) == [p, r] && FullyFound(files, probes, p) && FullyFound(files, probes, r)
    requires Finds(files, probes, p, u) && Finds(files, probes, r, v) && Finds(files, probes, q, w)
    requires Differ(group, u, v, w)
    ensures !NamedOnce(ListOf(files, probes, CacheOf(files, probes, [p, r]), false, paths, group))
  {
    hide IndexOf, Selected, Finds, FullyFound, CacheOf, HitEntries, LaneEntries, NamedOnce, ArchList, GroupArchs;
    hide Reused, Differ, Honest, Offered;
    var first, rest := SplitPaths(paths, p, r);
    var earlier := [p, r];
    var cached := CacheOf(files, probes, earlier);
    ReusedExactly(files, probes, earlier, q);
    HitHas(files, probes, earlier, first, p, u);
    HitHas(files, probes, earlier, rest, r, v);
    LaneOfKind(files, probes, cached, false, paths, q, w);
    HitsConcat(files, cached, false, first, rest);
    var x86 := LaneEntries(files, probes, cached, false, paths, true);
    var other := LaneEntries(files, probes, cached, false, paths, false);
    var x, y := HitEntries(files, cached, false, first), HitEntries(files, cached, false, rest);
    assert w in x86 + other;
    Regrouped(x, y, x86, other);
    Between(x, y, x86 + other, group, u, v, w);
  }

  lemma Between(x: seq<Entry>, y: seq<Entry>, z: seq<Entry>, group: int, u: Entry, v: Entry, w: Entry)
    requires u in x && v in y && w in z && Differ(group, u, v, w)
    ensures !NamedOnce(ArchList(GroupArchs(x + y + z, group)))
  {
    Interleaved(x, y, z, group, u, v, w);
  }

  lemma SplitPaths(paths: seq<Path>, p: Path, r: Path) returns (first: seq<Path>, rest: seq<Path>)
    requires p in paths && r in paths && IndexOf(paths, p) < IndexOf(paths, r)
    ensures paths == first + rest && p in first && r in rest
  {
    var n := IndexOf(paths, p) + 1;
    first, rest := paths[..n], paths[n..];
    assert paths[n - 1] == first[n - 1] && paths[IndexOf(paths, r)] == rest[IndexOf(paths, r) - n];
  }


  lemma LeadRegrouped<T>(a: seq<T>, x: seq<T>, y: seq<T>, z: seq<T>)
    ensures a + (x + (y + z)) == a + x + y + z
  {
  }

  lemma Regrouped<T>(a: seq<T>, b: seq<T>, c: seq<T>, d: seq<T>)
    ensures a + b + (c + d) == (a + b) + c + d && a + b + c + d == (a + b) + (c + d)
    ensures a + b + (c + d) == a + (b + c) + d
  {
  }

  /** One hit, a 32-bit file, and a file of the hit's kind in the other lane. */
  lemma HitThenLanes(files: Files, probes: Probes, paths: seq<Path>, group: int, p: Path, r: Path, q: Path,
                     u: Entry, v: Entry, w: Entry)
    requires Honest(probes) && Offered(files) && (forall t :: t in paths ==> t in files)
    requires p in paths && r in paths && q in paths && r != p && q != p
    requires Selected(files, [p]) == [p] && FullyFound(files, probes, p)
    requires Finds(files, probes, p, u) && Finds(files, probes, r, v) && Finds(files, probes, q, w)
    requires Differ(group, u, v, w)
    requires v.arch == "x86"
    ensures !NamedOnce(ListOf(files, probes, CacheOf(files, probes, [p]), false, paths, group))
  {
    hide Selected, Finds, FullyFound, CacheOf, HitEntries, LaneEntries, NamedOnce, ArchList, GroupArchs;
    hide Reused, IsOther;
    var cached := CacheOf(files, probes, [p]);
    ReusedExactly(files, probes, [p], q);
    ReusedExactly(files, probes, [p], r);
    HitHas(files, probes, [p], paths, p, u);
    LaneOfKind(files, probes, cached, false, paths, r, v);
    LaneOfKind(files, probes, cached, false, paths, q, w);
    Between(HitEntries(files, cached, false, paths), LaneEntries(files, probes, cached, false, paths, true),
            LaneEntries(files, probes, cached, false, paths, false), group, u, v, w);
  }

  /** One hit, and then two files of the other lane in order, the second of the hit's kind. */
  lemma HitThenLane(files: Files, probes: Probes, paths: seq<Path>, group: int, p: Path, r: Path, q: Path,
                    u: Entry, v: Entry, w: Entry)
    requires Honest(probes) && Offered(files) && (forall t :: t in paths ==> t in files)
    requires p in paths && r in paths && q in paths && r != p && q != p && IndexOf(paths, r) < IndexOf(paths, q)
    requires Selected(files, [p]) == [p] && FullyFound(files, probes, p)
    requires Finds(files, probes, p, u) && Finds(files, probes, r, v) && Finds(files, probes, q, w)
    requires Differ(group, u, v, w)
    requires v.arch != "x86" && w.arch != "x86"
    ensures !NamedOnce(ListOf(files, probes, CacheOf(files, probes, [p]), false, paths, group))
  {
    hide IndexOf, Selected, Finds, FullyFound, CacheOf, HitEntries, LaneEntries, NamedOnce, ArchList, GroupArchs;
    hide Reused, IsOther, Honest, Offered;
    var first, rest := SplitPaths(paths, r, q);
    var cached := CacheOf(files, probes, [p]);
    ReusedExactly(files, probes, [p], q);
    ReusedExactly(files, probes, [p], r);
    HitHas(files, probes, [p], paths, p, u);
    LaneOfKind(files, probes, cached, false, first, r, v);
    LaneOfKind(files, probes, cached, false, rest, q, w);
    LanesConcat(files, probes, cached, false, first, rest, false);
    var hits, x86 := HitEntries(files, cached, false, paths), LaneEntries(files, probes, cached, false, paths, true);
    var y := LaneEntries(files, probes, cached, false, first, false);
    var z := LaneEntries(files, probes, cached, false, rest, false);
    assert u in hits + x86;
    Regrouped(hits, x86, y, z);
    Between(hits + x86, y, z, group, u, v, w);
  }

  // ------------------------------------------------------- the exact conditions

  /** Selected paths have identities of their own. */
  lemma {:induction false} OwnIdentities(files: Files, candidates: seq<Path>, p: Path, q: Path)
    requires (forall c :: c in candidates ==> c in files) && p != q
    requires p in Selected(files, candidates) && q in Selected(files, candidates)
    ensures p in files && q in files && files[p].identity != files[q].identity
    decreases |candidates|
  {
    var before, last := candidates[..|candidates| - 1], candidates[|candidates| - 1];
    assert candidates == before + [last];
    SelectedOneMore(files, before, last);
    SelectedAreCandidates(files, before);
    hide Selected;
    if p in Selected(files, before) && q in Selected(files, before) {
      OwnIdentities(files, before, p, q);
    }
  }

  lemma EntryOf(files: Files, probes: Probes, p: Path, group: int, a: Arch) returns (e: Entry)
    requires p in files && Holds(files, probes, p, group, a) && a != "x64"
    ensures Finds(files, probes, p, e) && IsOther(e, group) && e.arch == a
  {
    e :| Finds(files, probes, p, e) && e.group == group && e.arch == a;
  }

  /** For files that can come between, the result of an earlier scan of one or two of them that lets them. */
  lemma SomeCacheRepeats(files: Files, probes: Probes, candidates: seq<Path>, group: int, p: Path, q: Path, r: Path,
                         a: Arch, b: Arch) returns (earlier: seq<Path>, cached: seq<Listed>)
    requires Honest(probes) && Offered(files)
    requires (forall c :: c in candidates ==> c in files) && forall c :: c in Selected(files, candidates) ==> c in files
    requires var paths := Selected(files, candidates);
             p in paths && q in paths && r in paths && CanComeBetween(files, probes, paths, group, p, q, r, a, b)
    ensures IsScan(files, probes, earlier, [], true, cached)
    ensures !NamedOnce(ListOf(files, probes, cached, false, Selected(files, candidates), group))
  {
    hide Selected, Finds, FullyFound, NamedOnce, ListOf, IndexOf, Holds, Offered, Honest, CacheOf, IsScan;
    var paths := Selected(files, candidates);
    var u := EntryOf(files, probes, p, group, a);
    var w := EntryOf(files, probes, q, group, a);
    var v := EntryOf(files, probes, r, group, b);
    if p == r { OneOtherEach(files, probes, p, u, v); }
    if q == r { OneOtherEach(files, probes, q, w, v); }
    OwnIdentities(files, candidates, p, q);
    OwnIdentities(files, candidates, p, r);
    TwoSelected(files, p, r);
    TwoSelected(files, q, p);
    if a != "x86" { AloneIsFullyFound(files, probes, p, group, a); AloneIsFullyFound(files, probes, q, group, a); }
    if b != "x86" { AloneIsFullyFound(files, probes, r, group, b); }
    DifferentPlaces(paths, p, r);
    if IndexOf(paths, p) < IndexOf(paths, r) && b != "x86" {
      earlier := [p, r];
      TwoHitsAndALane(files, probes, paths, group, p, r, q, u, v, w);
    } else if b == "x86" {
      earlier := [p];
      HitThenLanes(files, probes, paths, group, p, r, q, u, v, w);
    } else {
      earlier := [q];
      HitThenLane(files, probes, paths, group, q, r, p, w, v, u);
    }
    cached := CacheOf(files, probes, earlier);
    CacheIsScan(files, probes, earlier);
  }

  /** The list names each architecture once, whatever faithful cache the scan is given. */
  ghost predicate NamedOnceUnderEveryCache(files: Files, probes: Probes, candidates: seq<Path>, group: int)
    requires (forall q :: q in candidates ==> q in files) && forall q :: q in Selected(files, candidates) ==> q in files
  {
    forall before: Files, earlier: seq<Path>, cached: seq<Listed> :: Faithful(before, probes, earlier, cached) ==>
      NamedOnce(ListOf(files, probes, cached, false, Selected(files, candidates), group))
  }

  /**
   * When a group's list names each architecture once: for every earlier state of the disk and every
   * result a scan of it can have left as the cache, if and only if no two of the selected files hold
   * one architecture besides x64 where a third, of another, can come between.
   */
  lemma CachedListsNameOnceExactly(files: Files, probes: Probes, candidates: seq<Path>, group: int)
    requires Honest(probes) && Offered(files) && forall q :: q in candidates ==> q in files
    ensures forall q :: q in Selected(files, candidates) ==> q in files
    ensures NamedOnceUnderEveryCache(files, probes, candidates, group)
            <==> !SomeComeBetween(files, probes, Selected(files, candidates), group)
  {
    SelectedAreCandidates(files, candidates);
    var paths := Selected(files, candidates);
    hide Selected, Faithful, NamedOnce, ListOf, CanComeBetween, IsScan, Honest, Offered;
    if SomeComeBetween(files, probes, paths, group) {
      var p, q, r, a, b :| p in paths && q in paths && r in paths
                           && CanComeBetween(files, probes, paths, group, p, q, r, a, b);
      var earlier, cached := SomeCacheRepeats(files, probes, candidates, group, p, q, r, a, b);
      UncachedScansAreFaithful(files, probes, earlier, true, cached);
    } else {
      forall before: Files, earlier: seq<Path>, cached: seq<Listed> | Faithful(before, probes, earlier, cached)
        ensures NamedOnce(ListOf(files, probes, cached, false, paths, group))
      {
        if !NamedOnce(ListOf(files, probes, cached, false, paths, group)) {
          RepeatComesBetween(files, probes, candidates, group, before, earlier, cached);
        }
      }
    }
  }

  lemma UncachedInterleave(files: Files, probes: Probes, paths: seq<Path>, group: int, p: Path, r: Path, q: Path,
                           u: Entry, v: Entry, w: Entry)
    requires Honest(probes) && Offered(files) && forall t :: t in paths ==> t in files
    requires p in paths && r in paths && q in paths && IndexOf(paths, p) < IndexOf(paths, r) < IndexOf(paths, q)
    requires Finds(files, probes, p, u) && Finds(files, probes, r, v) && Finds(files, probes, q, w)
    requires Differ(group, u, v, w)
    requires u.arch != "x86" && v.arch != "x86" && AreDistinct(paths)
    ensures !NamedOnce(ListOf(files, probes, [], true, paths, group))
  {
    hide IndexOf, Finds, LaneEntries, HitEntries, NamedOnce, ArchList, GroupArchs, Reused, Honest, Offered, IsOther;
    var first, rest := SplitPaths(paths, p, r);
    SuffixOrder(paths, first, rest, p, r, q);
    var second, third := SplitPaths(rest, r, q);
    NoneReused(files, p);
    NoneReused(files, q);
    NoneReused(files, r);
    LaneOfKind(files, probes, [], true, first, p, u);
    LaneOfKind(files, probes, [], true, second, r, v);
    LaneOfKind(files, probes, [], true, third, q, w);
    LanesConcat(files, probes, [], true, first, rest, false);
    LanesConcat(files, probes, [], true, second, third, false);
    var lead := HitEntries(files, [], true, paths) + LaneEntries(files, probes, [], true, paths, true);
    var x := LaneEntries(files, probes, [], true, first, false);
    var y, z := LaneEntries(files, probes, [], true, second, false), LaneEntries(files, probes, [], true, third, false);
    assert u in lead + x;
    LeadRegrouped(lead, x, y, z);
    Between(lead + x, y, z, group, u, v, w);
  }

  lemma NoneReused(files: Files, p: Path)
    requires p in files
    ensures !Reused([], true, p, files[p])
  {
  }

  /** In what follows a path, the order of paths after it is the same. */
  lemma SuffixOrder(paths: seq<Path>, first: seq<Path>, rest: seq<Path>, p: Path, r: Path, q: Path)
    requires paths == first + rest && r in rest && q in paths && IndexOf(paths, r) < IndexOf(paths, q)
    requires AreDistinct(paths)
    ensures q in rest && IndexOf(rest, r) < IndexOf(rest, q)
  {
    hide IndexOf;
    PlaceInRest(paths, first, rest, r);
    var k := IndexOf(paths, q);
    assert paths[k] == rest[k - |first|];
    PlaceInRest(paths, first, rest, q);
  }

  lemma PlaceInRest(paths: seq<Path>, first: seq<Path>, rest: seq<Path>, p: Path)
    requires paths == first + rest && p in rest && AreDistinct(paths)
    ensures IndexOf(paths, p) == |first| + IndexOf(rest, p)
  {
    hide IndexOf;
    PlaceOf(paths, |first| + IndexOf(rest, p));
  }

  /** Without a cache: if and only if no file of another kind lies between two of one kind, none of them 32-bit. */
  lemma UncachedListsNameOnceExactly(files: Files, probes: Probes, candidates: seq<Path>, group: int)
    requires Honest(probes) && Offered(files) && forall q :: q in candidates ==> q in files
    ensures forall q :: q in Selected(files, candidates) ==> q in files
    ensures NamedOnce(ListOf(files, probes, [], true, Selected(files, candidates), group))
            <==> !SomeIsInBetween(files, probes, Selected(files, candidates), group)
  {
    SelectedAreCandidates(files, candidates);
    SelectedAreDistinct(files, candidates);
    var paths := Selected(files, candidates);
    hide Selected, NamedOnce, ListOf, Honest, Offered, Holds, IndexOf, Finds;
    if SomeIsInBetween(files, probes, paths, group) {
      var p, q, r, a, b :| p in paths && q in paths && r in paths
                           && InBetween(files, probes, paths, group, p, q, r, a, b);
      var u := EntryOf(files, probes, p, group, a);
      var w := EntryOf(files, probes, q, group, a);
      var v := EntryOf(files, probes, r, group, b);
      UncachedInterleave(files, probes, paths, group, p, r, q, u, v, w);
    }
    if !NamedOnce(ListOf(files, probes, [], true, paths, group)) {
      UncachedRepeatIsInBetween(files, probes, candidates, group);
    }
  }
}
