// The architectures a scan lists for a group of entries, and what a cache does to their order.
module PluginLists {
  import opened Wrappers
  import opened PluginScan

  // ---------------------------------------------- which architecture lists are stable

  /** All architectures of a group other than x64 are the same. */
  predicate OneOther(archs: seq<Arch>) {
    forall a, b :: a in archs && b in archs && a != "x64" && b != "x64" ==> a == b
  }

  lemma {:induction false} OnlyMembers(archs: seq<Arch>, x64: bool)
    ensures forall a :: a in Only(archs, x64) <==> a in archs && (a == "x64") == x64
    decreases |archs|
  {
    if archs != [] {
      OnlyMembers(archs[1..], x64);
      assert archs == [archs[0]] + archs[1..];
    }
  }

  lemma {:induction false} DedupMembers(archs: seq<Arch>)
    ensures forall a :: a in Dedup(archs) <==> a in archs
    ensures archs != [] ==> Dedup(archs) != [] && Dedup(archs)[0] == archs[0]
    decreases |archs|
  {
    if |archs| > 1 {
      DedupMembers(archs[1..]);
      assert archs == [archs[0]] + archs[1..];
    }
  }

  /** Removing repeats commutes with joining two runs that share nothing. */
  lemma {:induction false} DedupConcat(a: seq<Arch>, b: seq<Arch>)
    requires forall x :: x in a ==> x !in b
    ensures Dedup(a + b) == Dedup(a) + Dedup(b)
    decreases |a|
  {
    if a == [] {
      assert a + b == b;
    } else {
      assert (a + b)[1..] == a[1..] + b;
      DedupConcat(a[1..], b);
      if |a| == 1 && b != [] {
        assert a[0] in a && b[0] in b;
        assert a[1..] == [];
      } else if b == [] {
        assert a + b == a;
      }
    }
  }

  lemma {:induction false} DedupOfRepeats(archs: seq<Arch>)
    requires forall a, b :: a in archs && b in archs ==> a == b
    ensures Dedup(archs) == if archs == [] then [] else [archs[0]]
    decreases |archs|
  {
    if |archs| > 1 {
      assert forall a :: a in archs[1..] ==> a in archs;
      assert archs[0] in archs && archs[1] in archs;
      DedupOfRepeats(archs[1..]);
    }
  }

  /** A list is the x64 entry, if any, followed by the runs of the others. */
  lemma ListSplits(archs: seq<Arch>)
    ensures ArchList(archs) == (if "x64" in archs then ["x64"] else []) + Dedup(Only(archs, false))
  {
    hide Dedup, Only;
    OnlyMembers(archs, true);
    OnlyMembers(archs, false);
    DedupConcat(Only(archs, true), Only(archs, false));
    DedupOfRepeats(Only(archs, true));
    if Only(archs, true) != [] { assert Only(archs, true)[0] in Only(archs, true); }
  }

  predicate NamedOnce(list: seq<Arch>) {
    forall i, j :: 0 <= i < j < |list| ==> list[i] != list[j]
  }

  /** Equal architectures stand together. */
  predicate Contiguous(archs: seq<Arch>) {
    forall i, j, k :: 0 <= i < j < k < |archs| && archs[i] == archs[k] ==> archs[j] == archs[i]
  }

  lemma ContiguousTail(archs: seq<Arch>)
    requires |archs| > 1
    ensures Contiguous(archs) <==> Contiguous(archs[1..]) && (archs[0] == archs[1] || archs[0] !in archs[1..])
  {
    var rest := archs[1..];
    assert forall i :: 0 <= i < |rest| ==> rest[i] == archs[i + 1];
    if Contiguous(archs) {
      forall i, j, k | 0 <= i < j < k < |rest| && rest[i] == rest[k]
        ensures rest[j] == rest[i]
      {
        assert archs[i + 1] == archs[k + 1] ==> archs[j + 1] == archs[i + 1];
      }
      if archs[0] in rest {
        var k :| 0 <= k < |rest| && rest[k] == archs[0];
        assert archs[k + 1] == archs[0];
      }
    } else {
      var i, j, k :| 0 <= i < j < k < |archs| && archs[i] == archs[k] && archs[j] != archs[i];
      assert archs[k] == rest[k - 1] && archs[j] == rest[j - 1];
      if i > 0 { assert archs[i] == rest[i - 1]; }
    }
  }

  /** Removing repeated neighbours leaves each name once exactly if equal ones stood together. */
  lemma {:induction false} DedupNamesOnce(archs: seq<Arch>)
    ensures NamedOnce(Dedup(archs)) <==> Contiguous(archs)
    decreases |archs|
  {
    if |archs| > 1 {
      DedupNamesOnce(archs[1..]);
      DedupMembers(archs[1..]);
      ContiguousTail(archs);
      hide Contiguous;
      if archs[0] != archs[1] { OneMoreName(archs[0], Dedup(archs[1..])); }
    }
  }

  lemma OneMoreName(a: Arch, list: seq<Arch>)
    ensures NamedOnce([a] + list) <==> NamedOnce(list) && a !in list
  {
    var all := [a] + list;
    assert forall i :: 0 <= i < |list| ==> all[i + 1] == list[i];
    if NamedOnce(all) {
      forall i, j | 0 <= i < j < |list|
        ensures list[i] != list[j]
      {
        assert all[i + 1] != all[j + 1];
      }
      forall k | 0 <= k < |list|
        ensures list[k] != a
      {
        assert all[0] != all[k + 1];
      }
    }
  }

  /**
   * Whatever order the entries come in, the list names exactly the architectures of the group,
   * x64 first; each of them once, if and only if equal ones besides x64 come together.
   */
  lemma ListNamesTheGroup(archs: seq<Arch>)
    ensures forall a :: a in ArchList(archs) <==> a in archs
    ensures "x64" in archs ==> ArchList(archs)[0] == "x64"
    ensures NamedOnce(ArchList(archs)) <==> Contiguous(Only(archs, false))
  {
    hide Dedup, Only, NamedOnce, Contiguous;
    ListSplits(archs);
    OnlyMembers(archs, false);
    DedupMembers(Only(archs, false));
    DedupNamesOnce(Only(archs, false));
    OneMoreName("x64", Dedup(Only(archs, false)));
    assert [] + Dedup(Only(archs, false)) == Dedup(Only(archs, false));
  }

  lemma ListOfOneOther(a: seq<Arch>, b: seq<Arch>)
    requires multiset(a) == multiset(b) && OneOther(a)
    ensures ArchList(a) == ArchList(b)
  {
    hide Dedup, Only, ArchList;
    forall x
      ensures x in a <==> x in b
    {
      assert (x in a <==> x in multiset(a)) && (x in b <==> x in multiset(b));
    }
    ListSplits(a);
    ListSplits(b);
    OnlyMembers(a, false);
    OnlyMembers(b, false);
    DedupOfRepeats(Only(a, false));
    DedupOfRepeats(Only(b, false));
    var oa, ob := Only(a, false), Only(b, false);
    if oa != [] { assert oa[0] in oa && oa[0] in ob; }
    if ob != [] { assert ob[0] in ob && ob[0] in oa; }
  }

  /** Moving an architecture to the front of a group brings it to the front of the others. */
  lemma FrontOfOthers(archs: seq<Arch>)
    requires archs != [] && archs[0] != "x64"
    ensures Only(archs, false) == [archs[0]] + Only(archs[1..], false)
  {
  }

  /** Behind the x64 entry, a list starts with the first of the others. */
  lemma FirstOfList(archs: seq<Arch>)
    requires Only(archs, false) != []
    ensures var at := if "x64" in archs then 1 else 0;
            at < |ArchList(archs)| && ArchList(archs)[at] == Only(archs, false)[0]
  {
    hide Dedup, Only, ArchList;
    ListSplits(archs);
    DedupMembers(Only(archs, false));
  }

  lemma MovedToFront(archs: seq<Arch>, k: nat)
    requires k < |archs|
    ensures multiset([archs[k]] + (archs[..k] + archs[k + 1..])) == multiset(archs)
  {
    assert archs == archs[..k] + [archs[k]] + archs[k + 1..];
  }

  /** With two different others, putting one of them in front gives a different list. */
  lemma ListOfTwoOthers(archs: seq<Arch>, i: nat, j: nat) returns (other: seq<Arch>)
    requires i < |archs| && j < |archs| && archs[i] != "x64" && archs[j] != "x64" && archs[i] != archs[j]
    ensures multiset(other) == multiset(archs) && ArchList(other) != ArchList(archs)
  {
    hide ArchList, Only;
    OnlyMembers(archs, false);
    assert archs[i] in Only(archs, false);
    var k := if Only(archs, false)[0] == archs[i] then j else i;
    other := [archs[k]] + (archs[..k] + archs[k + 1..]);
    MovedToFront(archs, k);
    assert ("x64" in archs) == ("x64" in multiset(archs)) && ("x64" in other) == ("x64" in multiset(other));
    FrontOfOthers(other);
    FirstOfList(archs);
    FirstOfList(other);
  }

  /**
   * The list function alone: it gives the same list for every order of entries exactly when the group
   * has at most one architecture besides x64. So a cached scan, which puts hits first, may
   * list other groups' architectures in another order than one without a cache.
   */
  lemma ListIsStableExactlyWithOneOther(archs: seq<Arch>)
    ensures OneOther(archs) <==> forall other :: multiset(other) == multiset(archs) ==>
          ArchList(other) == ArchList(archs)
  {
    hide ArchList;
    if OneOther(archs) {
      forall other | multiset(other) == multiset(archs)
        ensures ArchList(other) == ArchList(archs)
      {
        ListOfOneOther(archs, other);
      }
    } else {
      var a, b :| a in archs && b in archs && a != "x64" && b != "x64" && a != b;
      var i :| 0 <= i < |archs| && archs[i] == a;
      var j :| 0 <= j < |archs| && archs[j] == b;
      var other := ListOfTwoOthers(archs, i, j);
    }
  }

  lemma {:induction false} GroupArchsConcat(a: seq<Entry>, b: seq<Entry>, group: int)
    ensures GroupArchs(a + b, group) == GroupArchs(a, group) + GroupArchs(b, group)
    decreases |b|
  {
    if b == [] {
      assert a + b == a;
    } else {
      assert (a + b)[..|a + b| - 1] == a + b[..|b| - 1];
      GroupArchsConcat(a, b[..|b| - 1], group);
    }
  }

  lemma WithoutOne<T>(before: seq<T>, x: T, head: seq<T>, tail: seq<T>)
    requires multiset(before + [x]) == multiset(head + ([x] + tail))
    ensures multiset(before) == multiset(head + tail)
  {
    assert multiset(before + [x]) == multiset(before) + multiset{x};
    assert multiset(head + ([x] + tail)) == multiset(head + tail) + multiset{x};
    assert multiset(before) == multiset(before + [x]) - multiset{x};
  }

  lemma Rearranged<T>(x: seq<T>, head: seq<T>, tail: seq<T>)
    ensures multiset(head + (x + tail)) == multiset((head + tail) + x)
  {
  }

  /** The architectures of a group depend, as a multiset, on the entries only as a multiset. */
  lemma {:induction false} SameEntriesSameArchs(a: seq<Entry>, b: seq<Entry>, group: int)
    requires multiset(a) == multiset(b)
    ensures multiset(GroupArchs(a, group)) == multiset(GroupArchs(b, group))
    decreases |a|
  {
    if a == [] {
      assert |multiset(b)| == 0;
    } else {
      hide GroupArchs;
      var before, last := a[..|a| - 1], a[|a| - 1];
      assert a == before + [last] && last in multiset(b);
      var k :| 0 <= k < |b| && b[k] == last;
      var head, tail := b[..k], b[k + 1..];
      assert b == head + ([last] + tail);
      WithoutOne(before, last, head, tail);
      SameEntriesSameArchs(before, head + tail, group);
      GroupArchsConcat(before, [last], group);
      GroupArchsConcat(head, [last] + tail, group);
      GroupArchsConcat([last], tail, group);
      GroupArchsConcat(head, tail, group);
      Rearranged(GroupArchs([last], group), GroupArchs(head, group), GroupArchs(tail, group));
    }
  }

  /**
   * An entry found with and without a cache is listed with the same architectures; and in
   * the same order whenever its group has at most one architecture besides x64.
   */
  lemma CachedListsAgree(files: Files, probes: Probes, candidates: seq<Path>, listed: seq<Listed>,
                         uncached: seq<Listed>,
                         cached: seq<Listed>, before: Files, earlier: seq<Path>, k: nat, l: nat)
    requires Honest(probes) && Faithful(before, probes, earlier, cached)
    requires IsScan(files, probes, candidates, cached, false, listed)
         && IsScan(files, probes, candidates, [], true, uncached)
    requires k < |listed| && l < |uncached| && listed[k].entry.group == uncached[l].entry.group
    ensures forall a :: a in listed[k].available <==> a in uncached[l].available
    ensures OneOther(GroupArchs(Entries(uncached), uncached[l].entry.group)) ==>
          listed[k].available == uncached[l].available
  {
    hide Total, FreshTotal, Selected, GroupArchs, ArchList, OneOther;
    CacheIsTransparent(files, probes, candidates, false, listed, before, earlier, cached);
    UncachedScansAreFaithful(files, probes, candidates, true, uncached);
    var group := listed[k].entry.group;
    var ours, theirs := GroupArchs(Entries(listed), group), GroupArchs(Entries(uncached), group);
    SameEntriesSameArchs(Entries(listed), Entries(uncached), group);
    ListNamesTheGroup(ours);
    ListNamesTheGroup(theirs);
    forall a
      ensures a in listed[k].available <==> a in uncached[l].available
    {
      assert a in ours <==> a in multiset(ours);
      assert a in theirs <==> a in multiset(theirs);
    }
    if OneOther(theirs) { ListOfOneOther(theirs, ours); }
  }

  // -------------------------------------------- lists with and without a cache, exactly

  /** What the files can offer: a bundle for both architectures, or one architecture. */
  ghost predicate Offered(files: Files) {
    forall p :: p in files ==> files[p].architectures == ["x64", "x86"] || |files[p].architectures| == 1
  }

  /** The list a scan computes for a group. */
  function ListOf(files: Files, probes: Probes, cached: seq<Listed>, force: bool, paths: seq<Path>,
                  group: int): seq<Arch>
    requires forall p :: p in paths ==> p in files
  {
    ArchList(GroupArchs(ScanEntries(files, probes, cached, force, paths), group))
  }

  lemma {:induction false} GroupMembers(entries: seq<Entry>, group: int)
    ensures forall a :: a in GroupArchs(entries, group) <==> exists e :: e in entries && e.group == group && e.arch == a
    decreases |entries|
  {
    if entries != [] {
      var before, last := entries[..|entries| - 1], entries[|entries| - 1];
      GroupMembers(before, group);
      assert entries == before + [last];
    }
  }

  lemma {:induction false} HitMembers(files: Files, cached: seq<Listed>, force: bool, paths: seq<Path>, e: Entry)
    requires forall p :: p in paths ==> p in files
    ensures e in HitEntries(files, cached, force, paths)
            <==> exists p :: p in paths && Reused(cached, force, p, files[p]) && e in Variants(cached, p)
    decreases |paths|
  {
    hide Reused, Variants;
    if paths != [] {
      var before, last := paths[..|paths| - 1], paths[|paths| - 1];
      HitMembers(files, cached, force, before, e);
      assert paths == before + [last];
    }
  }

  lemma {:induction false} LaneMembers(files: Files, probes: Probes, paths: seq<Path>, x86: bool, e: Entry)
    requires forall p :: p in paths ==> p in files
    ensures e in LaneEntries(files, probes, [], true, paths, x86)
            <==> exists p :: p in paths
                               && e in if x86 then X86Lane(probes, p, files[p]) else OtherLane(probes, p, files[p])
    decreases |paths|
  {
    hide X86Lane, OtherLane;
    if paths != [] {
      var before, last := paths[..|paths| - 1], paths[|paths| - 1];
      LaneMembers(files, probes, before, x86, e);
      assert paths == before + [last];
    }
  }

  lemma {:induction false} NothingReused(files: Files, paths: seq<Path>)
    requires forall p :: p in paths ==> p in files
    ensures HitEntries(files, [], true, paths) == []
    decreases |paths|
  {
    if paths != [] {
      NothingReused(files, paths[..|paths| - 1]);
    }
  }

  /** Joining lists of architectures joins the others among them. */
  lemma {:induction false} OnlyConcat(a: seq<Arch>, b: seq<Arch>, x64: bool)
    ensures Only(a + b, x64) == Only(a, x64) + Only(b, x64)
    decreases |a|
  {
    if a == [] {
      assert a + b == b;
    } else {
      assert (a + b)[1..] == a[1..] + b && (a + b)[0] == a[0];
      OnlyOfFirst(a, x64);
      OnlyOfFirst(a + b, x64);
      hide Only;
      OnlyConcat(a[1..], b, x64);
    }
  }

  lemma OnlyOfFirst(archs: seq<Arch>, x64: bool)
    requires archs != []
    ensures Only(archs, x64) == (if (archs[0] == "x64") == x64 then [archs[0]] else []) + Only(archs[1..], x64)
  {
  }

  /** When some architecture other than x64 leads a group, it leads the group's others. */
  lemma LeadingOther(lead: seq<Arch>, rest: seq<Arch>, r: Arch)
    requires r in lead && r != "x64" && forall a :: a in lead ==> a == r
    ensures Only(lead + rest, false) != [] && Only(lead + rest, false)[0] == r
  {
    hide Only;
    OnlyConcat(lead, rest, false);
    OnlyMembers(lead, false);
    assert Only(lead, false)[0] in Only(lead, false);
  }

  /** Everything the x86 lane finds is x86. */
  lemma X86LaneOfGroup(files: Files, probes: Probes, paths: seq<Path>, group: int, a: Arch)
    requires Honest(probes) && forall p :: p in paths ==> p in files
    requires a in GroupArchs(LaneEntries(files, probes, [], true, paths, true), group)
    ensures a == "x86"
  {
    hide GroupArchs, LaneEntries, X86Lane, OtherLane, Honest;
    var found := LaneEntries(files, probes, [], true, paths, true);
    GroupMembers(found, group);
    var e :| e in found && e.group == group && e.arch == a;
    LaneMembers(files, probes, paths, true, e);
    var p :| p in paths && e in X86Lane(probes, p, files[p]);
    assert e in Lanes(probes, p, files[p]);
    LanesAreHonest(probes, p, files[p], e);
  }

  /** What the other lane finds is not, and comes from some file. */
  lemma OtherLaneOfGroup(files: Files, probes: Probes, paths: seq<Path>, group: int, a: Arch)
    returns (p: Path, e: Entry)
    requires Honest(probes) && forall p :: p in paths ==> p in files
    requires a in GroupArchs(LaneEntries(files, probes, [], true, paths, false), group)
    ensures a != "x86" && p in paths && e in OtherLane(probes, p, files[p]) && e.group == group && e.arch == a
  {
    hide GroupArchs, LaneEntries, X86Lane, OtherLane, Honest;
    var found := LaneEntries(files, probes, [], true, paths, false);
    GroupMembers(found, group);
    e :| e in found && e.group == group && e.arch == a;
    LaneMembers(files, probes, paths, false, e);
    p :| p in paths && e in OtherLane(probes, p, files[p]);
    assert e in Lanes(probes, p, files[p]);
    LanesAreHonest(probes, p, files[p], e);
  }

  /** The architectures of a group in a scan without a cache: those of the x86 lane come first. */
  lemma UncachedGroup(files: Files, probes: Probes, paths: seq<Path>, group: int)
    requires forall p :: p in paths ==> p in files
    ensures GroupArchs(ScanEntries(files, probes, [], true, paths), group)
            == GroupArchs(LaneEntries(files, probes, [], true, paths, true), group)
               + GroupArchs(LaneEntries(files, probes, [], true, paths, false), group)
  {
    var x86 := LaneEntries(files, probes, [], true, paths, true);
    var other := LaneEntries(files, probes, [], true, paths, false);
    NothingReused(files, paths);
    hide GroupArchs, LaneEntries;
    assert ScanEntries(files, probes, [], true, paths) == x86 + other;
    GroupArchsConcat(x86, other, group);
  }

  /** Entries as a scan lists them. */
  function ListAll(entries: seq<Entry>): (listed: seq<Listed>)
    ensures Entries(listed) == entries
  {
    seq(|entries|, i requires 0 <= i < |entries| => Listed(entries[i], ArchList(GroupArchs(entries, entries[i].group))))
  }

  lemma {:induction false} VariantsOfOnePath(cached: seq<Listed>, p: Path, q: Path)
    requires forall k :: 0 <= k < |cached| ==> cached[k].entry.path == p
    ensures Variants(cached, q) == if p == q then Entries(cached) else []
    decreases |cached|
  {
    if cached != [] {
      VariantsOfOnePath(cached[..|cached| - 1], p, q);
      assert Entries(cached) == Entries(cached[..|cached| - 1]) + [cached[|cached| - 1].entry];
    }
  }

  /** A scan of one path with one architecture other than x86 finds what its lane finds. */
  lemma ScanOfOnePath(files: Files, probes: Probes, p: Path, r: Arch)
    requires p in files && files[p].architectures == [r] && r != "x86"
    ensures Selected(files, [p]) == [p]
    ensures ScanEntries(files, probes, [], true, [p]) == OtherLane(probes, p, files[p])
  {
    assert [p][..0] == [];
    assert Selected(files, []) == [] && Identities(files, []) == {};
    NothingReused(files, [p]);
    hide Probed, FirstOther;
    EntriesOneMore(files, probes, [], true, [], p);
    assert [] + [p] == [p];
  }

  /**
   * A file whose one architecture is r, and that holds an entry of the group: with the result
   * of an earlier scan of this file alone as the cache, r leads the group's others.
   */
  lemma CachedFileLeads(files: Files, probes: Probes, paths: seq<Path>, group: int, p: Path, r: Arch, e: Entry)
      returns (cached: seq<Listed>)
    requires Honest(probes) && (forall q :: q in paths ==> q in files) && p in paths
    requires files[p].architectures == [r] && r != "x86" && r != "x64"
    requires e in OtherLane(probes, p, files[p]) && e.group == group
    ensures IsScan(files, probes, [p], [], true, cached)
    ensures var others := Only(GroupArchs(ScanEntries(files, probes, cached, false, paths), group), false);
            others != [] && others[0] == r
  {
    cached := ScanOneFile(files, probes, p, r);
    hide ArchList, GroupArchs, ScanEntries, Honest, OtherLane, Only;
    HitsOfOnePath(files, paths, cached, p, r, e);
    LeadingHits(files, probes, paths, cached, group, r, e);
  }

  lemma ScanOneFile(files: Files, probes: Probes, p: Path, r: Arch) returns (cached: seq<Listed>)
    requires Honest(probes) && p in files && files[p].architectures == [r] && r != "x86"
    ensures IsScan(files, probes, [p], [], true, cached) && Entries(cached) == OtherLane(probes, p, files[p])
    ensures forall k :: 0 <= k < |cached| ==>
              && cached[k].entry.path == p && cached[k].entry.arch == r
              && cached[k].entry.fingerprint == files[p].fingerprint && cached[k].entry.abi == ABI
  {
    hide ArchList, GroupArchs, ScanEntries, Honest, OtherLane, Selected;
    cached := ListAll(OtherLane(probes, p, files[p]));
    ScanOfOnePath(files, probes, p, r);
    forall k | 0 <= k < |cached|
      ensures cached[k].entry.path == p && cached[k].entry.arch == r
      ensures cached[k].entry.fingerprint == files[p].fingerprint && cached[k].entry.abi == ABI
    {
      LaneOfOnePath(files, probes, p, r, k);
      assert cached[k].entry == Entries(cached)[k];
    }
  }

  lemma LaneOfOnePath(files: Files, probes: Probes, p: Path, r: Arch, k: nat)
    requires Honest(probes) && p in files && files[p].architectures == [r] && k < |OtherLane(probes, p, files[p])|
    ensures var e := OtherLane(probes, p, files[p])[k];
            e.path == p && e.arch == r && e.fingerprint == files[p].fingerprint && e.abi == ABI
  {
    var e := OtherLane(probes, p, files[p])[k];
    assert e in Lanes(probes, p, files[p]);
    LanesAreHonest(probes, p, files[p], e);
    FirstOtherIsNotX86(files[p].architectures);
  }

  lemma HitsOfOnePath(files: Files, paths: seq<Path>, cached: seq<Listed>, p: Path, r: Arch, e: Entry)
    requires (forall q :: q in paths ==> q in files) && p in paths && files[p].architectures == [r]
    requires e in Entries(cached)
    requires forall k :: 0 <= k < |cached| ==>
               && cached[k].entry.path == p && cached[k].entry.arch == r
               && cached[k].entry.fingerprint == files[p].fingerprint && cached[k].entry.abi == ABI
    ensures e in HitEntries(files, cached, false, paths)
    ensures forall h :: h in HitEntries(files, cached, false, paths) ==> h.arch == r
  {
    hide Variants, Reused, HitEntries;
    VariantsOfOnePath(cached, p, p);
    HitMembers(files, cached, false, paths, e);
    FileIsReused(files[p], cached, p, r);
    forall h | h in HitEntries(files, cached, false, paths)
      ensures h.arch == r
    {
      HitMembers(files, cached, false, paths, h);
      var q :| q in paths && Reused(cached, false, q, files[q]) && h in Variants(cached, q);
      VariantsOfOnePath(cached, p, q);
      var k :| 0 <= k < |cached| && h == Entries(cached)[k];
    }
  }

  lemma FileIsReused(file: File, cached: seq<Listed>, p: Path, r: Arch)
    requires file.architectures == [r] && cached != []
    requires forall k :: 0 <= k < |cached| ==>
               && cached[k].entry.path == p && cached[k].entry.arch == r
               && cached[k].entry.fingerprint == file.fingerprint && cached[k].entry.abi == ABI
    ensures Reused(cached, false, p, file)
  {
    VariantsOfOnePath(cached, p, p);
    hide Variants;
    var variants := Variants(cached, p);
    assert variants[0] in variants && variants[0] == cached[0].entry;
    forall e | e in variants
      ensures e.arch in file.architectures && e.fingerprint == file.fingerprint && e.abi == ABI
    {
      var k :| 0 <= k < |cached| && e == variants[k];
      assert e == cached[k].entry;
    }
  }

  lemma LeadingHits(files: Files, probes: Probes, paths: seq<Path>, cached: seq<Listed>, group: int, r: Arch, e: Entry)
    requires forall q :: q in paths ==> q in files
    requires r != "x64" && e in HitEntries(files, cached, false, paths) && e.group == group && e.arch == r
    requires forall h :: h in HitEntries(files, cached, false, paths) ==> h.arch == r
    ensures var others := Only(GroupArchs(ScanEntries(files, probes, cached, false, paths), group), false);
            others != [] && others[0] == r
  {
    hide HitEntries, LaneEntries, GroupArchs, Only;
    var hits := HitEntries(files, cached, false, paths);
    var rest := LaneEntries(files, probes, cached, false, paths, true)
        + LaneEntries(files, probes, cached, false, paths, false);
    assert ScanEntries(files, probes, cached, false, paths) == hits + rest;
    GroupArchsConcat(hits, rest, group);
    GroupMembers(hits, group);
    LeadingOther(GroupArchs(hits, group), GroupArchs(rest, group), r);
  }

  lemma X86Leads(files: Files, probes: Probes, paths: seq<Path>, group: int, rest: seq<Arch>)
    requires Honest(probes) && forall p :: p in paths ==> p in files
    requires GroupArchs(LaneEntries(files, probes, [], true, paths, true), group) != []
    ensures var x86 := GroupArchs(LaneEntries(files, probes, [], true, paths, true), group);
            Only(x86 + rest, false) != [] && Only(x86 + rest, false)[0] == "x86"
  {
    var x86 := GroupArchs(LaneEntries(files, probes, [], true, paths, true), group);
    hide GroupArchs, LaneEntries, Only, Honest;
    forall a | a in x86
      ensures a == "x86"
    {
      X86LaneOfGroup(files, probes, paths, group, a);
    }
    assert x86[0] in x86;
    LeadingOther(x86, rest, "x86");
  }

  /** With two different others in a group, some file's cached result brings the wrong one to the front. */
  lemma SomeCacheReorders(files: Files, probes: Probes, candidates: seq<Path>, group: int)
    returns (p: Path, cached: seq<Listed>)
    requires Honest(probes) && Offered(files) && (forall q :: q in candidates ==> q in files)
    requires forall q :: q in Selected(files, candidates) ==> q in files
    requires !OneOther(GroupArchs(ScanEntries(files, probes, [], true, Selected(files, candidates)), group))
    ensures p in files && IsScan(files, probes, [p], [], true, cached)
    ensures var paths := Selected(files, candidates);
            ListOf(files, probes, cached, false, paths, group) != ListOf(files, probes, [], true, paths, group)
  {
    var paths := Selected(files, candidates);
    var archs := GroupArchs(ScanEntries(files, probes, [], true, paths), group);
    hide GroupArchs, ScanEntries, ArchList, Selected, FirstOther, Only;
    UncachedGroup(files, probes, paths, group);
    var x86 := GroupArchs(LaneEntries(files, probes, [], true, paths, true), group);
    var other := GroupArchs(LaneEntries(files, probes, [], true, paths, false), group);
    OnlyMembers(archs, false);
    var a, b :| a in archs && b in archs && a != "x64" && b != "x64" && a != b;
    assert a in Only(archs, false);
    var first := Only(archs, false)[0];
    forall q | q in x86
      ensures q == "x86" && first == "x86"
    {
      X86LaneOfGroup(files, probes, paths, group, q);
      X86Leads(files, probes, paths, group, other);
    }
    var r := if a != first then a else b;
    assert r in other && r != first && r != "x64";
    var e;
    p, e := OtherLaneOfGroup(files, probes, paths, group, r);
    OfferedAlone(files, probes, p, r, e);
    cached := CachedFileLeads(files, probes, paths, group, p, r, e);
    SameFirstTwoLists(files, probes, candidates, group, p, cached, r);
  }

  /** An architecture other than x64 and x86 is the only one of its file. */
  lemma OfferedAlone(files: Files, probes: Probes, p: Path, r: Arch, e: Entry)
    requires Honest(probes) && Offered(files) && p in files && e in OtherLane(probes, p, files[p])
    requires e.arch == r && r != "x64" && r != "x86"
    ensures files[p].architectures == [r]
  {
    assert e in Lanes(probes, p, files[p]);
    LanesAreHonest(probes, p, files[p], e);
    FirstOtherIsNotX86(files[p].architectures);
  }

  lemma SameFirstTwoLists(files: Files, probes: Probes, candidates: seq<Path>, group: int, p: Path,
                          cached: seq<Listed>, r: Arch)
    requires Honest(probes) && (forall q :: q in candidates ==> q in files) && p in files
    requires forall q :: q in Selected(files, candidates) ==> q in files
    requires IsScan(files, probes, [p], [], true, cached)
    requires var paths := Selected(files, candidates);
             var with := Only(GroupArchs(ScanEntries(files, probes, cached, false, paths), group), false);
             with != [] && with[0] == r
    requires var paths := Selected(files, candidates);
             var without := Only(GroupArchs(ScanEntries(files, probes, [], true, paths), group), false);
             without != [] && without[0] != r
    ensures var paths := Selected(files, candidates);
            ListOf(files, probes, cached, false, paths, group) != ListOf(files, probes, [], true, paths, group)
  {
    var paths := Selected(files, candidates);
    var with, without := ScanEntries(files, probes, cached, false, paths), ScanEntries(files, probes, [], true, paths);
    hide ScanEntries, Only, ArchList, GroupArchs, Selected;
    UncachedScansAreFaithful(files, probes, [p], true, cached);
    SameEntries(files, probes, candidates, files, [p], cached);
    SameEntriesSameArchs(with, without, group);
    var a, b := GroupArchs(with, group), GroupArchs(without, group);
    assert ("x64" in a) == ("x64" in multiset(a)) && ("x64" in b) == ("x64" in multiset(b));
    FirstOfList(a);
    FirstOfList(b);
  }

  lemma SameEntries(files: Files, probes: Probes, candidates: seq<Path>, before: Files, earlier: seq<Path>,
                    cached: seq<Listed>)
    requires Honest(probes) && Faithful(before, probes, earlier, cached) && (forall q :: q in candidates ==> q in files)
    requires forall q :: q in Selected(files, candidates) ==> q in files
    ensures var paths := Selected(files, candidates);
            multiset(ScanEntries(files, probes, cached, false, paths))
                == multiset(ScanEntries(files, probes, [], true, paths))
  {
    var paths := Selected(files, candidates);
    ScanAddsUp(files, probes, cached, false, paths);
    ScanAddsUp(files, probes, [], true, paths);
    CachedTotalIsFresh(files, probes, paths, false, before, earlier, cached);
  }

  /** The list of a group is the one of an uncached scan, whatever faithful cache the scan is given. */
  ghost predicate SameUnderEveryCache(files: Files, probes: Probes, candidates: seq<Path>, group: int)
    requires (forall q :: q in candidates ==> q in files) && forall q :: q in Selected(files, candidates) ==> q in files
  {
    var paths := Selected(files, candidates);
    forall before: Files, earlier: seq<Path>, cached: seq<Listed> :: Faithful(before, probes, earlier, cached) ==>
      ListOf(files, probes, cached, false, paths, group) == ListOf(files, probes, [], true, paths, group)
  }

  /** What probing a file for the architectures it offers finds. */
  ghost predicate Finds(files: Files, probes: Probes, p: Path, e: Entry)
    requires p in files
  {
    exists a :: a in files[p].architectures && e in Probed(probes, p, a, files[p].fingerprint)
  }

  /** No two of these files hold entries of the group for two different architectures besides x64. */
  ghost predicate OneOtherFound(files: Files, probes: Probes, paths: seq<Path>, group: int)
    requires forall p :: p in paths ==> p in files
  {
    forall p, q, e, e' | p in paths && q in paths && Finds(files, probes, p, e) && Finds(files, probes, q, e') ::
      e.group == group == e'.group && e.arch != "x64" && e'.arch != "x64" ==> e.arch == e'.arch
  }

  /** The two lanes together probe for every architecture a file offers. */
  lemma LanesFindAll(files: Files, probes: Probes, p: Path, e: Entry)
    requires Offered(files) && p in files
    ensures Finds(files, probes, p, e) <==> e in X86Lane(probes, p, files[p]) || e in OtherLane(probes, p, files[p])
  {
    hide Probed;
    var archs := files[p].architectures;
    if archs == ["x64", "x86"] {
      assert "x64" in archs && "x86" in archs && FirstOther(archs) == Some("x64");
    } else {
      assert archs == [archs[0]] && archs[1..] == [] && FirstOther([]) == None;
    }
  }

  lemma UncachedMembers(files: Files, probes: Probes, paths: seq<Path>, e: Entry)
    requires Offered(files) && forall p :: p in paths ==> p in files
    ensures e in ScanEntries(files, probes, [], true, paths) <==> exists p :: p in paths && Finds(files, probes, p, e)
  {
    NothingReused(files, paths);
    LaneMembers(files, probes, paths, true, e);
    LaneMembers(files, probes, paths, false, e);
    hide X86Lane, OtherLane, HitEntries, LaneEntries, Finds;
    forall p | p in paths
      ensures Finds(files, probes, p, e) <==> e in X86Lane(probes, p, files[p]) || e in OtherLane(probes, p, files[p])
    {
      LanesFindAll(files, probes, p, e);
    }
  }

  lemma OneOtherIsFound(files: Files, probes: Probes, paths: seq<Path>, group: int)
    requires Offered(files) && forall p :: p in paths ==> p in files
    ensures OneOtherFound(files, probes, paths, group)
            <==> OneOther(GroupArchs(ScanEntries(files, probes, [], true, paths), group))
  {
    hide GroupArchs, ScanEntries, Finds, Offered;
    var archs := GroupArchs(ScanEntries(files, probes, [], true, paths), group);
    if OneOtherFound(files, probes, paths, group) {
      forall a, b | a in archs && b in archs && a != "x64" && b != "x64"
        ensures a == b
      {
        var p, e := FinderOf(files, probes, paths, group, a);
        var q, e' := FinderOf(files, probes, paths, group, b);
      }
    }
    if OneOther(archs) {
      forall p, q, e, e' | p in paths && q in paths && Finds(files, probes, p, e) && Finds(files, probes, q, e')
        ensures e.group == group == e'.group && e.arch != "x64" && e'.arch != "x64" ==> e.arch == e'.arch
      {
        FoundInGroup(files, probes, paths, p, e);
        FoundInGroup(files, probes, paths, q, e');
      }
    }
  }

  lemma FoundInGroup(files: Files, probes: Probes, paths: seq<Path>, p: Path, e: Entry)
    requires Offered(files) && (forall p :: p in paths ==> p in files) && p in paths && Finds(files, probes, p, e)
    ensures e.arch in GroupArchs(ScanEntries(files, probes, [], true, paths), e.group)
  {
    hide GroupArchs, ScanEntries, Finds, Offered;
    UncachedMembers(files, probes, paths, e);
    GroupMembers(ScanEntries(files, probes, [], true, paths), e.group);
  }

  lemma FinderOf(files: Files, probes: Probes, paths: seq<Path>, group: int, a: Arch) returns (p: Path, e: Entry)
    requires Offered(files) && (forall p :: p in paths ==> p in files)
    requires a in GroupArchs(ScanEntries(files, probes, [], true, paths), group)
    ensures p in paths && Finds(files, probes, p, e) && e.group == group && e.arch == a
  {
    var entries := ScanEntries(files, probes, [], true, paths);
    hide GroupArchs, ScanEntries, Finds, Offered;
    GroupMembers(entries, group);
    e :| e in entries && e.group == group && e.arch == a;
    UncachedMembers(files, probes, paths, e);
    p :| p in paths && Finds(files, probes, p, e);
  }

  /**
   * When cached and uncached scans list a group alike: for every earlier state of the disk and
   * every result a scan of it can have left as the cache, if and only if no two of the selected
   * files hold entries of the group for different architectures besides x64.
   */
  lemma CachedListsAgreeExactlyWithOneOther(files: Files, probes: Probes, candidates: seq<Path>, group: int)
    requires Honest(probes) && Offered(files) && (forall q :: q in candidates ==> q in files)
    ensures forall q :: q in Selected(files, candidates) ==> q in files
    ensures OneOtherFound(files, probes, Selected(files, candidates), group)
            <==> SameUnderEveryCache(files, probes, candidates, group)
  {
    SelectedAreCandidates(files, candidates);
    var paths := Selected(files, candidates);
    hide GroupArchs, ScanEntries, ArchList, Selected, OneOther, OneOtherFound, Faithful, IsScan;
    OneOtherIsFound(files, probes, paths, group);
    if OneOther(GroupArchs(ScanEntries(files, probes, [], true, paths), group)) {
      forall before: Files, earlier: seq<Path>, cached: seq<Listed> | Faithful(before, probes, earlier, cached)
        ensures ListOf(files, probes, cached, false, paths, group) == ListOf(files, probes, [], true, paths, group)
      {
        SameEntries(files, probes, candidates, before, earlier, cached);
        SameEntriesSameArchs(ScanEntries(files, probes, [], true, paths),
            ScanEntries(files, probes, cached, false, paths), group);
        ListOfOneOther(GroupArchs(ScanEntries(files, probes, [], true, paths), group),
                       GroupArchs(ScanEntries(files, probes, cached, false, paths), group));
      }
    } else {
      var p, cached := SomeCacheReorders(files, probes, candidates, group);
      UncachedScansAreFaithful(files, probes, [p], true, cached);
    }
  }
}
