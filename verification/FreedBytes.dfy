/** Deleting confirmed paths, and how many payload bytes that frees when files have several names. */
module FreedBytes {
  import opened Options
  import opened Sums

  type Path = nat
  type InodeId = nat

  /** An inode's payload size and modification time; device and inode number are one identifier. */
  datatype Inode = Inode(size: nat, mtime: int)

  datatype Identity = Identity(inode: InodeId, size: nat, mtime: int)

  /** Every directory entry, and the inodes they lead to. */
  datatype Files = Files(names: map<Path, InodeId>, inodes: map<InodeId, Inode>) {
    predicate Closed() {
      forall p | p in names :: names[p] in inodes
    }

    function IdentityOf(p: Path): Identity
      requires p in names && names[p] in inodes
    {
      Identity(names[p], inodes[names[p]].size, inodes[names[p]].mtime)
    }

    /** `st_nlink`. */
    function NamesOf(i: InodeId): set<Path> {
      set p | p in names && names[p] == i
    }
  }

  /** The sizes of some of the inodes. */
  ghost function SizesOf(f: Files, ids: set<InodeId>): map<InodeId, nat> {
    map i | i in ids && i in f.inodes :: f.inodes[i].size
  }

  ghost function Payloads(f: Files): map<InodeId, nat> {
    SizesOf(f, f.names.Values)
  }

  /** Bytes of payload that some name still leads to. */
  ghost function StoredBytes(f: Files): nat {
    Sum(Payloads(f))
  }

  function Unlinked(f: Files, gone: set<Path>): Files {
    f.(names := f.names - gone)
  }

  function PathSet(paths: seq<Path>): set<Path> {
    set p | p in paths
  }

  predicate DistinctPaths(paths: seq<Path>) {
    forall i, j :: 0 <= i < j < |paths| ==> paths[i] != paths[j]
  }

  /** Each path still names the file the preview saw. */
  predicate Unchanged(f: Files, paths: seq<Path>, identities: seq<Identity>) {
    |paths| == |identities| && f.Closed() &&
    forall k | 0 <= k < |paths| :: paths[k] in f.names && f.IdentityOf(paths[k]) == identities[k]
  }

  /** The sum over distinct inodes that the preview shows. */
  ghost function Estimate(identities: seq<Identity>): nat {
    Sum(RecordedSizes(identities))
  }

  ghost function RecordedSizes(identities: seq<Identity>): map<InodeId, nat> {
    map i | i in InodesOf(identities) :: SizeOf(identities, i)
  }

  function InodesOf(identities: seq<Identity>): set<InodeId> {
    set k | 0 <= k < |identities| :: identities[k].inode
  }

  /** The size recorded with the inode, the last one if they differ, as in the dictionary the preview builds. */
  function SizeOf(identities: seq<Identity>, i: InodeId): nat {
    if identities == [] then 0
    else if identities[|identities| - 1].inode == i then identities[|identities| - 1].size
    else SizeOf(identities[..|identities| - 1], i)
  }

  // ---- Splitting totals ----

  ghost function Part<K>(m: map<K, nat>, keys: set<K>): map<K, nat> {
    map k | k in keys && k in m :: m[k]
  }

  lemma {:induction false} SumSplit<K>(m: map<K, nat>, keys: set<K>)
    requires keys <= m.Keys
    ensures Sum(m) == Sum(m - keys) + Sum(Part(m, keys))
    decreases keys
  {
    if keys == {} {
      assert m - keys == m && Part(m, keys) == map[];
    } else {
      var k :| k in keys;
      SumSplit(m, keys - {k});
      SumTakeOut(m - (keys - {k}), k);
      assert m - (keys - {k}) - {k} == m - keys;
      SumTakeOut(Part(m, keys), k);
      assert Part(m, keys) - {k} == Part(m, keys - {k});
    }
  }

  /** A target is still the confirmed one when its inode, that inode's size and its time of change all are. */
  lemma UnchangedMeans(f: Files, paths: seq<Path>, identities: seq<Identity>)
    requires f.Closed()
    ensures Unchanged(f, paths, identities) <==>
      && |paths| == |identities|
      && forall k | 0 <= k < |paths| ::
           && paths[k] in f.names && f.names[paths[k]] == identities[k].inode
           && f.inodes[identities[k].inode].size == identities[k].size
           && f.inodes[identities[k].inode].mtime == identities[k].mtime
  {
  }

  /** The preview of unchanged paths counts the payload of each inode they lead to, once. */
  lemma EstimateIsPayload(f: Files, paths: seq<Path>, identities: seq<Identity>)
    requires Unchanged(f, paths, identities)
    ensures Estimate(identities) == Sum(SizesOf(f, set p | p in paths && p in f.names :: f.names[p]))
  {
    var ids := set p | p in paths && p in f.names :: f.names[p];
    forall i ensures i in InodesOf(identities) <==> i in ids {
      if k :| 0 <= k < |identities| && identities[k].inode == i { assert paths[k] in paths; }
      if p :| p in paths && p in f.names && f.names[p] == i {
        var k :| 0 <= k < |paths| && paths[k] == p;
        assert identities[k].inode == i;
      }
    }
    forall i | i in ids ensures i in f.inodes && SizeOf(identities, i) == f.inodes[i].size {
      RecordedSize(f, paths, identities, i);
    }
    assert RecordedSizes(identities) == SizesOf(f, ids);
  }

  lemma {:induction false} RecordedSize(f: Files, paths: seq<Path>, identities: seq<Identity>, i: InodeId)
    requires Unchanged(f, paths, identities) && i in InodesOf(identities)
    ensures i in f.inodes && SizeOf(identities, i) == f.inodes[i].size
    decreases |identities|
  {
    var n := |identities| - 1;
    if identities[n].inode != i {
      assert i in InodesOf(identities[..n]);
      RecordedSize(f, paths[..n], identities[..n], i);
    }
  }

  // ---- Which inodes go ----

  /** The paths of the plan that lead to an inode. */
  function Selected(f: Files, paths: seq<Path>, i: InodeId): set<Path> {
    set p | p in paths && p in f.names && f.names[p] == i
  }

  /** All names of the inode are in the plan exactly when the plan selects as many as the link count. */
  lemma LinkCountTells(f: Files, paths: seq<Path>, i: InodeId)
    ensures |f.NamesOf(i)| <= |Selected(f, paths, i)| <==> f.NamesOf(i) <= PathSet(paths)
  {
    var all, selected := f.NamesOf(i), Selected(f, paths, i);
    assert selected <= all;
    assert all == selected + (all - selected);
    assert |all| == |selected| + |all - selected|;
    if all <= PathSet(paths) { assert all == selected; }
    if |all| <= |selected| { assert all - selected == {}; assert forall p | p in all :: p in selected; }
  }

  /** Inodes the plan removes the last name of. */
  function Freed(f: Files, paths: seq<Path>): set<InodeId> {
    set i | i in f.names.Values && f.NamesOf(i) <= PathSet(paths)
  }

  lemma UnlinkingFrees(f: Files, paths: seq<Path>)
    requires f.Closed()
    ensures Unlinked(f, PathSet(paths)).Closed()
    ensures StoredBytes(f) == StoredBytes(Unlinked(f, PathSet(paths))) + Sum(SizesOf(f, Freed(f, paths)))
  {
    var after := Unlinked(f, PathSet(paths));
    SumSplit(Payloads(f), Freed(f, paths));
    assert Payloads(f) - Freed(f, paths) == Payloads(after) by {
      forall i ensures i in (Payloads(f) - Freed(f, paths)).Keys <==> i in Payloads(after).Keys {
        if i in f.names.Values && i !in Freed(f, paths) {
          var p :| p in f.NamesOf(i) && p !in PathSet(paths);
          assert p in after.names && after.names[p] == i;
        }
        if i in after.names.Values {
          var p :| p in after.names && after.names[p] == i;
          assert p in f.NamesOf(i) && p !in PathSet(paths) && f.names[p] in f.names.Values;
        }
      }
    }
    assert Part(Payloads(f), Freed(f, paths)) == SizesOf(f, Freed(f, paths));
  }

  // ---- The executor ----

  /** What the loop over the snapshots collects per inode. */
  datatype Group = Group(size: nat, links: nat, selected: nat)

  ghost predicate Grouped(f: Files, paths: seq<Path>, groups: map<InodeId, Group>) {
    && f.Closed()
    && (forall p | p in paths :: p in f.names)
    && groups.Keys == (set p | p in paths && p in f.names :: f.names[p])
    && forall i | i in groups ::
         i in f.inodes && groups[i] == Group(f.inodes[i].size, |f.NamesOf(i)|, |Selected(f, paths, i)|)
  }

  lemma GroupOneMore(f: Files, paths: seq<Path>, p: Path, groups: map<InodeId, Group>)
    requires Grouped(f, paths, groups) && p !in paths && p in f.names
    ensures var i := f.names[p];
      Grouped(f, paths + [p],
        groups[i := if i in groups then groups[i].(selected := groups[i].selected + 1)
                    else Group(f.inodes[i].size, |f.NamesOf(i)|, 1)])
  {
    var i, more := f.names[p], paths + [p];
    assert forall q :: q in more <==> q in paths || q == p;
    assert Selected(f, more, i) == Selected(f, paths, i) + {p};
    if i !in groups { assert Selected(f, paths, i) == {}; }
    forall k | k != i ensures Selected(f, more, k) == Selected(f, paths, k) { }
  }

  function Emptied(groups: map<InodeId, Group>): set<InodeId> {
    set i | i in groups && groups[i].links <= groups[i].selected
  }

  lemma PlannedAreNames(f: Files, paths: seq<Path>, identities: seq<Identity>)
    requires Unchanged(f, paths, identities)
    ensures forall p | p in paths :: p in f.names
  {
    forall p | p in paths ensures p in f.names {
      var k :| 0 <= k < |paths| && paths[k] == p;
    }
  }

  /** The inodes whose link count the plan reaches are those it frees. */
  lemma GroupsTellFreed(f: Files, paths: seq<Path>, groups: map<InodeId, Group>)
    requires Grouped(f, paths, groups)
    ensures Emptied(groups) == Freed(f, paths)
  {
    forall i ensures i in groups && groups[i].links <= groups[i].selected <==> i in Freed(f, paths) {
      LinkCountTells(f, paths, i);
      if i in Freed(f, paths) {
        var p :| p in f.names && f.names[p] == i;
        assert p in f.NamesOf(i) && p in paths;
      }
      if i in groups {
        var p :| p in paths && p in f.names && f.names[p] == i;
        assert i in f.names.Values;
      }
    }
  }

  lemma EstimateCovers(f: Files, paths: seq<Path>, identities: seq<Identity>)
    requires Unchanged(f, paths, identities)
    ensures Sum(SizesOf(f, Freed(f, paths))) <= Estimate(identities)
  {
    var freed, estimated := SizesOf(f, Freed(f, paths)), RecordedSizes(identities);
    forall i | i in freed ensures i in estimated && freed[i] == estimated[i] {
      var p :| p in f.names && f.names[p] == i;
      assert p in f.NamesOf(i) && p in paths;
      var k :| 0 <= k < |paths| && paths[k] == p;
      assert identities[k].inode == i;
      RecordedSize(f, paths, identities, i);
    }
    SumMonotone(freed, estimated);
  }

  class DeletionExecutor {
    var files: Files

    constructor (files: Files)
      ensures this.files == files
    {
      this.files := files;
    }

    /** The first pass: every target is still what was confirmed. */
    method Verify(paths: seq<Path>, identities: seq<Identity>) returns (ok: bool)
      requires files.Closed()
      ensures ok == Unchanged(files, paths, identities)
    {
      if |paths| != |identities| {
        return false;
      }
      for k := 0 to |paths|
        invariant forall j | 0 <= j < k :: paths[j] in files.names && files.IdentityOf(paths[j]) == identities[j]
      {
        if paths[k] !in files.names || files.IdentityOf(paths[k]) != identities[k] {
          return false;
        }
      }
      ok := true;
    }

    method GroupByInode(before: Files, paths: seq<Path>) returns (groups: map<InodeId, Group>)
      requires before.Closed() && DistinctPaths(paths) && forall p | p in paths :: p in before.names
      ensures Grouped(before, paths, groups)
    {
      groups := map[];
      for k := 0 to |paths|
        invariant Grouped(before, paths[..k], groups)
      {
        var p := paths[k];
        assert paths[..k + 1] == paths[..k] + [p];
        GroupOneMore(before, paths[..k], p, groups);
        var i := before.names[p];
        if i in groups {
          groups := groups[i := groups[i].(selected := groups[i].selected + 1)];
        } else {
          groups := groups[i := Group(before.inodes[i].size, |before.NamesOf(i)|, 1)];
        }
      }
      assert paths[..|paths|] == paths;
    }

    /**
     Removes every path of the plan, or, when any of them has changed, none. With nobody else
     changing files, the bytes reported are the exact drop in stored payload, and no more than
     the preview estimated.
     */
    method Execute(paths: seq<Path>, identities: seq<Identity>) returns (freed: Option<nat>)
      requires files.Closed() && DistinctPaths(paths)
      modifies this
      ensures freed.Some? <==> Unchanged(old(files), paths, identities)
      ensures freed.None? ==> files == old(files)
      ensures freed.Some? ==> files == Unlinked(old(files), PathSet(paths)) && files.Closed()
      ensures freed.Some? ==> freed.value == StoredBytes(old(files)) - StoredBytes(files)
      ensures freed.Some? ==> freed.value <= Estimate(identities)
    {
      var before := files;
      var ok := Verify(paths, identities);
      if !ok {
        return None;
      }
      PlannedAreNames(before, paths, identities);
      UnlinkAll(paths);
      var groups := GroupByInode(before, paths);
      var total := FreedTotal(before, groups);
      GroupsTellFreed(before, paths, groups);
      UnlinkingFrees(before, paths);
      EstimateCovers(before, paths, identities);
      freed := Some(total);
    }

    method UnlinkAll(paths: seq<Path>)
      requires DistinctPaths(paths) && forall p | p in paths :: p in files.names
      modifies this
      ensures files == Unlinked(old(files), PathSet(paths))
    {
      var before := files;
      for k := 0 to |paths|
        invariant files == Unlinked(before, PathSet(paths[..k]))
      {
        assert paths[..k + 1] == paths[..k] + [paths[k]];
        assert PathSet(paths[..k + 1]) == PathSet(paths[..k]) + {paths[k]};
        assert paths[k] in paths && paths[k] in files.names;
        files := files.(names := files.names - {paths[k]});
      }
      assert paths[..|paths|] == paths;
    }

    /** The sum over the groups whose last link is gone. */
    method FreedTotal(before: Files, groups: map<InodeId, Group>) returns (total: nat)
      requires forall i | i in groups :: i in before.inodes && groups[i].size == before.inodes[i].size
      ensures total == Sum(SizesOf(before, Emptied(groups)))
    {
      var gone := Emptied(groups);
      var rest := gone;
      total := 0;
      ghost var counted: map<InodeId, nat> := map[];
      while rest != {}
        invariant rest <= gone && counted.Keys == gone - rest && total == Sum(counted)
        invariant forall i | i in counted :: counted[i] == before.inodes[i].size
        decreases rest
      {
        var i :| i in rest;
        SumInsert(counted, i, groups[i].size);
        counted := counted[i := groups[i].size];
        total := total + groups[i].size;
        rest := rest - {i};
      }
      assert counted == SizesOf(before, gone);
    }
  }

  /** The candidate names this path, and none before it did. */
  predicate NamesFirst(candidates: seq<Path>, k: int, p: Path) {
    0 <= k < |candidates| && candidates[k] == p && forall j | 0 <= j < k :: candidates[j] != p
  }

  ghost predicate NamedBefore(candidates: seq<Path>, p: Path, q: Path) {
    exists j, k :: j < k && NamesFirst(candidates, j, p) && NamesFirst(candidates, k, q)
  }

  /** The paths stand in the order in which the candidates first name them. */
  ghost predicate InFirstOrder(candidates: seq<Path>, paths: seq<Path>) {
    forall a, b | 0 <= a < b < |paths| :: NamedBefore(candidates, paths[a], paths[b])
  }

  lemma OneMoreNamed(candidates: seq<Path>, k: nat, paths: seq<Path>)
    requires k < |candidates| && candidates[k] !in paths && InFirstOrder(candidates, paths)
    requires PathSet(paths) == PathSet(candidates[..k])
    ensures InFirstOrder(candidates, paths + [candidates[k]])
  {
    forall j | 0 <= j < k ensures candidates[j] != candidates[k] {
      assert candidates[..k][j] in PathSet(paths);
    }
    assert NamesFirst(candidates, k, candidates[k]);
    forall a | 0 <= a < |paths| ensures NamedBefore(candidates, paths[a], candidates[k]) {
      assert paths[a] in PathSet(candidates[..k]);
      var j :| 0 <= j < k && candidates[j] == paths[a];
      var first := FirstNaming(candidates, j);
    }
    hide NamedBefore;
    var after := paths + [candidates[k]];
    assert forall a | 0 <= a < |paths| :: after[a] == paths[a];
  }

  lemma {:induction false} FirstNaming(candidates: seq<Path>, k: nat) returns (first: nat)
    requires k < |candidates|
    ensures first <= k && NamesFirst(candidates, first, candidates[k])
  {
    first := k;
    if j :| 0 <= j < k && candidates[j] == candidates[k] { first := FirstNaming(candidates, j); }
  }

  /** The preview's path list: each resolved path once, in the order first seen. */
  method Deduplicate(candidates: seq<Path>) returns (paths: seq<Path>)
    ensures DistinctPaths(paths) && PathSet(paths) == PathSet(candidates)
    ensures InFirstOrder(candidates, paths)
  {
    paths := [];
    for k := 0 to |candidates|
      invariant DistinctPaths(paths) && PathSet(paths) == PathSet(candidates[..k])
      invariant InFirstOrder(candidates, paths)
    {
      assert candidates[..k + 1] == candidates[..k] + [candidates[k]];
      assert PathSet(candidates[..k + 1]) == PathSet(candidates[..k]) + {candidates[k]};
      assert candidates[k] in paths <==> candidates[k] in PathSet(paths);
      if candidates[k] !in paths {
        OneMoreNamed(candidates, k, paths);
        assert PathSet(paths + [candidates[k]]) == PathSet(paths) + {candidates[k]};
        paths := paths + [candidates[k]];
      }
    }
    assert candidates[..|candidates|] == candidates;
  }
}
