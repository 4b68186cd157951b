/** `_registered_capacity`: from the queue's reports to the evidence the ledger is measured against. */
module CapacityReports {
  import opened Options
  import opened Sums
  import opened Tables

  /**
   What the gateway reports of one torrent. `left` is None unless both sizes make sense, and `reserved`
   is zero unless the ledger names a positive budget; `placed` is the verified placement.
   */
  datatype Report = Report(pool: PoolId, hash: Option<InfoHash>, filesystem: FilesystemId, placed: bool, admitted: bool,
                           stopped: bool, left: Option<nat>, reserved: nat)
  {
    predicate Acceptable(fs: FilesystemId) {
      hash.Some? && filesystem == fs && placed && (left.Some? || (admitted && reserved > 0))
    }

    /** The bytes the torrent still needs, as far as is known. */
    function Need(): nat {
      if left.Some? then left.value else reserved
    }
  }

  predicate AllAcceptable(reports: seq<Report>, pool: PoolId, fs: FilesystemId) {
    forall r | r in reports && r.pool == pool :: r.Acceptable(fs)
  }

  function Raised(m: map<InfoHash, nat>, h: InfoHash, left: nat): map<InfoHash, nat> {
    m[h := if h in m && m[h] > left then m[h] else left]
  }

  /** The larger of repeated reports, except that an unknown size overrides what came before it. */
  function Counted(m: map<InfoHash, nat>, r: Report): map<InfoHash, nat>
    requires r.hash.Some?
  {
    if r.left.Some? then Raised(m, r.hash.value, r.left.value) else m[r.hash.value := r.reserved]
  }

  /** Commitments of the pool's admitted torrents, or of the others, in the order reported. */
  function Commitments(reports: seq<Report>, pool: PoolId, admitted: bool): map<InfoHash, nat> {
    if reports == [] then map[]
    else
      var front, r := Commitments(reports[..|reports| - 1], pool, admitted), reports[|reports| - 1];
      if r.pool == pool && r.admitted == admitted && r.hash.Some? then Counted(front, r) else front
  }

  function Paused(reports: seq<Report>, pool: PoolId): set<InfoHash> {
    set r | r in reports && r.pool == pool && r.stopped && r.hash.Some? :: r.hash.value
  }

  ghost function Evidence(reports: seq<Report>, pool: PoolId, fs: FilesystemId, free: nat): Option<PoolEvidence> {
    if AllAcceptable(reports, pool, fs) then
      Some(PoolEvidence(fs, free, Commitments(reports, pool, true), Sum(Commitments(reports, pool, false)),
                        Paused(reports, pool)))
    else None
  }

  // ---- Every torrent once ----

  /** qBittorrent lists a torrent once. */
  predicate ListedOnce(reports: seq<Report>, pool: PoolId) {
    forall i, j | 0 <= i < j < |reports| && reports[i].pool == pool && reports[j].pool == pool ::
      reports[i].hash != reports[j].hash
  }

  function TotalNeed(reports: seq<Report>, pool: PoolId): nat {
    if reports == [] then 0
    else
      var last := reports[|reports| - 1];
      TotalNeed(reports[..|reports| - 1], pool) + (if last.pool == pool then last.Need() else 0)
  }

  lemma {:induction false} CommittedWasReported(reports: seq<Report>, pool: PoolId, admitted: bool, h: InfoHash)
    requires h in Commitments(reports, pool, admitted)
    ensures exists i | 0 <= i < |reports| :: reports[i].pool == pool && reports[i].hash == Some(h)
  {
    var last := |reports| - 1;
    if !(reports[last].pool == pool && reports[last].hash == Some(h)) {
      CommittedWasReported(reports[..last], pool, admitted, h);
      var i :| 0 <= i < last && reports[..last][i].pool == pool && reports[..last][i].hash == Some(h);
      assert reports[i].pool == pool;
    }
  }

  /** With each torrent listed once, all its missing bytes are committed, and committed once. */
  lemma {:induction false} EveryByteIsCommittedOnce(reports: seq<Report>, pool: PoolId, fs: FilesystemId)
    requires AllAcceptable(reports, pool, fs) && ListedOnce(reports, pool)
    ensures Sum(Commitments(reports, pool, true)) + Sum(Commitments(reports, pool, false)) == TotalNeed(reports, pool)
  {
    if reports != [] {
      var last := |reports| - 1;
      var front, r := reports[..last], reports[last];
      assert r in reports && forall x | x in front :: x in reports;
      EveryByteIsCommittedOnce(front, pool, fs);
      if r.pool == pool {
        var before := Commitments(front, pool, r.admitted);
        assert r.Acceptable(fs);
        if r.hash.value in before {
          CommittedWasReported(front, pool, r.admitted, r.hash.value);
        }
        assert r.hash.value !in before;
        assert Commitments(reports, pool, r.admitted) == before[r.hash.value := r.Need()];
        SumInsert(before, r.hash.value, r.Need());
      }
    }
  }

  // ---- Repeated reports ----

  predicate Concerns(r: Report, pool: PoolId, admitted: bool, h: InfoHash) {
    r.pool == pool && r.admitted == admitted && r.hash == Some(h)
  }

  /** A report of unknown size reserves no less than any report of the same admitted torrent needs. */
  predicate OrderFree(reports: seq<Report>, pool: PoolId, admitted: bool) {
    forall a, b | a in reports && b in reports && a.pool == pool && b.pool == pool ::
      a.admitted == admitted && b.admitted == admitted && a.hash == b.hash && a.left.None? ==> b.Need() <= a.reserved
  }

  /** Then what is committed for a torrent is the largest need any report of it names. */
  lemma {:induction false} CommitmentIsLargestNeed(reports: seq<Report>, pool: PoolId, admitted: bool, h: InfoHash)
    requires OrderFree(reports, pool, admitted)
    ensures h in Commitments(reports, pool, admitted) <==> exists r :: r in reports && Concerns(r, pool, admitted, h)
    ensures h in Commitments(reports, pool, admitted) ==>
      var top := Commitments(reports, pool, admitted)[h];
      && (exists r :: r in reports && Concerns(r, pool, admitted, h) && r.Need() == top)
      && (forall r | r in reports && Concerns(r, pool, admitted, h) :: r.Need() <= top)
  {
    if reports != [] {
      var front, last := reports[..|reports| - 1], reports[|reports| - 1];
      assert last in reports && forall r :: r in reports <==> r in front || r == last;
      CommitmentIsLargestNeed(front, pool, admitted, h);
      if Concerns(last, pool, admitted, h) {
        assert forall r | r in front && Concerns(r, pool, admitted, h) && last.left.None? :: r.Need() <= last.reserved;
      }
    }
  }

  lemma SameReports(a: seq<Report>, b: seq<Report>)
    requires multiset(a) == multiset(b)
    ensures forall r :: r in a <==> r in b
  {
    assert forall r :: r in a <==> r in multiset(a);
    assert forall r :: r in b <==> r in multiset(b);
  }

  lemma ReorderedCommitments(reports: seq<Report>, other: seq<Report>, pool: PoolId, admitted: bool)
    requires multiset(other) == multiset(reports) && OrderFree(reports, pool, admitted)
    ensures Commitments(other, pool, admitted) == Commitments(reports, pool, admitted)
  {
    SameReports(other, reports);
    hide Commitments;
    var a, b := Commitments(other, pool, admitted), Commitments(reports, pool, admitted);
    forall h ensures h in a <==> h in b {
      CommitmentIsLargestNeed(other, pool, admitted, h);
      CommitmentIsLargestNeed(reports, pool, admitted, h);
    }
    forall h | h in a ensures a[h] == b[h] {
      CommitmentIsLargestNeed(other, pool, admitted, h);
      CommitmentIsLargestNeed(reports, pool, admitted, h);
    }
  }

  /** The evidence of a pool is the same in whatever order the queue lists its torrents. */
  ghost predicate OrderNeverMatters(reports: seq<Report>, pool: PoolId, fs: FilesystemId, free: nat) {
    forall other | multiset(other) == multiset(reports) ::
      Evidence(other, pool, fs, free) == Evidence(reports, pool, fs, free)
  }

  lemma ReorderedEvidence(reports: seq<Report>, other: seq<Report>, pool: PoolId, fs: FilesystemId, free: nat)
    requires multiset(other) == multiset(reports)
    requires AllAcceptable(reports, pool, fs) ==> OrderFree(reports, pool, true)
    ensures Evidence(other, pool, fs, free) == Evidence(reports, pool, fs, free)
  {
    SameReports(other, reports);
    if AllAcceptable(reports, pool, fs) {
      ReorderedCommitments(reports, other, pool, true);
      assert OrderFree(reports, pool, false);
      ReorderedCommitments(reports, other, pool, false);
      assert Paused(other, pool) == Paused(reports, pool);
    }
    hide Commitments, OrderFree;
  }

  lemma TakenOut(reports: seq<Report>, a: Report) returns (rest: seq<Report>)
    requires a in reports
    ensures multiset(rest) + multiset{a} == multiset(reports)
  {
    var i :| 0 <= i < |reports| && reports[i] == a;
    rest := reports[..i] + reports[i + 1..];
    assert reports == reports[..i] + [a] + reports[i + 1..];
  }

  /** The same reports with two of them moved to the end. */
  lemma MovedLast(reports: seq<Report>, a: Report, b: Report) returns (rest: seq<Report>)
    requires a in reports && b in reports && a != b
    ensures multiset(rest + [a, b]) == multiset(reports) && multiset(rest + [b, a]) == multiset(reports)
  {
    var one := TakenOut(reports, a);
    assert b in multiset(reports);
    rest := TakenOut(one, b);
    assert multiset(rest + [a, b]) == multiset(rest) + multiset{a, b};
    assert multiset(rest + [b, a]) == multiset(rest) + multiset{a, b};
  }

  lemma LastTwo(rest: seq<Report>, a: Report, b: Report, pool: PoolId, h: InfoHash)
    requires Concerns(a, pool, true, h) && Concerns(b, pool, true, h) && a.left.None? && b.Need() > a.reserved
    ensures Commitments(rest + [a, b], pool, true) != Commitments(rest + [b, a], pool, true)
  {
    var ab, ba := rest + [a, b], rest + [b, a];
    assert ab[..|ab| - 1] == rest + [a] && ba[..|ba| - 1] == rest + [b];
    assert (rest + [a])[..|rest|] == rest && (rest + [b])[..|rest|] == rest;
    assert Commitments(rest + [a], pool, true)[h] == a.reserved;
    assert Commitments(ab, pool, true)[h] == b.Need();
    assert h in Commitments(ba, pool, true) && Commitments(ba, pool, true)[h] == a.reserved;
  }

  /**
   The order of the reports does not matter if and only if they are refused in any order, or every
   admitted report of unknown size reserves the largest need reported of its torrent.
   */
  lemma OrderNeverMattersExactlyWhenFree(reports: seq<Report>, pool: PoolId, fs: FilesystemId, free: nat)
    ensures OrderNeverMatters(reports, pool, fs, free) <==>
      (AllAcceptable(reports, pool, fs) ==> OrderFree(reports, pool, true))
  {
    hide Evidence, Commitments;
    if AllAcceptable(reports, pool, fs) && !OrderFree(reports, pool, true) {
      var a, b :| a in reports && b in reports && a.pool == pool && b.pool == pool && a.admitted && b.admitted &&
        a.hash == b.hash && a.left.None? && !(b.Need() <= a.reserved);
      assert a.Acceptable(fs);
      var rest := MovedLast(reports, a, b);
      LastTwo(rest, a, b, pool, a.hash.value);
      SameReports(rest + [a, b], reports);
      SameReports(rest + [b, a], reports);
      DifferentCommitments(rest + [a, b], rest + [b, a], pool, fs, free);
    } else {
      forall other | multiset(other) == multiset(reports)
        ensures Evidence(other, pool, fs, free) == Evidence(reports, pool, fs, free)
      {
        ReorderedEvidence(reports, other, pool, fs, free);
      }
    }
  }

  lemma DifferentCommitments(a: seq<Report>, b: seq<Report>, pool: PoolId, fs: FilesystemId, free: nat)
    requires AllAcceptable(a, pool, fs) && AllAcceptable(b, pool, fs)
    requires Commitments(a, pool, true) != Commitments(b, pool, true)
    ensures Evidence(a, pool, fs, free) != Evidence(b, pool, fs, free)
  {
    hide Commitments;
    assert Evidence(a, pool, fs, free).value.remaining == Commitments(a, pool, true);
    assert Evidence(b, pool, fs, free).value.remaining == Commitments(b, pool, true);
  }

  /** A queue that lists every torrent once is free of order. */
  lemma ListedOnceIsOrderFree(reports: seq<Report>, pool: PoolId, admitted: bool)
    requires ListedOnce(reports, pool)
    ensures OrderFree(reports, pool, admitted)
  {
    forall a, b | a in reports && b in reports && a.pool == pool && b.pool == pool && a.hash == b.hash ensures a == b {
      var i :| 0 <= i < |reports| && reports[i] == a;
      var j :| 0 <= j < |reports| && reports[j] == b;
      assert !(i < j) && !(j < i);
    }
  }

  /** A queue, acceptable in both orders, that commits different bytes in them. */
  lemma OrderOfRepeatedReportsMatters(fs: FilesystemId)
    ensures var known := Report(Ssd, Some(1), fs, true, true, false, Some(5), 0);
      var unknown := Report(Ssd, Some(1), fs, true, true, false, None, 2);
      && AllAcceptable([known, unknown], Ssd, fs) && !OrderFree([known, unknown], Ssd, true)
      && Commitments([known, unknown], Ssd, true) == map[1 := 2]
      && Commitments([unknown, known], Ssd, true) == map[1 := 5]
  {
    var known := Report(Ssd, Some(1), fs, true, true, false, Some(5), 0);
    var unknown := Report(Ssd, Some(1), fs, true, true, false, None, 2);
    assert unknown in [known, unknown] && known in [known, unknown];
    assert [known, unknown][..1] == [known] && [unknown, known][..1] == [unknown];
    assert [known][..0] == [] && [unknown][..0] == [];
    assert Commitments([known], Ssd, true) == map[1 := 5];
    assert Commitments([unknown], Ssd, true) == map[1 := 2];
  }

  // ---- The loops ----

  method PoolCapacity(reports: seq<Report>, pool: PoolId, fs: FilesystemId, free: nat) returns (e: Option<PoolEvidence>)
    ensures e == Evidence(reports, pool, fs, free)
  {
    var remaining: map<InfoHash, nat>, other: map<InfoHash, nat>, paused: set<InfoHash> := map[], map[], {};
    for i := 0 to |reports|
      invariant forall k | 0 <= k < i && reports[k].pool == pool :: reports[k].Acceptable(fs)
      invariant remaining == Commitments(reports[..i], pool, true)
      invariant other == Commitments(reports[..i], pool, false)
      invariant paused == Paused(reports[..i], pool)
    {
      var r := reports[i];
      assert reports[..i + 1] == reports[..i] + [r] && reports[..i + 1][..i] == reports[..i];
      assert r in reports;
      if r.pool == pool {
        if !r.Acceptable(fs) {
          return None;
        }
        if r.stopped {
          paused := paused + {r.hash.value};
        }
        if r.admitted {
          remaining := Counted(remaining, r);
        } else {
          other := Counted(other, r);
        }
      }
      assert paused == Paused(reports[..i + 1], pool) by {
        assert forall x :: x in reports[..i + 1] <==> x in reports[..i] || x == r;
      }
    }
    assert reports[..|reports|] == reports;
    var pending := Total(other);
    e := Some(PoolEvidence(fs, free, remaining, pending, paused));
  }

  // ---- The whole queue ----

  /** An entry of the queue, or one whose pool is none of the registered ones. */
  datatype Entry = Attributed(report: Report) | Unattributed

  /** A pool as the collector's snapshot describes it. */
  datatype Snapshot = Snapshot(pool: Option<PoolId>, measured: Option<int>, ready: bool, filesystem: FilesystemId)

  /** What inspecting a registered pool gives now, for those that can be inspected. */
  type Disks = map<PoolId, (FilesystemId, nat)>

  function SnapshotsOf(items: seq<Snapshot>, pool: PoolId): seq<Snapshot> {
    if items == [] then []
    else if items[0].pool == Some(pool) then [items[0]] + SnapshotsOf(items[1..], pool)
    else SnapshotsOf(items[1..], pool)
  }

  /** The snapshot has the pool once, fresh and ready, and its disk is still the same. */
  predicate Measured(items: seq<Snapshot>, disks: Disks, pool: PoolId, now: int, maxAge: nat) {
    var found := SnapshotsOf(items, pool);
    && |found| == 1 && found[0].measured.Some? && 0 <= now - found[0].measured.value <= maxAge && found[0].ready
    && pool in disks && found[0].filesystem == disks[pool].0
  }

  function Reports(queue: seq<Entry>): seq<Report>
    requires Unattributed !in queue
  {
    seq(|queue|, i requires 0 <= i < |queue| => assert queue[i] in queue; queue[i].report)
  }

  ghost predicate HasEvidence(items: seq<Snapshot>, queue: seq<Entry>, disks: Disks, pool: PoolId, now: int,
                              maxAge: nat)
    requires Unattributed !in queue
  {
    Measured(items, disks, pool, now, maxAge) &&
    Evidence(Reports(queue), pool, disks[pool].0, disks[pool].1).Some?
  }

  /**
   The pools that are measured and whose part of the queue is verified. An entry that belongs to no
   registered pool, or no such pool at all, leaves no evidence.
   */
  method RegisteredCapacity(items: seq<Snapshot>, queue: seq<Entry>, disks: Disks, now: int, maxAge: nat)
    returns (c: Option<Capacity>)
    ensures c.Some? <==>
      Unattributed !in queue && exists pool :: HasEvidence(items, queue, disks, pool, now, maxAge)
    ensures c.Some? ==>
      forall pool :: pool in c.value <==> HasEvidence(items, queue, disks, pool, now, maxAge)
    ensures c.Some? ==>
      forall pool | pool in c.value ::
        Evidence(Reports(queue), pool, disks[pool].0, disks[pool].1) == Some(c.value[pool])
  {
    for i := 0 to |queue|
      invariant Unattributed !in queue[..i]
    {
      assert queue[..i + 1] == queue[..i] + [queue[i]];
      if queue[i].Unattributed? {
        assert queue[i] in queue;
        return None;
      }
    }
    assert queue[..|queue|] == queue;
    hide Evidence, SnapshotsOf;
    var reports := Reports(queue);
    var pools: Capacity := map[];
    var order := [Ssd, Hdd];
    for i := 0 to |order|
      invariant forall pool :: pool in pools <==>
        pool in order[..i] && HasEvidence(items, queue, disks, pool, now, maxAge)
      invariant forall pool | pool in pools ::
        Evidence(reports, pool, disks[pool].0, disks[pool].1) == Some(pools[pool])
    {
      var pool := order[i];
      assert order[..i + 1] == order[..i] + [pool];
      if Measured(items, disks, pool, now, maxAge) {
        var e := PoolCapacity(reports, pool, disks[pool].0, disks[pool].1);
        if e.Some? {
          pools := pools[pool := e.value];
        }
      }
    }
    assert order[..|order|] == order && order[0] == Ssd && order[1] == Hdd;
    forall pool: PoolId ensures pool in order {
      if pool != Ssd { assert pool == Hdd; }
    }
    c := if pools == map[] then None else Some(pools);
  }
}
