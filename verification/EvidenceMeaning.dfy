/** The evidence of a pool, said of single reports: which are taken, which one stands, and what is added up. */
module EvidenceMeaning {
  import opened Options
  import opened Sums
  import opened Tables
  import opened CapacityReports

  /** Of a torrent of this pool, admitted or not. */
  predicate Of(r: Report, pool: PoolId, admitted: bool, h: InfoHash) {
    r.pool == pool && r.admitted == admitted && r.hash == Some(h)
  }

  function Amount(r: Report): nat {
    match r.left
    case Some(left) => left
    case None => r.reserved
  }

  /** The report's bytes count: no later report of the torrent is of unknown size. */
  predicate Stands(reports: seq<Report>, pool: PoolId, admitted: bool, h: InfoHash, i: int) {
    && 0 <= i < |reports| && Of(reports[i], pool, admitted, h)
    && forall j | i < j < |reports| && Of(reports[j], pool, admitted, h) :: reports[j].left != None
  }

  /** The map gives each torrent the largest amount that stands for it, and no other torrent anything. */
  ghost predicate LargestStanding(reports: seq<Report>, pool: PoolId, admitted: bool, m: map<InfoHash, nat>) {
    && (forall h :: h in m <==> exists i :: Stands(reports, pool, admitted, h, i))
    && (forall h, i | h in m && Stands(reports, pool, admitted, h, i) :: Amount(reports[i]) <= m[h])
    && (forall h | h in m :: exists i :: Stands(reports, pool, admitted, h, i) && Amount(reports[i]) == m[h])
  }

  lemma StandsEarlier(reports: seq<Report>, pool: PoolId, admitted: bool, h: InfoHash, i: nat)
    requires i + 1 < |reports|
    ensures var last := reports[|reports| - 1];
      Stands(reports, pool, admitted, h, i) <==>
      Stands(reports[..|reports| - 1], pool, admitted, h, i) && (Of(last, pool, admitted, h) ==> last.left != None)
  {
    var front := reports[..|reports| - 1];
    forall j | 0 <= j < |front| ensures front[j] == reports[j] { }
  }

  lemma {:induction false} CommitmentsStand(reports: seq<Report>, pool: PoolId, admitted: bool)
    ensures LargestStanding(reports, pool, admitted, CapacityReports.Commitments(reports, pool, admitted))
    decreases |reports|
  {
    var m := CapacityReports.Commitments(reports, pool, admitted);
    if reports != [] {
      var n := |reports| - 1;
      var front, last := reports[..n], reports[n];
      var before := CapacityReports.Commitments(front, pool, admitted);
      CommitmentsStand(front, pool, admitted);
      forall h ensures h in m <==> exists i :: Stands(reports, pool, admitted, h, i)
               ensures h in m ==> (forall i | Stands(reports, pool, admitted, h, i) :: Amount(reports[i]) <= m[h])
               ensures h in m ==> exists i :: Stands(reports, pool, admitted, h, i) && Amount(reports[i]) == m[h]
      {
        OneMoreReport(reports, pool, admitted, h, before, m);
      }
    }
  }

  lemma OneMoreReport(reports: seq<Report>, pool: PoolId, admitted: bool, h: InfoHash, before: map<InfoHash, nat>,
                      m: map<InfoHash, nat>)
    requires reports != [] && LargestStanding(reports[..|reports| - 1], pool, admitted, before)
    requires before == CapacityReports.Commitments(reports[..|reports| - 1], pool, admitted)
    requires m == CapacityReports.Commitments(reports, pool, admitted)
    ensures h in m <==> exists i :: Stands(reports, pool, admitted, h, i)
    ensures h in m ==> (forall i | Stands(reports, pool, admitted, h, i) :: Amount(reports[i]) <= m[h])
    ensures h in m ==> exists i :: Stands(reports, pool, admitted, h, i) && Amount(reports[i]) == m[h]
  {
    hide CapacityReports.Commitments, Stands, LargestStanding;
    var n := |reports| - 1;
    var front, last := reports[..n], reports[n];
    StandingBefore(front, pool, admitted, h, before);
    LastStands(reports, pool, admitted, h);
    CommitmentsOfLast(reports, pool, admitted, h);
    forall i: nat | i < n
      ensures Stands(reports, pool, admitted, h, i) <==>
              Stands(front, pool, admitted, h, i) && (Of(last, pool, admitted, h) ==> last.left != None)
    {
      StandsEarlier(reports, pool, admitted, h, i);
    }
    forall i | Stands(reports, pool, admitted, h, i) ensures 0 <= i <= n {
      StandingIsReport(reports, pool, admitted, h, i);
    }
    forall i | Stands(front, pool, admitted, h, i) ensures 0 <= i < n {
      StandingIsReport(front, pool, admitted, h, i);
    }
  }

  lemma StandingIsReport(reports: seq<Report>, pool: PoolId, admitted: bool, h: InfoHash, i: int)
    requires Stands(reports, pool, admitted, h, i)
    ensures 0 <= i < |reports|
  {
  }

  lemma StandingBefore(reports: seq<Report>, pool: PoolId, admitted: bool, h: InfoHash, m: map<InfoHash, nat>)
    requires LargestStanding(reports, pool, admitted, m)
    ensures h in m <==> exists i :: Stands(reports, pool, admitted, h, i)
    ensures h in m ==> (forall i | Stands(reports, pool, admitted, h, i) :: Amount(reports[i]) <= m[h])
    ensures h in m ==> exists i :: Stands(reports, pool, admitted, h, i) && Amount(reports[i]) == m[h]
  {
    hide Stands;
  }

  lemma LastStands(reports: seq<Report>, pool: PoolId, admitted: bool, h: InfoHash)
    requires reports != []
    ensures Stands(reports, pool, admitted, h, |reports| - 1) <==> Of(reports[|reports| - 1], pool, admitted, h)
  {
  }

  lemma CommitmentsOfLast(reports: seq<Report>, pool: PoolId, admitted: bool, h: InfoHash)
    requires reports != []
    ensures var n := |reports| - 1;
      var before, m := CapacityReports.Commitments(reports[..n], pool, admitted),
                       CapacityReports.Commitments(reports, pool, admitted);
      var last := reports[n];
      && (!Of(last, pool, admitted, h) ==> (h in m <==> h in before) && (h in m ==> m[h] == before[h]))
      && (Of(last, pool, admitted, h) ==>
            h in m && m[h] == if last.left != None && h in before && before[h] > Amount(last) then before[h]
                              else Amount(last))
  {
  }

  // ---- A pool's evidence ----

  /** One report of the pool that cannot be vouched for leaves no evidence of it. */
  predicate Vouched(r: Report, fs: FilesystemId) {
    r.hash != None && r.filesystem == fs && r.placed && (r.left != None || (r.admitted && r.reserved >= 1))
  }

  /**
   There is evidence of a pool exactly when each of its reports can be vouched for, and it consists of the
   disk's own numbers, the largest standing amount of each admitted torrent, the sum of those of all
   others, and the torrents shown stopped.
   */
  lemma EvidenceMeans(reports: seq<Report>, pool: PoolId, fs: FilesystemId, free: nat)
    ensures Evidence(reports, pool, fs, free).Some? <==>
      forall i | 0 <= i < |reports| && reports[i].pool == pool :: Vouched(reports[i], fs)
    ensures var found := Evidence(reports, pool, fs, free);
      found.Some? ==>
        && found.value.filesystem == fs && found.value.free == free
        && LargestStanding(reports, pool, true, found.value.remaining)
        && (exists others: map<InfoHash, nat> ::
              LargestStanding(reports, pool, false, others) && found.value.otherPending == Sum(others))
        && (forall h :: h in found.value.paused <==>
              exists i :: 0 <= i < |reports| && reports[i].pool == pool && reports[i].hash == Some(h) &&
                          reports[i].stopped)
  {
    hide LargestStanding, CapacityReports.Commitments;
    assert AllAcceptable(reports, pool, fs) <==>
           forall i | 0 <= i < |reports| && reports[i].pool == pool :: Vouched(reports[i], fs);
    CommitmentsStand(reports, pool, true);
    CommitmentsStand(reports, pool, false);
    forall h ensures h in CapacityReports.Paused(reports, pool) <==>
      exists i :: 0 <= i < |reports| && reports[i].pool == pool && reports[i].hash == Some(h) && reports[i].stopped
    {
      PausedIsStopped(reports, pool, h);
    }
  }

  lemma PausedIsStopped(reports: seq<Report>, pool: PoolId, h: InfoHash)
    ensures h in CapacityReports.Paused(reports, pool) <==>
      exists i :: 0 <= i < |reports| && reports[i].pool == pool && reports[i].hash == Some(h) && reports[i].stopped
  {
    if i :| 0 <= i < |reports| && reports[i].pool == pool && reports[i].hash == Some(h) && reports[i].stopped {
      assert reports[i] in reports;
    }
  }

  // ---- A measured pool ----

  predicate Describes(items: seq<Snapshot>, pool: PoolId, i: int) {
    0 <= i < |items| && items[i].pool == Some(pool)
  }

  ghost predicate DescribesAlone(items: seq<Snapshot>, pool: PoolId, i: int) {
    Describes(items, pool, i) && forall j | Describes(items, pool, j) :: j == i
  }

  lemma {:induction false} NoneDescribed(items: seq<Snapshot>, pool: PoolId)
    ensures SnapshotsOf(items, pool) == [] <==> forall i :: !Describes(items, pool, i)
    decreases |items|
  {
    if items != [] {
      NoneDescribed(items[1..], pool);
      if SnapshotsOf(items, pool) == [] {
        forall i ensures !Describes(items, pool, i) { assert !Describes(items[1..], pool, i - 1); }
      }
      if forall i :: !Describes(items, pool, i) {
        assert !Describes(items, pool, 0);
        forall i ensures !Describes(items[1..], pool, i) { assert !Describes(items, pool, i + 1); }
      }
    }
  }

  lemma {:induction false} OneDescribed(items: seq<Snapshot>, pool: PoolId, i: nat)
    requires DescribesAlone(items, pool, i)
    ensures SnapshotsOf(items, pool) == [items[i]]
    decreases |items|
  {
    var rest := items[1..];
    if i == 0 {
      forall j ensures !Describes(rest, pool, j) {
        if Describes(rest, pool, j) { assert Describes(items, pool, j + 1); }
      }
      NoneDescribed(rest, pool);
    } else {
      assert items[0].pool != Some(pool) by { assert !Describes(items, pool, 0); }
      forall j | Describes(rest, pool, j) ensures j == i - 1 { assert Describes(items, pool, j + 1); }
      OneDescribed(rest, pool, i - 1);
    }
  }

  lemma {:induction false} TheOneDescribed(items: seq<Snapshot>, pool: PoolId) returns (i: nat)
    requires |SnapshotsOf(items, pool)| == 1
    ensures DescribesAlone(items, pool, i) && SnapshotsOf(items, pool) == [items[i]]
    decreases |items|
  {
    var rest := items[1..];
    if items[0].pool == Some(pool) {
      i := 0;
      NoneDescribed(rest, pool);
      forall j | Describes(items, pool, j) ensures j == 0 {
        if j > 0 { assert Describes(rest, pool, j - 1); }
      }
    } else {
      var later := TheOneDescribed(rest, pool);
      i := later + 1;
      forall j | Describes(items, pool, j) ensures j == i { assert Describes(rest, pool, j - 1); }
    }
  }

  /** A measured pool has one snapshot, no older than allowed nor from the future, ready, and of the inspected disk. */
  lemma MeasuredMeans(items: seq<Snapshot>, disks: Disks, pool: PoolId, now: int, maxAge: nat)
    ensures Measured(items, disks, pool, now, maxAge) <==>
      && pool in disks
      && exists i ::
           && DescribesAlone(items, pool, i) && items[i].ready && items[i].filesystem == disks[pool].0
           && items[i].measured.Some? && items[i].measured.value <= now <= items[i].measured.value + maxAge
  {
    hide DescribesAlone;
    if |SnapshotsOf(items, pool)| == 1 { var i := TheOneDescribed(items, pool); }
    forall i | DescribesAlone(items, pool, i) ensures 0 <= i < |items| && SnapshotsOf(items, pool) == [items[i]] {
      IsThere(items, pool, i);
      OneDescribed(items, pool, i);
    }
  }

  lemma IsThere(items: seq<Snapshot>, pool: PoolId, i: int)
    requires DescribesAlone(items, pool, i)
    ensures 0 <= i < |items|
  {
  }
}
