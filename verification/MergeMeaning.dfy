/** The tracker merge, said of the dictionary's own values and of places in the magnet's list. */
module MergeMeaning {
  import opened Options
  import opened Bencode
  import opened Decoding
  import opened KeyedFields
  import opened TorrentMetadata
  import opened TrackerMerge
  import SafePaths

  // ---- What the torrent has ----

  predicate IsTier(v: Value) {
    v.List? && forall i :: 0 <= i < |v.items| ==> v.items[i].Str?
  }

  /** The announce fields, where there are any, are a string and a list of lists of strings. */
  predicate Shaped(root: Fields) {
    && (Lookup(root, ANNOUNCE).Some? ==> Lookup(root, ANNOUNCE).value.Str?)
    && (Lookup(root, ANNOUNCE_LIST).Some? ==>
          && Lookup(root, ANNOUNCE_LIST).value.List?
          && forall i :: 0 <= i < |Lookup(root, ANNOUNCE_LIST).value.items| ==>
               IsTier(Lookup(root, ANNOUNCE_LIST).value.items[i]))
  }

  predicate Announced(root: Fields, url: Bytes) {
    url != [] && Lookup(root, ANNOUNCE) == Some(Str(url))
  }

  /** The tracker is announced or stands in some tier. */
  ghost predicate Known(root: Fields, url: Bytes) {
    || Announced(root, url)
    || (Lookup(root, ANNOUNCE_LIST).Some? && Lookup(root, ANNOUNCE_LIST).value.List? &&
        exists i :: 0 <= i < |Lookup(root, ANNOUNCE_LIST).value.items| &&
          Lookup(root, ANNOUNCE_LIST).value.items[i].List? &&
          Str(url) in Lookup(root, ANNOUNCE_LIST).value.items[i].items)
  }

  /** The tiers before the merge: the cached ones, or without any one made of the announced URL. */
  function TiersBefore(root: Fields): seq<Value> {
    var listed: Option<Value> := Lookup(root, ANNOUNCE_LIST);
    var announced: Option<Value> := Lookup(root, ANNOUNCE);
    if listed.Some? && listed.value.List? && listed.value.items != [] then listed.value.items
    else if announced.Some? && announced.value.Str? && announced.value.bytes != [] then [List([announced.value])]
    else []
  }

  // ---- What the magnet adds ----

  /** The magnet names the tracker there for the first time, and it is not known. */
  predicate NewAt(trackers: seq<Bytes>, known: set<Bytes>, i: int) {
    0 <= i < |trackers| && trackers[i] !in known && forall j :: 0 <= j < i ==> trackers[j] != trackers[i]
  }

  /** Places of new trackers, in order. */
  predicate InOrder(trackers: seq<Bytes>, known: set<Bytes>, at: seq<nat>) {
    && (forall k :: 0 <= k < |at| ==> NewAt(trackers, known, at[k]))
    && (forall k, m :: 0 <= k < m < |at| ==> at[k] < at[m])
  }

  /** A new tracker left out stands behind all that there was room for. */
  ghost predicate LeavesOnlyRest(trackers: seq<Bytes>, known: set<Bytes>, room: nat, at: seq<nat>) {
    forall i | NewAt(trackers, known, i) && i !in at :: |at| == room && (at != [] ==> at[|at| - 1] < i)
  }

  /** The places of the new trackers in order, all of them or as many of the first as there is room for. */
  ghost predicate Picks(trackers: seq<Bytes>, known: set<Bytes>, room: nat, at: seq<nat>) {
    |at| <= room && InOrder(trackers, known, at) && LeavesOnlyRest(trackers, known, room, at)
  }

  function Picked(trackers: seq<Bytes>, at: seq<nat>): seq<Bytes>
    requires forall k :: 0 <= k < |at| ==> at[k] < |trackers|
  {
    seq(|at|, k requires 0 <= k < |at| => trackers[at[k]])
  }

  function Later(at: seq<nat>): seq<nat> {
    seq(|at|, k requires 0 <= k < |at| => at[k] + 1)
  }

  lemma NewInRest(trackers: seq<Bytes>, known: set<Bytes>, i: nat)
    requires trackers != []
    ensures NewAt(trackers, known, i + 1) <==> NewAt(trackers[1..], known + {trackers[0]}, i)
    ensures NewAt(trackers, known, 0) <==> trackers[0] !in known
  {
    var rest := trackers[1..];
    if i < |rest| {
      assert rest[i] == trackers[i + 1];
      if NewAt(trackers, known, i + 1) {
        forall j | 0 <= j < i ensures rest[j] != rest[i] { assert trackers[j + 1] == rest[j]; }
      }
      if NewAt(rest, known + {trackers[0]}, i) {
        forall j | 0 <= j < i + 1 ensures trackers[j] != trackers[i + 1] {
          if j > 0 { assert trackers[j] == rest[j - 1]; }
        }
      }
    }
  }

  lemma {:induction false} NewTrackersArePicked(trackers: seq<Bytes>, known: set<Bytes>, room: nat)
    returns (at: seq<nat>)
    ensures Picks(trackers, known, room, at) && NewTrackers(trackers, known, room) == Picked(trackers, at)
  {
    if trackers == [] || room == 0 {
      at := [];
    } else {
      var rest, first := trackers[1..], trackers[0];
      var left := if first in known then room else room - 1;
      assert first in known ==> known + {first} == known;
      var later := NewTrackersArePicked(rest, known + {first}, left);
      at := (if first in known then [] else [0]) + Later(later);
      PicksGrow(trackers, known, room, later, at);
      assert Picked(trackers, Later(later)) == Picked(rest, later);
      assert Picked(trackers, at) == (if first in known then [] else [first]) + Picked(rest, later);
    }
  }

  lemma PicksGrow(trackers: seq<Bytes>, known: set<Bytes>, room: nat, later: seq<nat>, at: seq<nat>)
    requires trackers != [] && room > 0
    requires Picks(trackers[1..], known + {trackers[0]}, if trackers[0] in known then room else room - 1, later)
    requires at == (if trackers[0] in known then [] else [0]) + Later(later)
    ensures Picks(trackers, known, room, at)
  {
    hide InOrder, LeavesOnlyRest;
    OrderGrows(trackers, known, later, at);
    RestStaysLeft(trackers, known, room, later, at);
  }

  lemma OrderGrows(trackers: seq<Bytes>, known: set<Bytes>, later: seq<nat>, at: seq<nat>)
    requires trackers != [] && InOrder(trackers[1..], known + {trackers[0]}, later)
    requires at == (if trackers[0] in known then [] else [0]) + Later(later)
    ensures InOrder(trackers, known, at)
  {
    hide NewAt;
    var shift := if trackers[0] in known then 0 else 1;
    NewInRest(trackers, known, 0);
    forall k | shift <= k < |at| ensures NewAt(trackers, known, at[k]) && at[k] == later[k - shift] + 1 {
      NewInRest(trackers, known, later[k - shift]);
    }
  }

  lemma RestStaysLeft(trackers: seq<Bytes>, known: set<Bytes>, room: nat, later: seq<nat>, at: seq<nat>)
    requires trackers != [] && room > 0
    requires LeavesOnlyRest(trackers[1..], known + {trackers[0]}, if trackers[0] in known then room else room - 1,
                            later)
    requires at == (if trackers[0] in known then [] else [0]) + Later(later)
    ensures LeavesOnlyRest(trackers, known, room, at)
  {
    hide NewAt;
    var shift := if trackers[0] in known then 0 else 1;
    NewInRest(trackers, known, 0);
    assert shift == 1 ==> at[0] == 0;
    forall i | NewAt(trackers, known, i) && i !in at ensures |at| == room && (at != [] ==> at[|at| - 1] < i) {
      PlaceExists(trackers, known, i);
      if i > 0 {
        NewInRest(trackers, known, i - 1);
        ShiftedPlace(later, at, shift, i - 1);
        assert at[|at| - 1] == if later == [] then 0 else later[|later| - 1] + 1;
      }
    }
  }

  lemma ShiftedPlace(later: seq<nat>, at: seq<nat>, shift: nat, i: nat)
    requires at == (if shift == 0 then [] else [0]) + Later(later) && shift <= 1
    ensures i in later ==> i + 1 in at
  {
    if i in later {
      var k :| 0 <= k < |later| && later[k] == i;
      assert at[shift + k] == i + 1;
    }
  }

  lemma PlaceExists(trackers: seq<Bytes>, known: set<Bytes>, i: int)
    requires NewAt(trackers, known, i)
    ensures 0 <= i < |trackers|
  {
  }

  // ---- What the merge looks at ----

  lemma ShapeFits(root: Fields)
    ensures CachedTiers(root).Some? <==> Shaped(root)
  {
    hide Lookup;
    forall v: Value ensures TierOf(v).Some? <==> IsTier(v) { }
    hide TierOf, IsTier;
  }

  lemma TiersAreListed(root: Fields, tiers: seq<seq<Bytes>>)
    requires CachedTiers(root) == Some(tiers)
    ensures Lookup(root, ANNOUNCE_LIST) == None ==> tiers == []
    ensures Lookup(root, ANNOUNCE_LIST).Some? ==>
      Lookup(root, ANNOUNCE_LIST).value.List? && |Lookup(root, ANNOUNCE_LIST).value.items| == |tiers| &&
      forall i :: 0 <= i < |tiers| ==> Lookup(root, ANNOUNCE_LIST).value.items[i] == TierValue(tiers[i])
  {
    hide Lookup, TierValue;
    if Lookup(root, ANNOUNCE_LIST).Some? {
      var items := Lookup(root, ANNOUNCE_LIST).value.items;
      forall i | 0 <= i < |items| ensures items[i] == TierValue(tiers[i]) { TierIsCanonical(items[i]); }
    }
  }

  lemma MemberOfTier(tier: seq<Bytes>, url: Bytes)
    ensures TierValue(tier).List? && (Str(url) in TierValue(tier).items <==> url in tier)
  {
    var items := TierValue(tier).items;
    forall i | 0 <= i < |tier| ensures items[i] == Str(tier[i]) { }
  }

  lemma AnnouncedIs(root: Fields, url: Bytes)
    ensures Announce(root) == Some(url) <==> Announced(root, url)
  {
  }

  lemma KnownIsSeen(root: Fields, url: Bytes)
    requires CachedTiers(root).Some?
    ensures url in Trackers(CachedTiers(root).value, Announce(root)) <==> Known(root, url)
  {
    hide Lookup, CachedTiers, Announce, Announced, TierValue;
    var tiers := CachedTiers(root).value;
    AnnouncedIs(root, url);
    TiersAreListed(root, tiers);
    forall i | 0 <= i < |tiers|
      ensures TierValue(tiers[i]).List? && (Str(url) in TierValue(tiers[i]).items <==> url in tiers[i])
    {
      MemberOfTier(tiers[i], url);
    }
  }

  lemma StartIsBefore(root: Fields)
    requires CachedTiers(root).Some?
    ensures TiersValue(StartingTiers(CachedTiers(root).value, Announce(root))) == List(TiersBefore(root))
  {
    hide Lookup, CachedTiers, TierValue;
    var tiers := CachedTiers(root).value;
    TiersAreListed(root, tiers);
    if tiers == [] && Announce(root).Some? {
      OneTierValue(Announce(root).value);
      var announced: Option<Value> := Lookup(root, ANNOUNCE);
      assert announced.value == Str(Announce(root).value);
      assert TiersValue([[Announce(root).value]]).items == [TierValue([Announce(root).value])];
    } else if tiers != [] {
      assert TiersValue(tiers).items == Lookup(root, ANNOUNCE_LIST).value.items;
    }
  }

  lemma OneTierValue(url: Bytes)
    ensures TierValue([url]) == List([Str(url)])
  {
    assert TierValue([url]).items == [Str(url)];
  }

  /** Each added tracker makes up a tier of its own, behind the tiers there were. */
  function TiersAfter(root: Fields, trackers: seq<Bytes>, at: seq<nat>): seq<Value>
    requires forall k :: 0 <= k < |at| ==> at[k] < |trackers|
  {
    TiersBefore(root) + seq(|at|, k requires 0 <= k < |at| => List([Str(trackers[at[k]])]))
  }

  lemma TiersJoin(tiers: seq<seq<Bytes>>, added: seq<Bytes>, before: seq<Value>)
    requires TiersValue(tiers) == List(before)
    ensures TiersValue(tiers + Singles(added)) ==
            List(before + seq(|added|, k requires 0 <= k < |added| => List([Str(added[k])])))
  {
    hide TierValue;
    var all := tiers + Singles(added);
    forall k | 0 <= k < |added| ensures TierValue(all[|tiers| + k]) == List([Str(added[k])]) {
      assert all[|tiers| + k] == [added[k]];
      OneTierValue(added[k]);
    }
    forall i | 0 <= i < |tiers| ensures TierValue(all[i]) == before[i] { assert all[i] == tiers[i]; }
    assert TiersValue(all).items ==
           before + seq(|added|, k requires 0 <= k < |added| => List([Str(added[k])]));
  }

  // ---- What the merge does ----

  ghost predicate KnownAre(root: Fields, known: set<Bytes>) {
    forall url :: url in known <==> Known(root, url)
  }

  /** Under the announce pair stands what the places say, everything else is kept, and the keys are in order. */
  ghost predicate Grown(root: Fields, trackers: seq<Bytes>, after: Fields, at: seq<nat>) {
    && at != [] && (forall k :: 0 <= k < |at| ==> at[k] < |trackers|)
    && Increasing(after)
    && (forall key | key != ANNOUNCE && key != ANNOUNCE_LIST :: Lookup(after, key) == Lookup(root, key))
    && Lookup(after, ANNOUNCE_LIST) == Some(List(TiersAfter(root, trackers, at)))
    && Lookup(after, ANNOUNCE) == (if exists url :: Announced(root, url) then Lookup(root, ANNOUNCE)
                                   else Some(Str(trackers[at[0]])))
  }

  /**
   Fields of another shape are refused; nothing changes when the magnet names no tracker that is not known;
   and otherwise the first 64 new trackers in the magnet's order each become a tier behind the old ones.
   */
  lemma MergeMeans(root: Fields, trackers: seq<Bytes>)
    requires Increasing(root)
    ensures Merge(root, trackers).Malformed? <==> trackers != [] && !Shaped(root)
    ensures Merge(root, trackers).Unchanged? <==>
      trackers == [] || (Shaped(root) && forall t | t in trackers :: Known(root, t))
    ensures Merge(root, trackers).Changed? ==>
      exists known, at :: KnownAre(root, known) && Picks(trackers, known, 64, at) &&
                          Grown(root, trackers, Merge(root, trackers).root, at)
  {
    hide Lookup, CachedTiers, Announce, Trackers, NewTrackers, MergedRoot, Shaped, Known, Increasing;
    ShapeFits(root);
    if trackers != [] && CachedTiers(root).Some? {
      var seen := Trackers(CachedTiers(root).value, Announce(root));
      forall url ensures url in seen <==> Known(root, url) { KnownIsSeen(root, url); }
      NothingNew(trackers, seen, MAX_ADDED);
      if Merge(root, trackers).Changed? {
        var at := NewTrackersArePicked(trackers, seen, MAX_ADDED);
        assert KnownAre(root, seen);
        RootGrows(root, trackers, seen, at);
        assert Picks(trackers, seen, 64, at);
      }
    }
  }

  lemma RootGrows(root: Fields, trackers: seq<Bytes>, seen: set<Bytes>, at: seq<nat>)
    requires Increasing(root) && CachedTiers(root).Some? && Picks(trackers, seen, 64, at)
    requires seen == Trackers(CachedTiers(root).value, Announce(root)) && Merge(root, trackers).Changed?
    requires NewTrackers(trackers, seen, MAX_ADDED) == Picked(trackers, at)
    ensures Grown(root, trackers, Merge(root, trackers).root, at)
  {
    hide Lookup, CachedTiers, Announce, Trackers, NewTrackers, MergedRoot, Announced, Increasing, LeavesOnlyRest,
      TiersValue, Singles, StartingTiers, TiersBefore;
    var tiers, announce := CachedTiers(root).value, Announce(root);
    var added := Picked(trackers, at);
    MergedFields(root, tiers, announce, added);
    StartIsBefore(root);
    TiersJoin(StartingTiers(tiers, announce), added, TiersBefore(root));
    assert seq(|added|, k requires 0 <= k < |added| => List([Str(added[k])])) ==
           seq(|at|, k requires 0 <= k < |at| => List([Str(trackers[at[k]])]));
    forall url ensures announce == Some(url) <==> Announced(root, url) { AnnouncedIs(root, url); }
  }

  /** What is returned is the torrent itself, or the encoded dictionary unless that takes more than 16 MiB. */
  lemma MergedBytesAre(torrent: Bytes, root: Fields, trackers: seq<Bytes>)
    ensures MergedBytes(torrent, root, trackers) ==
      match Merge(root, trackers) {
        case Unchanged => Some(torrent)
        case Malformed => None
        case Changed(after) => if |Encode(Dict(after))| <= 16777216 then Some(Encode(Dict(after))) else None
      }
    ensures ANNOUNCE == SafePaths.Ascii("announce") && ANNOUNCE_LIST == SafePaths.Ascii("announce-list")
  {
    hide Merge, EncodeFields;
  }
}
