/**
 `merge_magnet_trackers`: adding a magnet's trackers to cached torrent bytes.
 The URL checks of `_magnet_tracker` have been made, and SHA-1 is any function.
 */
module TrackerMerge {
  import opened Options
  import opened Bencode
  import opened Decoding
  import opened KeyedFields
  import opened TorrentMetadata

  const ANNOUNCE: Bytes := [97, 110, 110, 111, 117, 110, 99, 101]                                // announce
  const ANNOUNCE_LIST: Bytes := [97, 110, 110, 111, 117, 110, 99, 101, 45, 108, 105, 115, 116]   // announce-list
  const MAX_ADDED := 64

  type Fields = seq<Field<Value>>

  // ---- The trackers a torrent has ----

  function TierOf(v: Value): Option<seq<Bytes>> {
    if v.List? && forall i :: 0 <= i < |v.items| ==> v.items[i].Str? then
      Some(seq(|v.items|, i requires 0 <= i < |v.items| => v.items[i].bytes))
    else None
  }

  function TiersOf(items: seq<Value>): Option<seq<seq<Bytes>>> {
    if forall i :: 0 <= i < |items| ==> TierOf(items[i]).Some? then
      Some(seq(|items|, i requires 0 <= i < |items| => TierOf(items[i]).value))
    else None
  }

  /** The announce URL, when there is one and it is not empty. */
  function Announce(root: Fields): Option<Bytes> {
    match BytesIn(Lookup(root, ANNOUNCE))
    case Some(url) => if url == [] then None else Some(url)
    case None => None
  }

  /** None when a cached announce field is not of the shape BEP 12 gives it. */
  function CachedTiers(root: Fields): Option<seq<seq<Bytes>>> {
    if Lookup(root, ANNOUNCE).Some? && BytesIn(Lookup(root, ANNOUNCE)).None? then None
    else if Lookup(root, ANNOUNCE_LIST).None? then Some([])
    else
      match ItemsIn(Lookup(root, ANNOUNCE_LIST))
      case Some(items) => TiersOf(items)
      case None => None
  }

  /** Without any tier the announce URL makes up the first one. */
  function StartingTiers(tiers: seq<seq<Bytes>>, announce: Option<Bytes>): seq<seq<Bytes>> {
    if tiers == [] && announce.Some? then [[announce.value]] else tiers
  }

  function TierMembers(tiers: seq<seq<Bytes>>): set<Bytes> {
    set i, t | 0 <= i < |tiers| && t in tiers[i] :: t
  }

  function Trackers(tiers: seq<seq<Bytes>>, announce: Option<Bytes>): set<Bytes> {
    TierMembers(tiers) + if announce.Some? then {announce.value} else {}
  }

  /** The first `room` trackers of the magnet that are not there yet, each once. */
  function NewTrackers(trackers: seq<Bytes>, seen: set<Bytes>, room: nat): seq<Bytes> {
    if trackers == [] || room == 0 then []
    else if trackers[0] in seen then NewTrackers(trackers[1..], seen, room)
    else [trackers[0]] + NewTrackers(trackers[1..], seen + {trackers[0]}, room - 1)
  }

  function Singles(trackers: seq<Bytes>): seq<seq<Bytes>> {
    seq(|trackers|, i requires 0 <= i < |trackers| => [trackers[i]])
  }

  function TierValue(tier: seq<Bytes>): Value {
    List(seq(|tier|, i requires 0 <= i < |tier| => Str(tier[i])))
  }

  function TiersValue(tiers: seq<seq<Bytes>>): Value {
    List(seq(|tiers|, i requires 0 <= i < |tiers| => TierValue(tiers[i])))
  }

  // ---- The merge ----

  datatype Outcome = Unchanged | Changed(root: Fields) | Malformed

  function MergedRoot(root: Fields, tiers: seq<seq<Bytes>>, announce: Option<Bytes>, added: seq<Bytes>): Fields
    requires added != []
  {
    var announced := if announce.None? then Put(root, ANNOUNCE, Str(added[0])) else root;
    SortByKey(Put(announced, ANNOUNCE_LIST, TiersValue(StartingTiers(tiers, announce) + Singles(added))))
  }

  function Merge(root: Fields, trackers: seq<Bytes>): Outcome {
    if trackers == [] then Unchanged
    else
      match CachedTiers(root)
      case None => Malformed
      case Some(tiers) =>
        var added := NewTrackers(trackers, Trackers(tiers, Announce(root)), MAX_ADDED);
        if added == [] then Unchanged else Changed(MergedRoot(root, tiers, Announce(root), added))
  }

  /** What the function returns for a torrent it can read and a magnet with that infohash. */
  function MergedBytes(torrent: Bytes, root: Fields, trackers: seq<Bytes>): Option<Bytes> {
    match Merge(root, trackers)
    case Unchanged => Some(torrent)
    case Malformed => None
    case Changed(after) => if |EncodeRoot(after)| <= MAX_SIZE then Some(EncodeRoot(after)) else None
  }

  // ---- Which trackers are new ----

  lemma {:induction false} AddedHaveRoom(trackers: seq<Bytes>, seen: set<Bytes>, room: nat)
    ensures |NewTrackers(trackers, seen, room)| <= room
  {
    if trackers != [] && room > 0 {
      if trackers[0] in seen {
        AddedHaveRoom(trackers[1..], seen, room);
      } else {
        AddedHaveRoom(trackers[1..], seen + {trackers[0]}, room - 1);
      }
    }
  }

  lemma {:induction false} AddedWereUnseen(trackers: seq<Bytes>, seen: set<Bytes>, room: nat, t: Bytes)
    requires t in NewTrackers(trackers, seen, room)
    ensures t in trackers && t !in seen
  {
    var first, rest := trackers[0], trackers[1..];
    if first in seen {
      AddedWereUnseen(rest, seen, room, t);
      assert t in rest;
    } else if t != first {
      assert t in NewTrackers(rest, seen + {first}, room - 1);
      AddedWereUnseen(rest, seen + {first}, room - 1, t);
      assert t in rest;
    }
  }

  lemma {:induction false} AddedDiffer(trackers: seq<Bytes>, seen: set<Bytes>, room: nat, i: nat, j: nat)
    requires i < j < |NewTrackers(trackers, seen, room)|
    ensures NewTrackers(trackers, seen, room)[i] != NewTrackers(trackers, seen, room)[j]
  {
    var first, rest := trackers[0], trackers[1..];
    if first in seen {
      AddedDiffer(rest, seen, room, i, j);
    } else {
      var later := NewTrackers(rest, seen + {first}, room - 1);
      assert NewTrackers(trackers, seen, room) == [first] + later;
      if i > 0 {
        AddedDiffer(rest, seen + {first}, room - 1, i - 1, j - 1);
      } else {
        assert later[j - 1] in later;
        AddedWereUnseen(rest, seen + {first}, room - 1, later[j - 1]);
      }
    }
  }

  lemma {:induction false} NoneIsLeftOut(trackers: seq<Bytes>, seen: set<Bytes>, room: nat, t: Bytes)
    requires |NewTrackers(trackers, seen, room)| < room && t in trackers
    ensures t in seen || t in NewTrackers(trackers, seen, room)
  {
    var first, rest := trackers[0], trackers[1..];
    if first in seen {
      if t != first {
        NoneIsLeftOut(rest, seen, room, t);
      }
    } else {
      var later := NewTrackers(rest, seen + {first}, room - 1);
      assert NewTrackers(trackers, seen, room) == [first] + later;
      if t != first {
        NoneIsLeftOut(rest, seen + {first}, room - 1, t);
      }
    }
  }

  lemma {:induction false} NewTrackersAreNew(trackers: seq<Bytes>, seen: set<Bytes>, room: nat)
    ensures var added := NewTrackers(trackers, seen, room);
      && |added| <= room
      && (forall t | t in added :: t in trackers && t !in seen)
      && (forall i, j | 0 <= i < j < |added| :: added[i] != added[j])
      && (|added| < room ==> forall t | t in trackers :: t in seen || t in added)
  {
    hide NewTrackers;
    var added := NewTrackers(trackers, seen, room);
    AddedHaveRoom(trackers, seen, room);
    forall t | t in added ensures t in trackers && t !in seen {
      AddedWereUnseen(trackers, seen, room, t);
    }
    forall i, j | 0 <= i < j < |added| ensures added[i] != added[j] {
      AddedDiffer(trackers, seen, room, i, j);
    }
    forall t | t in trackers && |added| < room ensures t in seen || t in added {
      NoneIsLeftOut(trackers, seen, room, t);
    }
  }

  lemma {:induction false} NothingNew(trackers: seq<Bytes>, seen: set<Bytes>, room: nat)
    requires room > 0
    ensures NewTrackers(trackers, seen, room) == [] <==> forall t | t in trackers :: t in seen
  {
    if trackers != [] {
      if trackers[0] in seen { NothingNew(trackers[1..], seen, room); }
      assert trackers[0] in trackers;
      assert forall t | t in trackers :: t == trackers[0] || t in trackers[1..];
    }
  }

  /** Everything the magnet could add, without the limit. */
  function AllNew(trackers: seq<Bytes>, seen: set<Bytes>): set<Bytes> {
    (set t | t in trackers) - seen
  }

  lemma AllNewOfFirst(trackers: seq<Bytes>, seen: set<Bytes>)
    requires trackers != []
    ensures var t, rest := trackers[0], trackers[1..];
      if t in seen then AllNew(trackers, seen) == AllNew(rest, seen)
      else t !in AllNew(rest, seen + {t}) && AllNew(trackers, seen) == AllNew(rest, seen + {t}) + {t}
  {
    var t, rest := trackers[0], trackers[1..];
    assert t in trackers && forall u | u in trackers :: u == t || u in rest;
    if t in seen {
      assert AllNew(trackers, seen) == AllNew(rest, seen);
    } else {
      assert AllNew(trackers, seen) == AllNew(rest, seen + {t}) + {t};
    }
  }

  lemma NothingToAdd(seen: set<Bytes>)
    ensures AllNew([], seen) == {}
  {
  }

  lemma CountOfFirst(trackers: seq<Bytes>, seen: set<Bytes>, room: nat)
    requires trackers != [] && room > 0
    ensures var t, rest := trackers[0], trackers[1..];
      |NewTrackers(trackers, seen, room)| ==
      if t in seen then |NewTrackers(rest, seen, room)| else 1 + |NewTrackers(rest, seen + {t}, room - 1)|
  {
  }

  lemma {:induction false} LimitReached(trackers: seq<Bytes>, seen: set<Bytes>, room: nat)
    ensures |NewTrackers(trackers, seen, room)| ==
            if |AllNew(trackers, seen)| <= room then |AllNew(trackers, seen)| else room
  {
    hide AllNew, NewTrackers;
    if trackers == [] || room == 0 {
      NoTrackerLeft(trackers, seen, room);
      NothingToAdd(seen);
    } else {
      AllNewOfFirst(trackers, seen);
      CountOfFirst(trackers, seen, room);
      if trackers[0] in seen {
        LimitReached(trackers[1..], seen, room);
      } else {
        LimitReached(trackers[1..], seen + {trackers[0]}, room - 1);
      }
    }
  }

  // ---- What the merged dictionary holds ----

  lemma MergedFields(root: Fields, tiers: seq<seq<Bytes>>, announce: Option<Bytes>, added: seq<Bytes>)
    requires Increasing(root) && added != []
    ensures var after := MergedRoot(root, tiers, announce, added);
      && Increasing(after)
      && (forall q :: Lookup(after, q) ==
            if q == ANNOUNCE_LIST then Some(TiersValue(StartingTiers(tiers, announce) + Singles(added)))
            else if q == ANNOUNCE && announce.None? then Some(Str(added[0]))
            else Lookup(root, q))
      && (forall f | f in after ::
            f in root || f == Field(ANNOUNCE, Str(added[0])) ||
            f == Field(ANNOUNCE_LIST, TiersValue(StartingTiers(tiers, announce) + Singles(added))))
  {
    hide Encode, Lookup, Put, SortByKey, Singles, StartingTiers, TiersValue, Increasing, DistinctKeys;
    IncreasingKeysDiffer(root);
    PutAssigns(root, ANNOUNCE, Str(added[0]));
    var announced := if announce.None? then Put(root, ANNOUNCE, Str(added[0])) else root;
    var value := TiersValue(StartingTiers(tiers, announce) + Singles(added));
    PutAssigns(announced, ANNOUNCE_LIST, value);
    var both := Put(announced, ANNOUNCE_LIST, value);
    SortingOnlyOrders(both);
    SameMembers(SortByKey(both), both);
  }

  lemma TiersReadBack(tiers: seq<seq<Bytes>>)
    ensures ItemsIn(Some(TiersValue(tiers))) == Some(TiersValue(tiers).items)
    ensures TiersOf(TiersValue(tiers).items) == Some(tiers)
  {
    var items := TiersValue(tiers).items;
    forall i | 0 <= i < |tiers| ensures TierOf(items[i]) == Some(tiers[i]) {
      assert TierOf(TierValue(tiers[i])).value == tiers[i];
    }
    assert TiersOf(items).value == tiers;
  }

  lemma MembersGrow(tiers: seq<seq<Bytes>>, added: seq<Bytes>)
    ensures TierMembers(tiers + Singles(added)) == TierMembers(tiers) + set t | t in added
  {
    var all := tiers + Singles(added);
    forall t | t in TierMembers(tiers) ensures t in TierMembers(all) {
      var i :| 0 <= i < |tiers| && t in tiers[i];
      assert all[i] == tiers[i];
    }
    forall t | t in added ensures t in TierMembers(all) {
      var i :| 0 <= i < |added| && added[i] == t;
      assert all[|tiers| + i] == [added[i]] && t in all[|tiers| + i];
    }
  }

  /** No cached tracker is lost, and exactly the new ones are added behind them. */
  lemma MergedTrackers(root: Fields, trackers: seq<Bytes>, after: Fields)
    requires Increasing(root) && (forall t | t in trackers :: t != []) && Merge(root, trackers) == Changed(after)
    ensures CachedTiers(root).Some? && CachedTiers(after).Some?
    ensures var tiers, announce := CachedTiers(root).value, Announce(root);
      var added := NewTrackers(trackers, Trackers(tiers, announce), MAX_ADDED);
      && CachedTiers(after).value == StartingTiers(tiers, announce) + Singles(added)
      && Announce(after) == Some(if announce.Some? then announce.value else added[0])
      && Trackers(CachedTiers(after).value, Announce(after)) == Trackers(tiers, announce) + set t | t in added
  {
    hide Lookup, Increasing, TiersOf, TiersValue, TierMembers, Singles, SortByKey, Put, NewTrackers;
    var tiers, announce := CachedTiers(root).value, Announce(root);
    var seen := Trackers(tiers, announce);
    var added := NewTrackers(trackers, seen, MAX_ADDED);
    NewTrackersAreNew(trackers, seen, MAX_ADDED);
    MergedFields(root, tiers, announce, added);
    TiersReadBack(StartingTiers(tiers, announce) + Singles(added));
    MembersGrow(StartingTiers(tiers, announce), added);
    assert added[0] in added;
    if tiers == [] && announce.Some? { OneTier(announce.value); }
  }

  lemma OneTier(url: Bytes)
    ensures TierMembers([[url]]) == {url} && TierMembers([]) == {}
  {
    assert url in [[url]][0];
  }

  /** Every root field but the two announce fields stays as it was, byte for byte. */
  lemma OtherFieldsAreVerbatim(root: Fields, trackers: seq<Bytes>, after: Fields, key: Bytes)
    requires Increasing(root) && Merge(root, trackers) == Changed(after) && key !in {ANNOUNCE, ANNOUNCE_LIST}
    ensures Lookup(after, key) == Lookup(root, key)
  {
    hide Lookup, Increasing, SortByKey, Put;
    var tiers := CachedTiers(root).value;
    MergedFields(root, tiers, Announce(root), NewTrackers(trackers, Trackers(tiers, Announce(root)), MAX_ADDED));
  }

  lemma {:induction false} DistinctCount(s: seq<Bytes>)
    requires forall i, j | 0 <= i < j < |s| :: s[i] != s[j]
    ensures |set t | t in s| == |s|
  {
    if s != [] {
      DistinctCount(s[1..]);
      assert (set t | t in s) == (set t | t in s[1..]) + {s[0]};
    }
  }

  /** Nothing is left to add to a merged root exactly when the magnet added no more than the limit. */
  lemma NothingLeftToAdd(root: Fields, trackers: seq<Bytes>, after: Fields)
    requires Increasing(root) && (forall t | t in trackers :: t != []) && Merge(root, trackers) == Changed(after)
    ensures CachedTiers(root).Some?
    ensures Merge(after, trackers) == Unchanged <==>
      |AllNew(trackers, Trackers(CachedTiers(root).value, Announce(root)))| <= MAX_ADDED
  {
    hide Increasing, TierMembers, MergedRoot, CachedTiers, Announce, Trackers;
    MergedTrackers(root, trackers, after);
    var seen := Trackers(CachedTiers(root).value, Announce(root));
    var added := NewTrackers(trackers, seen, MAX_ADDED);
    hide NewTrackers;
    NewTrackersAreNew(trackers, seen, MAX_ADDED);
    LimitReached(trackers, seen, MAX_ADDED);
    var news, all := (set t | t in added), AllNew(trackers, seen);
    DistinctCount(added);
    NothingNew(trackers, seen + news, MAX_ADDED);
    SubsetOfSameSize(news, all);
  }

  lemma {:induction false} SubsetOfSameSize<T>(s: set<T>, t: set<T>)
    requires s <= t
    ensures |s| <= |t| && (|s| == |t| <==> s == t)
  {
    assert t == s + (t - s);
  }

  // ---- When the merged bytes can be read again ----

  lemma {:induction false} ItemIsPart(items: seq<Value>, i: nat)
    requires i < |items|
    ensures |Encode(items[i])| <= |EncodeItems(items)|
  {
    hide Encode;
    if i > 0 { ItemIsPart(items[1..], i - 1); }
  }

  lemma {:induction false} FieldIsPart(fields: Fields, i: nat)
    requires i < |fields|
    ensures |Encode(fields[i].value)| <= |EncodeFields(fields)|
  {
    hide Encode;
    if i > 0 { FieldIsPart(fields[1..], i - 1); }
  }

  function PowerOfTen(k: nat): nat {
    if k == 0 then 1 else 10 * PowerOfTen(k - 1)
  }

  lemma {:induction false} NumeralLength(n: nat, k: nat)
    requires n < PowerOfTen(k) && k > 0
    ensures |Numeral(n)| <= k
  {
    if n >= 10 { NumeralLength(n / 10, k - 1); }
  }

  lemma ShortStringFits(s: Bytes)
    requires |s| <= MAX_SIZE
    ensures StringFits(s)
  {
    assert PowerOfTen(8) == 100000000 by {
      assert PowerOfTen(4) == 10000;
      assert PowerOfTen(6) == 1000000;
    }
    NumeralLength(|s|, 8);
  }

  lemma TierIsCanonical(v: Value)
    requires TierOf(v).Some?
    ensures v == TierValue(TierOf(v).value)
  {
    assert v.items == TierValue(TierOf(v).value).items;
  }

  lemma FieldOf(root: Fields, key: Bytes)
    requires FieldsFit(root, 1) && Lookup(root, key).Some?
    ensures Fits(Lookup(root, key).value, 1)
  {
    hide Fits, Lookup, Increasing;
    LookupFinds(root, key);
    var i :| 0 <= i < |root| && root[i] == Field(key, Lookup(root, key).value);
  }

  lemma SingleFits(url: Bytes)
    requires StringFits(url)
    ensures Fits(TierValue([url]), 2)
  {
    assert Fits(Str(url), 3);
  }

  /** The tiers a merge starts from fit, since they were read. */
  lemma StartFits(root: Fields, i: nat)
    requires FieldsFit(root, 1) && CachedTiers(root).Some?
    requires i < |StartingTiers(CachedTiers(root).value, Announce(root))|
    ensures Fits(TierValue(StartingTiers(CachedTiers(root).value, Announce(root))[i]), 2)
  {
    var tiers := CachedTiers(root).value;
    if tiers == [] {
      FieldOf(root, ANNOUNCE);
      SingleFits(Announce(root).value);
    } else {
      FieldOf(root, ANNOUNCE_LIST);
      var items := Lookup(root, ANNOUNCE_LIST).value.items;
      TierIsCanonical(items[i]);
      assert Fits(items[i], 2);
    }
  }

  /** A new tracker's own length is bounded by that of the bytes it is part of. */
  lemma AddedFits(after: Fields, tiers: seq<seq<Bytes>>, i: nat, url: Bytes)
    requires |EncodeRoot(after)| <= MAX_SIZE && Lookup(after, ANNOUNCE_LIST) == Some(TiersValue(tiers))
    requires i < |tiers| && tiers[i] == [url]
    ensures StringFits(url)
  {
    hide Lookup, EncodeItems, EncodeFields, Numeral, StringFits;
    LookupFinds(after, ANNOUNCE_LIST);
    var k :| 0 <= k < |after| && after[k] == Field(ANNOUNCE_LIST, TiersValue(tiers));
    FieldIsPart(after, k);
    ItemIsPart(TiersValue(tiers).items, i);
    ItemIsPart(TierValue([url]).items, 0);
    assert Encode(Str(url)) == EncodeString(url);
    assert |Encode(TierValue([url]))| >= |EncodeString(url)|;
    assert |Encode(TiersValue(tiers))| >= |Encode(TierValue([url]))|;
    ShortStringFits(url);
  }

  lemma TiersFit(tiers: seq<seq<Bytes>>)
    requires |tiers| <= MAX_ENTRIES && forall i | 0 <= i < |tiers| :: Fits(TierValue(tiers[i]), 2)
    ensures Fits(TiersValue(tiers), 1)
  {
  }

  /** The tiers of the merged dictionary. */
  function MergedTiers(root: Fields, trackers: seq<Bytes>): seq<seq<Bytes>>
    requires CachedTiers(root).Some?
  {
    var tiers, announce := CachedTiers(root).value, Announce(root);
    StartingTiers(tiers, announce) + Singles(NewTrackers(trackers, Trackers(tiers, announce), MAX_ADDED))
  }

  lemma MergedTiersFit(root: Fields, trackers: seq<Bytes>, after: Fields)
    requires FieldsFit(root, 1) && CachedTiers(root).Some? && |EncodeRoot(after)| <= MAX_SIZE
    requires Lookup(after, ANNOUNCE_LIST) == Some(TiersValue(MergedTiers(root, trackers)))
    ensures forall i | 0 <= i < |MergedTiers(root, trackers)| :: Fits(TierValue(MergedTiers(root, trackers)[i]), 2)
    ensures forall t | t in NewTrackers(trackers, Trackers(CachedTiers(root).value, Announce(root)), MAX_ADDED) ::
              StringFits(t)
  {
    hide Lookup, Fits, CachedTiers, Announce, EncodeRoot, FieldsFit, TierValue, TiersValue, NewTrackers, Trackers,
      StringFits;
    var start := StartingTiers(CachedTiers(root).value, Announce(root));
    var added := NewTrackers(trackers, Trackers(CachedTiers(root).value, Announce(root)), MAX_ADDED);
    var tiers := MergedTiers(root, trackers);
    forall i | 0 <= i < |added| ensures StringFits(added[i]) && Fits(TierValue([added[i]]), 2) {
      assert tiers[|start| + i] == [added[i]];
      AddedFits(after, tiers, |start| + i, added[i]);
      SingleFits(added[i]);
    }
    forall i | 0 <= i < |tiers| ensures Fits(TierValue(tiers[i]), 2) {
      if i < |start| { StartFits(root, i); } else { assert tiers[i] == [added[i - |start|]]; }
    }
  }

  /** All fields of the merged dictionary keep the reader's limits, if its tiers are not too many. */
  lemma MergedFieldsFit(root: Fields, trackers: seq<Bytes>, after: Fields)
    requires FieldsFit(root, 1) && Merge(root, trackers) == Changed(after) && |EncodeRoot(after)| <= MAX_SIZE
    requires |MergedTiers(root, trackers)| <= MAX_ENTRIES
    ensures FieldsFit(after, 1)
  {
    hide Lookup, Fits, EncodeRoot, TierValue, TiersValue, NewTrackers, Trackers, Increasing, SortByKey, Put, Singles;
    var tiers, announce := CachedTiers(root).value, Announce(root);
    var added := NewTrackers(trackers, Trackers(tiers, announce), MAX_ADDED);
    MergedFields(root, tiers, announce, added);
    MergedTiersFit(root, trackers, after);
    TiersFit(MergedTiers(root, trackers));
    forall i | 0 <= i < |after| ensures Fits(Str(after[i].key), 1) && Fits(after[i].value, 1) {
      var f := after[i];
      assert f in after && added[0] in added;
      if f in root {
        var k :| 0 <= k < |root| && root[k] == f;
      } else {
        AnnounceKeysFit();
        StringFitsAs(added[0]);
      }
    }
  }

  lemma AnnounceKeysFit()
    ensures Fits(Str(ANNOUNCE), 1) && Fits(Str(ANNOUNCE_LIST), 1)
  {
    ShortStringFits(ANNOUNCE);
    ShortStringFits(ANNOUNCE_LIST);
  }

  lemma StringFitsAs(s: Bytes)
    requires StringFits(s)
    ensures Fits(Str(s), 1)
  {
  }

  /**
   The merged bytes describe the same torrent, info dictionary and files included, exactly when
   cached and added tiers together stay within the reader's list limit; otherwise they are no torrent.
   */
  lemma MergedIsReadAgain(torrent: Bytes, root: Fields, t: Inspected, trackers: seq<Bytes>, after: Fields)
    requires IsTorrent(torrent, root, t) && Merge(root, trackers) == Changed(after) && |EncodeRoot(after)| <= MAX_SIZE
    ensures CachedTiers(root).Some?
    ensures |MergedTiers(root, trackers)| <= MAX_ENTRIES ==>
      IsTorrent(EncodeRoot(after), after, Inspected(t.hashed, EncodeRoot(after), t.files))
    ensures |MergedTiers(root, trackers)| > MAX_ENTRIES ==>
      forall r, s :: !IsTorrent(EncodeRoot(after), r, s)
  {
    hide Lookup, EncodeRoot, FieldsFit, InfoFiles, Encode, SortByKey, Put, NewTrackers, Trackers, Singles, TiersValue;
    RootIncreases(root);
    var tiers, announce := CachedTiers(root).value, Announce(root);
    MergedFields(root, tiers, announce, NewTrackers(trackers, Trackers(tiers, announce), MAX_ADDED));
    if |MergedTiers(root, trackers)| <= MAX_ENTRIES {
      MergedFieldsFit(root, trackers, after);
      OtherFieldsAreVerbatim(root, trackers, after, INFO);
    } else {
      forall r, s ensures !IsTorrent(EncodeRoot(after), r, s) {
        if IsTorrent(EncodeRoot(after), r, s) {
          RootIsUnique(r, after);
          FieldOf(after, ANNOUNCE_LIST);
          TooManyTiers(MergedTiers(root, trackers));
        }
      }
    }
  }

  /** A merge that adds a tracker does not give back the dictionary it was given. */
  lemma ChangedDiffers(root: Fields, trackers: seq<Bytes>, after: Fields)
    requires Increasing(root) && (forall t | t in trackers :: t != []) && Merge(root, trackers) == Changed(after)
    ensures after != root
  {
    MergedTrackers(root, trackers, after);
    var seen := Trackers(CachedTiers(root).value, Announce(root));
    NewTrackersAreNew(trackers, seen, MAX_ADDED);
    var added := NewTrackers(trackers, seen, MAX_ADDED);
    hide MergedRoot, NewTrackers, Trackers, CachedTiers, Announce;
    assert added[0] in added;
    assert added[0] in seen + set t | t in added;
  }

  /** A call with these bytes and a magnet of these trackers and this info dictionary returns the bytes it was given. */
  ghost predicate GivenBack(torrent: Bytes, hashed: Bytes, trackers: seq<Bytes>) {
    exists root, t ::
      IsTorrent(torrent, root, t) && t.hashed == hashed && MergedBytes(torrent, root, trackers) == Some(torrent)
  }

  lemma ReadAndGivenBack(torrent: Bytes, root: Fields, t: Inspected, trackers: seq<Bytes>)
    requires IsTorrent(torrent, root, t) && forall x | x in trackers :: x != []
    ensures GivenBack(torrent, t.hashed, trackers) <==> Merge(root, trackers) == Unchanged
  {
    hide IsTorrent, EncodeRoot, Merge;
    if Merge(root, trackers) == Unchanged {
      assert MergedBytes(torrent, root, trackers) == Some(torrent);
    } else if GivenBack(torrent, t.hashed, trackers) {
      var other, s :|
        IsTorrent(torrent, other, s) && s.hashed == t.hashed && MergedBytes(torrent, other, trackers) == Some(torrent);
      TorrentIsUnique(torrent, root, t, other, s);
      TorrentEncodesRoot(torrent, root, t);
      var after := Merge(root, trackers).root;
      RootIsUnique(after, root);
      ChangedDiffers(root, trackers, after);
      assert false;
    }
  }

  lemma TorrentEncodesRoot(torrent: Bytes, root: Fields, t: Inspected)
    requires IsTorrent(torrent, root, t)
    ensures torrent == EncodeRoot(root) && Increasing(root)
  {
  }

  /**
   Calling the function again on what it returned returns that once more, if and only if it returned
   its input, or the magnet added at most 64 trackers and all tiers number at most 8192.
   */
  lemma MergingAgainChangesNothing(torrent: Bytes, root: Fields, t: Inspected, trackers: seq<Bytes>, merged: Bytes)
    requires IsTorrent(torrent, root, t) && (forall x | x in trackers :: x != [])
    requires MergedBytes(torrent, root, trackers) == Some(merged)
    ensures Merge(root, trackers).Changed? ==> CachedTiers(root).Some?
    ensures GivenBack(merged, t.hashed, trackers) <==>
      (Merge(root, trackers).Changed? ==>
         && |AllNew(trackers, Trackers(CachedTiers(root).value, Announce(root)))| <= MAX_ADDED
         && |MergedTiers(root, trackers)| <= MAX_ENTRIES)
  {
    hide IsTorrent, EncodeRoot, MergedRoot, NewTrackers, Trackers, MergedTiers, AllNew;
    match Merge(root, trackers)
    case Unchanged => ReadAndGivenBack(torrent, root, t, trackers);
    case Changed(after) =>
      TorrentEncodesRoot(torrent, root, t);
      NothingLeftToAdd(root, trackers, after);
      MergedIsReadAgain(torrent, root, t, trackers, after);
      if |MergedTiers(root, trackers)| <= MAX_ENTRIES {
        ReadAndGivenBack(merged, after, Inspected(t.hashed, merged, t.files), trackers);
      }
  }

  lemma RootIncreases(root: Fields)
    requires FieldsFit(root, 1)
    ensures Increasing(root)
  {
  }

  lemma TooManyTiers(tiers: seq<seq<Bytes>>)
    requires |tiers| > MAX_ENTRIES
    ensures !Fits(TiersValue(tiers), 1)
  {
  }

  // ---- The function itself ----

  function JoinRaw(fields: seq<Field<Bytes>>): Bytes {
    if fields == [] then [] else EncodeString(fields[0].key) + fields[0].value + JoinRaw(fields[1..])
  }

  lemma {:induction false} JoinsToEncoding(fields: Fields)
    ensures JoinRaw(Raw(fields)) == EncodeFields(fields)
  {
    hide Encode, EncodeString;
    if fields != [] {
      assert Raw(fields)[1..] == Raw(fields[1..]);
      JoinsToEncoding(fields[1..]);
    }
  }

  lemma MergedRaw(root: Fields, tiers: seq<seq<Bytes>>, announce: Option<Bytes>, added: seq<Bytes>)
    requires added != []
    ensures var announced := if announce.None? then Put(Raw(root), ANNOUNCE, Encode(Str(added[0]))) else Raw(root);
      var value := Encode(TiersValue(StartingTiers(tiers, announce) + Singles(added)));
      SortByKey(Put(announced, ANNOUNCE_LIST, value)) == Raw(MergedRoot(root, tiers, announce, added))
  {
    hide Encode, Put, SortByKey, Raw, TiersValue, Singles, StartingTiers;
    PutRaw(root, ANNOUNCE, Str(added[0]));
    var announced := if announce.None? then Put(root, ANNOUNCE, Str(added[0])) else root;
    var value := TiersValue(StartingTiers(tiers, announce) + Singles(added));
    PutRaw(announced, ANNOUNCE_LIST, value);
    SortRaw(Put(announced, ANNOUNCE_LIST, value));
  }

  lemma ReadsNextField(data: Bytes, at: nat, n: nat, root: Fields, key: Option<Value>, middle: nat)
    requires IsRoot(data, root) && n <= |root| && Spans(EncodeFields(root[..n]), data, 1, at)
    requires !(at < |data| && data[at] == END) && Reads(data, at, 1, key, middle)
    ensures n < |root| && key == Some(Str(root[n].key))
    ensures Fits(root[n].value, 1) && StandsAt(Encode(root[n].value), data, middle)
  {
    hide EncodeFields, FieldsFit, Fits, Encode, Reads;
    RootStands(data, root);
    DictReadsOn(data, 1, at, root[..n], root, 1, key, middle);
  }

  /** Reads the root dictionary of bytes already inspected, keeping each value's own bytes. */
  method ReadRoot(torrent: Bytes, ghost root: Fields) returns (fields: Fields, encoded: seq<Field<Bytes>>)
    requires IsRoot(torrent, root)
    ensures fields == root && encoded == Raw(root)
  {
    hide Encode, EncodeFields, FieldsFit, Fits, Reads;
    RootStands(torrent, root);
    StartOfRoot(torrent);
    var decoder := new Decoder(torrent);
    decoder.offset := 1;
    fields, encoded := [], [];
    while !decoder.AtEnd()
      invariant decoder.data == torrent && 1 <= decoder.offset <= |torrent|
      invariant |fields| <= |root| && fields == root[..|fields|] && encoded == Raw(fields)
      invariant Spans(EncodeFields(fields), torrent, 1, decoder.offset)
      decreases |torrent| - decoder.offset
    {
      ghost var at := decoder.offset;
      var key := decoder.Parse(1);
      var start := decoder.offset;
      ReadsNextField(torrent, at, |fields|, root, key, start);
      ReadsAdvance(torrent, at, 1, key, start);
      var value := decoder.Parse(1);
      OnlyReading(torrent, start, 1, value, decoder.offset, root[|fields|].value);
      ReadsAdvance(torrent, start, 1, value, decoder.offset);
      ReadField(torrent, 1, at, start, decoder.offset, fields, key.value, value.value);
      var f := Field(key.value.bytes, value.value);
      AppendRaw(fields, f);
      fields := fields + [f];
      encoded := encoded + [Field(key.value.bytes, torrent[start..decoder.offset])];
    }
    DictGoesOn(torrent, 1, decoder.offset, fields, root);
  }

  lemma NextTracker(trackers: seq<Bytes>, i: nat, seen: set<Bytes>, room: nat)
    requires i < |trackers| && room > 0
    ensures NewTrackers(trackers[i..], seen, room) ==
            if trackers[i] in seen then NewTrackers(trackers[i + 1..], seen, room)
            else [trackers[i]] + NewTrackers(trackers[i + 1..], seen + {trackers[i]}, room - 1)
  {
    assert trackers[i..][1..] == trackers[i + 1..];
  }

  lemma NoTrackerLeft(trackers: seq<Bytes>, seen: set<Bytes>, room: nat)
    requires trackers == [] || room == 0
    ensures NewTrackers(trackers, seen, room) == []
  {
  }

  method SelectNew(trackers: seq<Bytes>, known: set<Bytes>) returns (added: seq<Bytes>)
    ensures added == NewTrackers(trackers, known, MAX_ADDED)
  {
    hide NewTrackers;
    var seen, i := known, 0;
    added := [];
    assert trackers[0..] == trackers;
    while i < |trackers| && |added| < MAX_ADDED
      invariant i <= |trackers| && |added| <= MAX_ADDED
      invariant NewTrackers(trackers, known, MAX_ADDED) == added + NewTrackers(trackers[i..], seen, MAX_ADDED - |added|)
    {
      NextTracker(trackers, i, seen, MAX_ADDED - |added|);
      if trackers[i] !in seen {
        seen := seen + {trackers[i]};
        added := added + [trackers[i]];
      }
      i := i + 1;
    }
    NoTrackerLeft(trackers[i..], seen, MAX_ADDED - |added|);
  }

  method MergeMagnetTrackers(torrent: Bytes, trackers: seq<Bytes>, infohash: Option<nat>, sha1: Bytes -> nat)
    returns (r: Option<Bytes>)
    requires forall t | t in trackers :: t != []
    ensures r.Some? ==>
      exists root, t :: IsTorrent(torrent, root, t) && infohash == Some(sha1(t.hashed)) &&
        MergedBytes(torrent, root, trackers) == r
    ensures r.None? ==>
      forall root, t | IsTorrent(torrent, root, t) ::
        infohash != Some(sha1(t.hashed)) || MergedBytes(torrent, root, trackers) == None
  {
    hide IsTorrent, Lookup, NewTrackers, Raw, Encode, EncodeFields, Put, SortByKey, TiersValue, Singles;
    var inspected := InspectTorrent(torrent);
    if inspected.None? {
      return None;
    }
    ghost var root :| IsTorrent(torrent, root, inspected.value);
    forall other, t | IsTorrent(torrent, other, t) ensures other == root && t == inspected.value {
      TorrentIsUnique(torrent, other, t, root, inspected.value);
    }
    if infohash != Some(sha1(inspected.value.hashed)) {
      return None;
    }
    if trackers == [] {
      return Some(torrent);
    }
    TorrentHasRoot(torrent, root, inspected.value);
    var fields, encoded := ReadRoot(torrent, root);
    var tiers := CachedTiers(fields);
    if tiers.None? {
      return None;
    }
    var announce := Announce(fields);
    var added := SelectNew(trackers, Trackers(tiers.value, announce));
    if added == [] {
      return Some(torrent);
    }
    MergedRaw(root, tiers.value, announce, added);
    if announce.None? {
      encoded := Put(encoded, ANNOUNCE, Encode(Str(added[0])));
    }
    encoded := Put(encoded, ANNOUNCE_LIST, Encode(TiersValue(StartingTiers(tiers.value, announce) + Singles(added))));
    JoinsToEncoding(MergedRoot(root, tiers.value, announce, added));
    var merged := [DICT] + JoinRaw(SortByKey(encoded)) + [END];
    if |merged| > MAX_SIZE {
      return None;
    }
    r := Some(merged);
  }

  lemma TorrentHasRoot(torrent: Bytes, root: Fields, t: Inspected)
    requires IsTorrent(torrent, root, t)
    ensures IsRoot(torrent, root)
  {
  }
}
