/** A torrent the reader accepts whose merge the reader rejects: one tier more than a list may hold. */
module MergeOverflow {
  import opened Options
  import opened Bencode
  import opened Decoding
  import opened KeyedFields
  import opened TorrentMetadata
  import opened TrackerMerge

  const FULL_INFO: Fields := [
    Field(LENGTH, Int(1)), Field(NAME, Str([97])), Field(PIECE_LENGTH, Int(1)),
    Field(PIECES, Str(seq(HASH_SIZE, i => 0)))]

  const FULL_TIERS: seq<Value> := seq(MAX_ENTRIES, i => List([]))

  const FULL_ROOT: Fields := [
    Field(ANNOUNCE, Str([97])), Field(ANNOUNCE_LIST, List(FULL_TIERS)), Field(INFO, Dict(FULL_INFO))]

  /** "udp://a:1", a tracker that a magnet may name. */
  const TRACKER: Bytes := [117, 100, 112, 58, 47, 47, 97, 58, 49]

  const OVERFULL_ROOT: Fields := FULL_ROOT[1 := Field(ANNOUNCE_LIST, List(FULL_TIERS + [TierValue([TRACKER])]))]

  lemma {:induction false} TiersAreShort(n: nat)
    ensures |EncodeItems(seq(n, i => List([])))| == 2 * n
  {
    var items: seq<Value> := seq(n, i => List([]));
    if n > 0 {
      TiersAreShort(n - 1);
      assert items[1..] == seq(n - 1, i => List([]));
      assert Encode(List([])) == [LIST, END];
    }
  }

  lemma FirstDiffers(common: Bytes, x: Byte, y: Byte, s: Bytes, t: Bytes)
    requires x < y
    ensures Below(common + [x] + s, common + [y] + t)
  {
    if common != [] {
      FirstDiffers(common[1..], x, y, s, t);
      assert (common + [x] + s)[1..] == common[1..] + [x] + s;
      assert (common + [y] + t)[1..] == common[1..] + [y] + t;
    }
  }

  lemma KeysFollow()
    ensures Below(LENGTH, NAME) && Below(NAME, PIECE_LENGTH) && Below(PIECE_LENGTH, PIECES)
    ensures Below(ANNOUNCE, ANNOUNCE_LIST) && Below(ANNOUNCE_LIST, INFO)
  {
    hide Below;
    assert LENGTH == [] + [108] + LENGTH[1..] && NAME == [] + [110] + NAME[1..];
    FirstDiffers([], 108, 110, LENGTH[1..], NAME[1..]);
    assert PIECE_LENGTH == [] + [112] + PIECE_LENGTH[1..];
    FirstDiffers([], 110, 112, NAME[1..], PIECE_LENGTH[1..]);
    assert PIECE_LENGTH == [112, 105, 101, 99, 101] + [32] + PIECE_LENGTH[6..];
    assert PIECES == [112, 105, 101, 99, 101] + [115] + [];
    FirstDiffers([112, 105, 101, 99, 101], 32, 115, PIECE_LENGTH[6..], []);
    assert ANNOUNCE_LIST == [] + [97] + ANNOUNCE_LIST[1..] && INFO == [] + [105] + INFO[1..];
    FirstDiffers([], 97, 105, ANNOUNCE_LIST[1..], INFO[1..]);
    assert ANNOUNCE_LIST == ANNOUNCE + [45] + ANNOUNCE_LIST[9..];
    PrefixIsBelow(ANNOUNCE, [45] + ANNOUNCE_LIST[9..]);
    assert ANNOUNCE_LIST == ANNOUNCE + ([45] + ANNOUNCE_LIST[9..]);
  }

  lemma PrefixIsBelow(a: Bytes, rest: Bytes)
    requires rest != []
    ensures Below(a, a + rest)
  {
    if a != [] {
      PrefixIsBelow(a[1..], rest);
      assert (a + rest)[1..] == a[1..] + rest;
    }
  }

  lemma KeysIncrease()
    ensures Increasing(FULL_INFO) && Increasing(FULL_ROOT)
  {
    hide Below;
    KeysFollow();
  }

  lemma ShortFits(s: Bytes, depth: nat)
    requires |s| <= 100 && depth <= MAX_DEPTH
    ensures Fits(Str(s), depth) && StringFits(s) && |EncodeString(s)| <= 9 + |s|
  {
    ShortStringFits(s);
    assert PowerOfTen(8) == 100000000 by { assert PowerOfTen(4) == 10000; assert PowerOfTen(6) == 1000000; }
    NumeralLength(|s|, 8);
  }

  lemma InfoFits()
    ensures Fits(Dict(FULL_INFO), 1)
  {
    KeysIncrease();
    hide StringFits;
    forall i | 0 <= i < |FULL_INFO| ensures StringFits(FULL_INFO[i].key) && Fits(FULL_INFO[i].value, 2) {
      ShortFits(FULL_INFO[i].key, 2);
      if FULL_INFO[i].value.Str? { ShortFits(FULL_INFO[i].value.bytes, 2); }
    }
  }

  lemma RootFits()
    ensures FieldsFit(FULL_ROOT, 1)
  {
    KeysIncrease();
    InfoFits();
    ShortFits(ANNOUNCE, 1);
    ShortFits([97], 1);
    ShortFits(ANNOUNCE_LIST, 1);
    ShortFits(INFO, 1);
    assert Fits(List(FULL_TIERS), 1) by {
      forall i | 0 <= i < MAX_ENTRIES ensures Fits(FULL_TIERS[i], 2) { assert FULL_TIERS[i] == List([]); }
    }
    hide Fits, Increasing;
  }

  // ---- Sizes ----

  lemma InfoIsShort()
    ensures |Encode(Dict(FULL_INFO))| <= 1000
  {
    hide EncodeString;
    var f := FULL_INFO;
    forall i | 0 <= i < 4 ensures |EncodeString(f[i].key)| <= 109 && |Encode(f[i].value)| <= 129 {
      ShortFits(f[i].key, 1);
      if f[i].value.Str? {
        ShortFits(f[i].value.bytes, 1);
      } else {
        assert Encode(Int(1)) == [INT, 49, END];
      }
    }
    assert f[1..][1..][1..][1..] == [];
    assert EncodeFields(f[1..][1..][1..]) == EncodeString(f[3].key) + Encode(f[3].value) + [];
    assert EncodeFields(f[1..][1..]) == EncodeString(f[2].key) + Encode(f[2].value) + EncodeFields(f[1..][1..][1..]);
    assert EncodeFields(f[1..]) == EncodeString(f[1].key) + Encode(f[1].value) + EncodeFields(f[1..][1..]);
    assert EncodeFields(f) == EncodeString(f[0].key) + Encode(f[0].value) + EncodeFields(f[1..]);
  }

  lemma TiersAreShortEnough()
    ensures |Encode(List(FULL_TIERS))| <= 20000 && |Encode(List(FULL_TIERS + [TierValue([TRACKER])]))| <= 20000
  {
    TiersAreShort(MAX_ENTRIES);
    assert FULL_TIERS == seq(MAX_ENTRIES, i => List([]));
    EncodeItemsAppend(FULL_TIERS, TierValue([TRACKER]));
    ShortFits(TRACKER, 1);
    var tier := TierValue([TRACKER]);
    assert tier.items == [Str(TRACKER)] && [Str(TRACKER)][1..] == [];
    assert |Encode(tier)| <= 120 by {
      assert EncodeItems([Str(TRACKER)]) == Encode(Str(TRACKER)) + EncodeItems([Str(TRACKER)][1..]);
    }
  }

  lemma RootIsShort(root: Fields)
    requires |root| == 3 && root[0] == FULL_ROOT[0] && root[1].key == ANNOUNCE_LIST && root[2] == FULL_ROOT[2]
    requires |Encode(root[1].value)| <= 20000
    ensures |EncodeRoot(root)| <= MAX_SIZE
  {
    InfoIsShort();
    ShortFits(ANNOUNCE, 1);
    ShortFits([97], 1);
    ShortFits(ANNOUNCE_LIST, 1);
    ShortFits(INFO, 1);
    assert Encode(Str([97])) == EncodeString([97]);
    hide EncodeString, Encode;
    assert root[1..][1..][1..] == [];
    assert EncodeFields(root[1..][1..]) == EncodeString(root[2].key) + Encode(root[2].value) + [];
    assert EncodeFields(root[1..]) == EncodeString(root[1].key) + Encode(root[1].value) + EncodeFields(root[1..][1..]);
    assert EncodeFields(root) == EncodeString(root[0].key) + Encode(root[0].value) + EncodeFields(root[1..]);
  }

  // ---- The merge ----

  lemma FieldAt<V>(fields: seq<Field<V>>, i: nat)
    requires Increasing(fields) && i < |fields|
    ensures Lookup(fields, fields[i].key) == Some(fields[i].value)
  {
    IncreasingKeysDiffer(fields);
    LookupAt(fields, i);
  }

  lemma OneFileIsListed(info: Fields, pieces: Bytes)
    requires Lookup(info, LENGTH) == Some(Int(1)) && Lookup(info, NAME) == Some(Str([97]))
    requires Lookup(info, PIECE_LENGTH) == Some(Int(1)) && Lookup(info, PIECES) == Some(Str(pieces))
    requires |pieces| == HASH_SIZE
    requires Lookup(info, META_VERSION) == None && Lookup(info, FILE_TREE) == None && Lookup(info, FILES) == None
    ensures InfoFiles(info) == Some([File([97], 1)])
  {
    hide Lookup;
    assert IsUtf8([97]) by { assert IsUtf8([97][1..]); }
    var file := File([97], 1);
    assert [file][..0] == [] && TotalBytes([file]) == 1;
  }

  lemma InfoDescribesOneFile()
    ensures InfoFiles(FULL_INFO) == Some([File([97], 1)])
  {
    KeysIncrease();
    hide Lookup, InfoFiles;
    FieldAt(FULL_INFO, 0);
    FieldAt(FULL_INFO, 1);
    FieldAt(FULL_INFO, 2);
    FieldAt(FULL_INFO, 3);
    NoOtherKeys();
    OneFileIsListed(FULL_INFO, seq(HASH_SIZE, i => 0));
  }

  lemma NoOtherKeys()
    ensures Lookup(FULL_INFO, META_VERSION) == None && Lookup(FULL_INFO, FILE_TREE) == None
    ensures Lookup(FULL_INFO, FILES) == None
  {
    LookupFinds(FULL_INFO, META_VERSION);
    LookupFinds(FULL_INFO, FILE_TREE);
    LookupFinds(FULL_INFO, FILES);
    forall i | 0 <= i < 4 ensures FULL_INFO[i].key !in {META_VERSION, FILE_TREE, FILES} {
      assert META_VERSION[1] == 101 && FILE_TREE[0] == 102 && FILES[0] == 102;
      assert LENGTH[0] == 108 && NAME[0] == 110 && PIECE_LENGTH[0] == 112 && PIECES[0] == 112 && META_VERSION[0] == 109;
    }
  }

  lemma FullTorrent()
    ensures IsTorrent(EncodeRoot(FULL_ROOT), FULL_ROOT,
                      Inspected(Encode(Dict(FULL_INFO)), EncodeRoot(FULL_ROOT), [File([97], 1)]))
  {
    RootFits();
    KeysIncrease();
    FieldAt(FULL_ROOT, 2);
    TiersAreShortEnough();
    RootIsShort(FULL_ROOT);
    InfoDescribesOneFile();
    hide Lookup, FieldsFit, Encode, EncodeRoot, InfoFiles;
  }

  function NoTiers(): seq<seq<Bytes>> {
    seq(MAX_ENTRIES, i => [])
  }

  lemma FullTiersAreEmpty()
    ensures TiersOf(FULL_TIERS) == Some(NoTiers()) && TierMembers(NoTiers()) == {}
  {
    forall i | 0 <= i < MAX_ENTRIES ensures TierOf(FULL_TIERS[i]) == Some([]) {
      assert FULL_TIERS[i] == List([]) && TierOf(List([])).value == [];
    }
    assert TiersOf(FULL_TIERS).value == NoTiers();
  }

  lemma FullLookups()
    ensures Lookup(FULL_ROOT, ANNOUNCE) == Some(Str([97])) && Lookup(FULL_ROOT, ANNOUNCE_LIST) == Some(List(FULL_TIERS))
  {
    hide Lookup, Increasing;
    KeysIncrease();
    FieldAt(FULL_ROOT, 0);
    FieldAt(FULL_ROOT, 1);
  }

  lemma FullTrackers()
    ensures CachedTiers(FULL_ROOT) == Some(NoTiers()) && Announce(FULL_ROOT) == Some([97])
    ensures Trackers(NoTiers(), Some([97])) == {[97]}
    ensures NewTrackers([TRACKER], {[97]}, MAX_ADDED) == [TRACKER]
  {
    hide Lookup, TiersOf, TierMembers, NoTiers;
    FullLookups();
    FullTiersAreEmpty();
    assert TRACKER != [97] && [TRACKER][1..] == [];
  }

  /** The torrent is accepted, its merge succeeds, and what the merge returns is no torrent. */
  lemma MergeCanReturnUnreadableBytes()
    ensures exists t :: IsTorrent(EncodeRoot(FULL_ROOT), FULL_ROOT, t)
    ensures MergedBytes(EncodeRoot(FULL_ROOT), FULL_ROOT, [TRACKER]) == Some(EncodeRoot(OVERFULL_ROOT))
    ensures forall root, t :: !IsTorrent(EncodeRoot(OVERFULL_ROOT), root, t)
  {
    FullTorrent();
    FullTrackers();
    MergedIsOverfull();
    TiersAreShortEnough();
    RootIsShort(OVERFULL_ROOT);
    hide IsTorrent, CachedTiers, Announce, Trackers, NewTrackers, MergedRoot, EncodeRoot;
    assert Merge(FULL_ROOT, [TRACKER]) == Changed(OVERFULL_ROOT);
    MergedIsReadAgain(EncodeRoot(FULL_ROOT), FULL_ROOT,
      Inspected(Encode(Dict(FULL_INFO)), EncodeRoot(FULL_ROOT), [File([97], 1)]), [TRACKER], OVERFULL_ROOT);
  }

  /** One tracker is added, and the same call on what was returned is refused. */
  lemma MergingTwiceCanFail()
    ensures exists t :: IsTorrent(EncodeRoot(FULL_ROOT), FULL_ROOT, t)
    ensures MergedBytes(EncodeRoot(FULL_ROOT), FULL_ROOT, [TRACKER]) == Some(EncodeRoot(OVERFULL_ROOT))
    ensures CachedTiers(FULL_ROOT).Some?
    ensures |AllNew([TRACKER], Trackers(CachedTiers(FULL_ROOT).value, Announce(FULL_ROOT)))| <= MAX_ADDED
    ensures forall hashed :: !GivenBack(EncodeRoot(OVERFULL_ROOT), hashed, [TRACKER])
  {
    hide IsTorrent, CachedTiers, Announce, Trackers, EncodeRoot, MergedBytes, NoTiers;
    MergeCanReturnUnreadableBytes();
    FullTrackers();
    OneIsNew(TRACKER, {[97]});
  }

  lemma OneIsNew(tracker: Bytes, seen: set<Bytes>)
    ensures |AllNew([tracker], seen)| <= 1
  {
    SubsetOfSameSize(AllNew([tracker], seen), {tracker});
  }

  lemma OverfullTiers()
    ensures TiersValue(NoTiers() + Singles([TRACKER])) == List(FULL_TIERS + [TierValue([TRACKER])])
  {
    var all := NoTiers() + Singles([TRACKER]);
    var items := TiersValue(all).items;
    forall i | 0 <= i < |items| ensures items[i] == (FULL_TIERS + [TierValue([TRACKER])])[i] {
      if i < MAX_ENTRIES { assert all[i] == [] && TierValue([]).items == []; } else { assert all[i] == [TRACKER]; }
    }
  }

  lemma SortedAlready(a: Field<Value>, b: Field<Value>, c: Field<Value>)
    requires Below(a.key, b.key) && Below(b.key, c.key)
    ensures SortByKey([a, b, c]) == [a, b, c]
  {
    hide Below;
    assert [a, b, c][1..] == [b, c] && [b, c][1..] == [c] && [c][1..] == [];
    assert SortByKey([c]) == [c];
    assert SortByKey([b, c]) == [b, c];
  }

  /** With an announce URL and some tiers already there, only the announce list is replaced. */
  lemma MergedOfThree(a: Field<Value>, b: Field<Value>, c: Field<Value>, tiers: seq<seq<Bytes>>, url: Bytes,
                      added: seq<Bytes>)
    requires b.key == ANNOUNCE_LIST && Below(a.key, b.key) && Below(b.key, c.key) && tiers != [] && added != []
    ensures MergedRoot([a, b, c], tiers, Some(url), added) ==
            [a, Field(ANNOUNCE_LIST, TiersValue(tiers + Singles(added))), c]
  {
    BelowIsTotal(a.key, b.key);
    var value := TiersValue(tiers + Singles(added));
    hide TiersValue, Singles, Below;
    assert [a, b, c][1..] == [b, c] && [b, c][1..] == [c];
    assert Put([b, c], ANNOUNCE_LIST, value) == [Field(ANNOUNCE_LIST, value), c];
    assert Put([a, b, c], ANNOUNCE_LIST, value) == [a, Field(ANNOUNCE_LIST, value), c];
    SortedAlready(a, Field(ANNOUNCE_LIST, value), c);
  }

  lemma MergedIsOverfull()
    ensures MergedRoot(FULL_ROOT, NoTiers(), Some([97]), [TRACKER]) == OVERFULL_ROOT
  {
    hide MergedRoot, TiersValue, Singles, NoTiers;
    OverfullTiers();
    KeysFollow();
    NoTiersAreTiers();
    var root := FULL_ROOT;
    assert root == [root[0], root[1], root[2]];
    MergedOfThree(root[0], root[1], root[2], NoTiers(), [97], [TRACKER]);
  }

  lemma NoTiersAreTiers()
    ensures NoTiers() != []
  {
    assert |NoTiers()| == MAX_ENTRIES;
  }
}
