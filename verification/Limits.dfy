/** How bencoded values look and which of them the reader takes, said in characters and numbers. */
module ReaderLimits {
  import opened Orders
  import opened Bencode
  import opened Decoding
  import TrackerMerge
  import SafePaths

  // ---- The encoding ----

  /** The encodings one after the other. */
  function Joined(parts: seq<Bytes>): Bytes {
    if parts == [] then [] else parts[0] + Joined(parts[1..])
  }

  function ItemParts(items: seq<Value>): seq<Bytes> {
    seq(|items|, i requires 0 <= i < |items| => Encode(items[i]))
  }

  function FieldParts(fields: seq<Field<Value>>): seq<Bytes> {
    seq(|fields|, i requires 0 <= i < |fields| => Encode(Str(fields[i].key)) + Encode(fields[i].value))
  }

  lemma {:induction false} ItemsAreJoined(items: seq<Value>)
    ensures EncodeItems(items) == Joined(ItemParts(items))
  {
    hide Encode;
    if items != [] {
      ItemsAreJoined(items[1..]);
      assert ItemParts(items)[1..] == ItemParts(items[1..]);
    }
  }

  lemma {:induction false} FieldsAreJoined(fields: seq<Field<Value>>)
    ensures EncodeFields(fields) == Joined(FieldParts(fields))
  {
    if fields != [] {
      FieldsAreJoined(fields[1..]);
      assert FieldParts(fields)[1..] == FieldParts(fields[1..]);
      assert EncodeString(fields[0].key) == Encode(Str(fields[0].key));
      hide Encode, EncodeString;
      assert EncodeFields(fields) == FieldParts(fields)[0] + Joined(FieldParts(fields[1..]));
    }
  }

  /** The four forms of BEP 3. */
  lemma EncodingIs(n: int, s: Bytes, items: seq<Value>, fields: seq<Field<Value>>)
    ensures Encode(Int(n)) == SafePaths.Ascii("i") + Signed(n) + SafePaths.Ascii("e")
    ensures Encode(Str(s)) == Numeral(|s|) + SafePaths.Ascii(":") + s
    ensures Encode(List(items)) == SafePaths.Ascii("l") + Joined(ItemParts(items)) + SafePaths.Ascii("e")
    ensures Encode(Dict(fields)) == SafePaths.Ascii("d") + Joined(FieldParts(fields)) + SafePaths.Ascii("e")
  {
    hide SafePaths.Ascii, Joined, ItemParts, FieldParts, Numeral, Signed, EncodeItems, EncodeFields;
    ItemsAreJoined(items);
    FieldsAreJoined(fields);
    MarkersAre();
  }

  lemma MarkersAre()
    ensures SafePaths.Ascii("i") == [105] && SafePaths.Ascii("e") == [101] && SafePaths.Ascii(":") == [58]
    ensures SafePaths.Ascii("l") == [108] && SafePaths.Ascii("d") == [100]
  {
  }

  // ---- The limits ----

  lemma {:induction false} DigitsOf(n: nat, k: nat)
    requires k > 0
    ensures |Numeral(n)| <= k <==> n < TrackerMerge.PowerOfTen(k)
  {
    if n >= 10 {
      if k > 1 {
        DigitsOf(n / 10, k - 1);
      } else {
        assert TrackerMerge.PowerOfTen(0) == 1 && |Numeral(n / 10)| >= 1;
      }
    } else {
      TenOrMore(k);
    }
  }

  lemma {:induction false} TenOrMore(k: nat)
    requires k > 0
    ensures TrackerMerge.PowerOfTen(k) >= 10
  {
    if k > 1 { TenOrMore(k - 1); } else { assert TrackerMerge.PowerOfTen(0) == 1; }
  }

  lemma ElevenDigits(s: Bytes)
    ensures StringFits(s) <==> |s| < 100000000000
  {
    DigitsOf(|s|, 11);
    assert TrackerMerge.PowerOfTen(3) == 1000;
    assert TrackerMerge.PowerOfTen(5) == 100000;
    assert TrackerMerge.PowerOfTen(7) == 10000000;
    assert TrackerMerge.PowerOfTen(9) == 1000000000;
    assert TrackerMerge.PowerOfTen(11) == 100000000000;
  }

  lemma {:induction false} BelowIsLower(a: Bytes, b: Bytes)
    ensures Below(a, b) <==> Lower(a, b)
  {
    hide Lower;
    LowerUnfolds(a, b);
    if a != [] && b != [] { BelowIsLower(a[1..], b[1..]); }
  }

  /** Lists and dictionaries stand in one another at most this often. */
  ghost predicate Nested(v: Value, levels: int)
    decreases v
  {
    match v
    case Int(_) => true
    case Str(_) => true
    case List(items) => (items != [] ==> levels >= 1) && forall i :: 0 <= i < |items| ==> Nested(items[i], levels - 1)
    case Dict(fields) =>
      (fields != [] ==> levels >= 1) && forall i :: 0 <= i < |fields| ==> Nested(fields[i].value, levels - 1)
  }

  /** At most 8192 entries anywhere, keys in strictly rising order, and lengths of at most eleven digits. */
  ghost predicate Moderate(v: Value)
    decreases v
  {
    match v
    case Int(_) => true
    case Str(s) => |s| < 100000000000
    case List(items) => |items| <= 8192 && forall i :: 0 <= i < |items| ==> Moderate(items[i])
    case Dict(fields) =>
      && |fields| <= 8192
      && (forall i :: 0 < i < |fields| ==> Lower(fields[i - 1].key, fields[i].key))
      && forall i :: 0 <= i < |fields| ==> |fields[i].key| < 100000000000 && Moderate(fields[i].value)
  }

  /** The reader takes exactly the moderate values nested at most sixteen deep. */
  lemma {:induction false} FitsExactly(v: Value, depth: nat)
    ensures Fits(v, depth) <==> depth <= 16 && Nested(v, 16 - depth) && Moderate(v)
    decreases v
  {
    hide Lower, Below, StringFits;
    match v
    case Int(_) =>
    case Str(s) => ElevenDigits(s);
    case List(items) =>
      forall i | 0 <= i < |items|
        ensures Fits(items[i], depth + 1) <==> depth + 1 <= 16 && Nested(items[i], 16 - depth - 1) && Moderate(items[i])
      {
        FitsExactly(items[i], depth + 1);
      }
      if items != [] { FitsExactly(items[0], depth + 1); }
    case Dict(fields) =>
      forall i | 0 <= i < |fields|
        ensures Fits(fields[i].value, depth + 1) <==>
                depth + 1 <= 16 && Nested(fields[i].value, 16 - depth - 1) && Moderate(fields[i].value)
        ensures StringFits(fields[i].key) <==> |fields[i].key| < 100000000000
      {
        FitsExactly(fields[i].value, depth + 1);
        ElevenDigits(fields[i].key);
      }
      if fields != [] { FitsExactly(fields[0].value, depth + 1); }
      forall i | 0 < i < |fields|
        ensures Below(fields[i - 1].key, fields[i].key) <==> Lower(fields[i - 1].key, fields[i].key)
      {
        BelowIsLower(fields[i - 1].key, fields[i].key);
      }
  }
}
