/**
 Bencoding, the encoding section of BEP 3, as `torrent_bytes.py` reads and
 writes it: an encoder that is the reference, and a decoder object that must
 invert it exactly on every value within the reader's limits.
 */
module Bencode {

  type Byte = b: int | 0 <= b < 256
  type Bytes = seq<Byte>

  const DIGIT_0: Byte := 48
  const DIGIT_9: Byte := 57
  const MINUS: Byte := 45
  const COLON: Byte := 58
  const DICT: Byte := 100
  const END: Byte := 101
  const INT: Byte := 105
  const LIST: Byte := 108

  const MAX_DEPTH := 16
  const MAX_ENTRIES := 8192
  const MAX_LENGTH_DIGITS := 11

  datatype Field<+V> = Field(key: Bytes, value: V)

  /** A dictionary keeps its fields in the order read, as a Python dict does. */
  datatype Value =
    | Int(number: int)
    | Str(bytes: Bytes)
    | List(items: seq<Value>)
    | Dict(fields: seq<Field<Value>>)

  // ---- Numerals ----

  predicate IsDigit(b: Byte) {
    DIGIT_0 <= b <= DIGIT_9
  }

  function Numeral(n: nat): (s: Bytes)
    ensures s != [] && forall b :: b in s ==> IsDigit(b)
    ensures n > 0 ==> s[0] != DIGIT_0
  {
    if n < 10 then [DIGIT_0 + n] else Numeral(n / 10) + [DIGIT_0 + n % 10]
  }

  /** What the pattern `0|[1-9][0-9]*` matches. */
  predicate IsNumeral(s: Bytes) {
    s != [] && (forall b :: b in s ==> IsDigit(b)) && (s[0] == DIGIT_0 ==> |s| == 1)
  }

  function NumeralValue(s: Bytes): nat
    requires forall b :: b in s ==> IsDigit(b)
  {
    if s == [] then 0
    else
      assert s[|s| - 1] in s && IsDigit(s[|s| - 1]);
      10 * NumeralValue(s[..|s| - 1]) + (s[|s| - 1] - DIGIT_0)
  }

  lemma {:induction false} NumeralReadsBack(n: nat)
    ensures IsNumeral(Numeral(n)) && NumeralValue(Numeral(n)) == n
  {
    if n < 10 {
      assert Numeral(n)[..0] == [];
    } else {
      NumeralReadsBack(n / 10);
      assert Numeral(n)[..|Numeral(n)| - 1] == Numeral(n / 10);
    }
  }

  lemma {:induction false} NumeralIsCanonical(s: Bytes)
    requires IsNumeral(s)
    ensures Numeral(NumeralValue(s)) == s
    ensures NumeralValue(s) == 0 <==> s == [DIGIT_0]
  {
    var front, last := s[..|s| - 1], s[|s| - 1];
    assert last in s && s[0] in s;
    if |s| > 1 {
      assert front[0] == s[0];
      NumeralIsCanonical(front);
      assert NumeralValue(s) / 10 == NumeralValue(front);
    }
  }

  function Signed(n: int): Bytes {
    if n < 0 then [MINUS] + Numeral(-n) else Numeral(n)
  }

  /** What the pattern `0|-?[1-9][0-9]*` matches. */
  predicate IsSigned(s: Bytes) {
    IsNumeral(s) || (|s| > 1 && s[0] == MINUS && IsNumeral(s[1..]) && s[1] != DIGIT_0)
  }

  function SignedValue(s: Bytes): int
    requires IsSigned(s)
  {
    if s[0] == MINUS then
      assert MINUS in s;
      var magnitude: int := NumeralValue(s[1..]);
      -magnitude
    else NumeralValue(s)
  }

  lemma SignedReadsBack(n: int)
    ensures IsSigned(Signed(n)) && SignedValue(Signed(n)) == n && END !in Signed(n)
  {
    NumeralReadsBack(if n < 0 then -n else n);
    if n < 0 {
      assert Signed(n)[1..] == Numeral(-n);
    } else {
      assert Numeral(n)[0] in Numeral(n);
    }
  }

  lemma SignedIsCanonical(s: Bytes)
    requires IsSigned(s)
    ensures Signed(SignedValue(s)) == s
  {
    assert s[0] in s;
    NumeralIsCanonical(if s[0] == MINUS then s[1..] else s);
  }

  // ---- The encoding ----

  function EncodeString(s: Bytes): (e: Bytes)
    ensures e != [] && IsDigit(e[0])
  {
    assert Numeral(|s|)[0] in Numeral(|s|);
    Numeral(|s|) + [COLON] + s
  }

  function Encode(v: Value): (e: Bytes)
    ensures e != [] && e[0] != END
    decreases v
  {
    match v
    case Int(n) => [INT] + Signed(n) + [END]
    case Str(s) => EncodeString(s)
    case List(items) => [LIST] + EncodeItems(items) + [END]
    case Dict(fields) => [DICT] + EncodeFields(fields) + [END]
  }

  function EncodeItems(items: seq<Value>): Bytes
    decreases items
  {
    if items == [] then [] else Encode(items[0]) + EncodeItems(items[1..])
  }

  function EncodeFields(fields: seq<Field<Value>>): Bytes
    decreases fields
  {
    if fields == [] then []
    else EncodeString(fields[0].key) + Encode(fields[0].value) + EncodeFields(fields[1..])
  }

  lemma {:induction false} EncodeItemsAppend(items: seq<Value>, v: Value)
    ensures EncodeItems(items + [v]) == EncodeItems(items) + Encode(v)
  {
    if items == [] {
      assert [v][1..] == [];
    } else {
      assert (items + [v])[1..] == items[1..] + [v];
      EncodeItemsAppend(items[1..], v);
    }
  }

  lemma {:induction false} EncodeFieldsAppend(fields: seq<Field<Value>>, f: Field<Value>)
    ensures EncodeFields(fields + [f]) == EncodeFields(fields) + EncodeString(f.key) + Encode(f.value)
  {
    if fields == [] {
      assert [f][1..] == [];
    } else {
      assert (fields + [f])[1..] == fields[1..] + [f];
      EncodeFieldsAppend(fields[1..], f);
    }
  }

  // ---- No encoding is a prefix of another ----

  lemma SplitAt(s: Bytes, t: Bytes, x: Bytes, y: Bytes, stop: Byte)
    requires s + [stop] + x == t + [stop] + y && stop !in s && stop !in t
    ensures s == t && x == y
  {
    var whole := s + [stop] + x;
    assert whole[|s|] == stop && forall k | 0 <= k < |s| :: whole[k] != stop by {
      forall k | 0 <= k < |s| ensures whole[k] == s[k] && s[k] in s { }
    }
    assert whole[|t|] == stop && forall k | 0 <= k < |t| :: whole[k] != stop by {
      forall k | 0 <= k < |t| ensures whole[k] == t[k] && t[k] in t { }
    }
    assert |s| == |t|;
    assert s == whole[..|s|] && t == whole[..|t|];
    assert x == whole[|s| + 1..] && y == whole[|t| + 1..];
  }

  lemma StringPrefixFree(s: Bytes, t: Bytes, x: Bytes, y: Bytes)
    requires EncodeString(s) + x == EncodeString(t) + y
    ensures s == t && x == y
  {
    assert EncodeString(s) + x == Numeral(|s|) + [COLON] + (s + x);
    assert EncodeString(t) + y == Numeral(|t|) + [COLON] + (t + y);
    SplitAt(Numeral(|s|), Numeral(|t|), s + x, t + y, COLON);
    NumeralReadsBack(|s|);
    NumeralReadsBack(|t|);
    assert s == (s + x)[..|s|] == t;
    assert x == (s + x)[|s|..] == y;
  }

  lemma SameKind(v: Value, w: Value, x: Bytes, y: Bytes)
    requires Encode(v) + x == Encode(w) + y
    ensures v.Int? == w.Int? && v.Str? == w.Str? && v.List? == w.List? && v.Dict? == w.Dict?
  {
    assert Encode(v)[0] == (Encode(v) + x)[0] == Encode(w)[0];
    assert IsDigit(Encode(v)[0]) == v.Str? && IsDigit(Encode(w)[0]) == w.Str?;
  }

  lemma IntPrefixFree(n: int, m: int, x: Bytes, y: Bytes)
    requires Encode(Int(n)) + x == Encode(Int(m)) + y
    ensures n == m && x == y
  {
    SignedReadsBack(n);
    SignedReadsBack(m);
    assert Signed(n) + [END] + x == (Encode(Int(n)) + x)[1..];
    assert Signed(m) + [END] + y == (Encode(Int(m)) + y)[1..];
    SplitAt(Signed(n), Signed(m), x, y, END);
  }

  lemma Regroup(a: Bytes, b: Bytes, c: Bytes)
    ensures (a + b) + c == a + (b + c)
  {
  }

  /** What follows in a list: another item exactly when the list is not over. */
  lemma NextItem(items: seq<Value>, y: Bytes)
    ensures var s := EncodeItems(items) + [END] + y;
      s != [] && (s[0] == END <==> items == []) && (items == [] ==> s == [END] + y) &&
      (items != [] ==> s == Encode(items[0]) + (EncodeItems(items[1..]) + [END] + y))
  {
    hide Encode;
    if items != [] {
      var e, rest := Encode(items[0]), EncodeItems(items[1..]);
      assert EncodeItems(items) == e + rest;
      hide EncodeItems;
      Regroup(e, rest, [END]);
      Regroup(e, rest + [END], y);
    }
  }

  lemma NextField(fields: seq<Field<Value>>, y: Bytes)
    ensures var s := EncodeFields(fields) + [END] + y;
      s != [] && (s[0] == END <==> fields == []) && (fields == [] ==> s == [END] + y) &&
      (fields != [] ==>
        s == EncodeString(fields[0].key) + (Encode(fields[0].value) + (EncodeFields(fields[1..]) + [END] + y)))
  {
    hide Encode, EncodeString;
    if fields != [] {
      var k, e, rest := EncodeString(fields[0].key), Encode(fields[0].value), EncodeFields(fields[1..]);
      assert EncodeFields(fields) == k + e + rest;
      hide EncodeFields;
      Regroup(k + e, rest, [END]);
      Regroup(k + e, rest + [END], y);
      Regroup(k, e, rest + [END] + y);
    }
  }

  lemma Inside(v: Value, x: Bytes)
    ensures v.List? ==> (Encode(v) + x)[1..] == EncodeItems(v.items) + [END] + x
    ensures v.Dict? ==> (Encode(v) + x)[1..] == EncodeFields(v.fields) + [END] + x
  {
    hide EncodeItems, EncodeFields, EncodeString;
  }

  /** One encoding never starts another: a byte range encodes at most one value. */
  lemma {:induction false} PrefixFree(v: Value, w: Value, x: Bytes, y: Bytes)
    requires Encode(v) + x == Encode(w) + y
    ensures v == w && x == y
    decreases v, 1
  {
    SameKind(v, w, x, y);
    Inside(v, x);
    Inside(w, y);
    if v.Str? { assert Encode(v) == EncodeString(v.bytes) && Encode(w) == EncodeString(w.bytes); }
    hide *;
    match v
    case Int(n) => IntPrefixFree(n, w.number, x, y);
    case Str(s) => StringPrefixFree(s, w.bytes, x, y);
    case List(items) =>
      Regroup(EncodeItems(items), [END], x);
      ItemsPrefix(items, w.items, [END] + x, y);
      NextItem(w.items[|items|..], y);
      assert x == ([END] + x)[1..] && y == ([END] + y)[1..];
    case Dict(fields) =>
      Regroup(EncodeFields(fields), [END], x);
      FieldsPrefix(fields, w.fields, [END] + x, y);
      NextField(w.fields[|fields|..], y);
      assert x == ([END] + x)[1..] && y == ([END] + y)[1..];
  }

  /** Items read so far are the first items of whatever list is encoded there. */
  lemma {:induction false} ItemsPrefix(xs: seq<Value>, ys: seq<Value>, x: Bytes, y: Bytes)
    requires EncodeItems(xs) + x == EncodeItems(ys) + [END] + y
    ensures xs <= ys && x == EncodeItems(ys[|xs|..]) + [END] + y
    decreases xs, 0
  {
    hide Encode;
    NextItem(ys, y);
    if xs == [] {
      assert EncodeItems(xs) + x == x;
      assert ys[0..] == ys;
    } else {
      var after := EncodeItems(xs[1..]) + x;
      assert EncodeItems(xs) + x == Encode(xs[0]) + after;
      hide EncodeItems;
      PrefixFree(xs[0], ys[0], after, EncodeItems(ys[1..]) + [END] + y);
      ItemsPrefix(xs[1..], ys[1..], x, y);
      assert xs == [xs[0]] + xs[1..] && ys == [ys[0]] + ys[1..];
      assert ys[1..][|xs[1..]|..] == ys[|xs|..];
    }
  }

  lemma {:induction false} FieldsPrefix(xs: seq<Field<Value>>, ys: seq<Field<Value>>, x: Bytes, y: Bytes)
    requires EncodeFields(xs) + x == EncodeFields(ys) + [END] + y
    ensures xs <= ys && x == EncodeFields(ys[|xs|..]) + [END] + y
    decreases xs, 0
  {
    hide Encode, EncodeString;
    NextField(ys, y);
    if xs == [] {
      assert EncodeFields(xs) + x == x;
      assert ys[0..] == ys;
    } else {
      var f, g, after, rest := xs[0], ys[0], EncodeFields(xs[1..]) + x, EncodeFields(ys[1..]) + [END] + y;
      assert EncodeFields(xs) + x == EncodeString(f.key) + (Encode(f.value) + after);
      hide EncodeFields;
      StringPrefixFree(f.key, g.key, Encode(f.value) + after, Encode(g.value) + rest);
      PrefixFree(f.value, g.value, after, rest);
      FieldsPrefix(xs[1..], ys[1..], x, y);
      assert xs == [xs[0]] + xs[1..] && ys == [ys[0]] + ys[1..];
      assert ys[1..][|xs[1..]|..] == ys[|xs|..];
    }
  }
}
