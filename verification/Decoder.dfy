/** `_Decoder`: a cursor over bencoded data, and the limits it enforces. */
module Decoding {
  import opened Options
  import opened Bencode

  // ---- Limits ----

  /** The order in which Python compares byte strings. */
  predicate Below(a: Bytes, b: Bytes) {
    if b == [] then false
    else if a == [] then true
    else a[0] < b[0] || (a[0] == b[0] && Below(a[1..], b[1..]))
  }

  lemma {:induction false} BelowIsTotal(a: Bytes, b: Bytes)
    ensures Below(a, b) || a == b || Below(b, a)
    ensures !(Below(a, b) && Below(b, a)) && !Below(a, a)
  {
    if a != [] && b != [] {
      BelowIsTotal(a[1..], b[1..]);
      assert a == [a[0]] + a[1..] && b == [b[0]] + b[1..];
    }
    if a != [] { BelowIsTotal(a[1..], a[1..]); }
  }

  lemma {:induction false} BelowIsTransitive(a: Bytes, b: Bytes, c: Bytes)
    requires Below(a, b) && Below(b, c)
    ensures Below(a, c)
  {
    if a != [] && a[0] == b[0] && b[0] == c[0] {
      BelowIsTransitive(a[1..], b[1..], c[1..]);
    }
  }

  ghost predicate Increasing<V>(fields: seq<Field<V>>) {
    forall i :: 0 < i < |fields| ==> Below(fields[i - 1].key, fields[i].key)
  }

  predicate StringFits(s: Bytes) {
    |Numeral(|s|)| <= MAX_LENGTH_DIGITS
  }

  ghost predicate Fits(v: Value, depth: nat)
    decreases v
  {
    && depth <= MAX_DEPTH
    && match v
       case Int(_) => true
       case Str(s) => StringFits(s)
       case List(items) => |items| <= MAX_ENTRIES && forall i :: 0 <= i < |items| ==> Fits(items[i], depth + 1)
       case Dict(fields) =>
         && |fields| <= MAX_ENTRIES && Increasing(fields)
         && forall i :: 0 <= i < |fields| ==> StringFits(fields[i].key) && Fits(fields[i].value, depth + 1)
  }

  ghost predicate ItemsFit(items: seq<Value>, depth: nat) {
    |items| <= MAX_ENTRIES && forall i :: 0 <= i < |items| ==> Fits(items[i], depth)
  }

  ghost predicate FieldsFit(fields: seq<Field<Value>>, depth: nat) {
    && Increasing(fields)
    && forall i :: 0 <= i < |fields| ==> Fits(Str(fields[i].key), depth) && Fits(fields[i].value, depth)
  }

  /** The bytes `e` stand in `data` from `at` on. */
  ghost predicate StandsAt(e: Bytes, data: Bytes, at: nat) {
    at <= |data| && e <= data[at..]
  }

  /** The bytes `data[from..to]` are exactly `e`. */
  ghost predicate Spans(e: Bytes, data: Bytes, from: nat, to: nat) {
    from <= to <= |data| && data[from..to] == e
  }

  // ---- Reading a list or dictionary from left to right ----

  lemma SpanThenStand(e: Bytes, data: Bytes, start: nat, at: nat, f: Bytes)
    requires Spans(e, data, start, at) && StandsAt(f, data, start)
    ensures e + data[at..] == f + data[start + |f|..]
  {
    assert data[start..] == data[start..at] + data[at..];
    assert data[start..] == f + data[start + |f|..];
  }

  lemma RestStands(e: Bytes, rest: Bytes, data: Bytes, at: nat)
    requires at <= |data| && data[at..] == e + rest && e != []
    ensures at < |data| && data[at] == e[0] && StandsAt(e, data, at)
  {
    assert data[at..][0] == data[at];
  }

  /** Having read `items`, what stands next is the rest of any list encoded at the start. */
  lemma ListGoesOn(data: Bytes, start: nat, at: nat, items: seq<Value>, all: seq<Value>)
    requires Spans(EncodeItems(items), data, start, at) && StandsAt(EncodeItems(all) + [END], data, start)
    ensures items <= all && at < |data|
    ensures data[at] == END <==> items == all
    ensures items != all ==> StandsAt(Encode(all[|items|]), data, at)
  {
    hide Encode, EncodeItems;
    var whole := EncodeItems(all) + [END];
    SpanThenStand(EncodeItems(items), data, start, at, whole);
    ItemsPrefix(items, all, data[at..], data[start + |whole|..]);
    var rest, tail := all[|items|..], data[start + |whole|..];
    NextItem(rest, tail);
    if rest == [] {
      RestStands([END], tail, data, at);
    } else {
      RestStands(Encode(rest[0]), EncodeItems(rest[1..]) + [END] + tail, data, at);
    }
  }

  lemma DictGoesOn(data: Bytes, start: nat, at: nat, fields: seq<Field<Value>>, all: seq<Field<Value>>)
    requires Spans(EncodeFields(fields), data, start, at) && StandsAt(EncodeFields(all) + [END], data, start)
    ensures fields <= all && at < |data|
    ensures data[at] == END <==> fields == all
    ensures fields != all ==> StandsAt(EncodeString(all[|fields|].key) + Encode(all[|fields|].value), data, at)
  {
    hide Encode, EncodeFields, EncodeString;
    var whole := EncodeFields(all) + [END];
    SpanThenStand(EncodeFields(fields), data, start, at, whole);
    FieldsPrefix(fields, all, data[at..], data[start + |whole|..]);
    var rest, tail := all[|fields|..], data[start + |whole|..];
    NextField(rest, tail);
    if rest == [] {
      RestStands([END], tail, data, at);
    } else {
      var k, e := EncodeString(rest[0].key), Encode(rest[0].value);
      Regroup(k, e, EncodeFields(rest[1..]) + [END] + tail);
      RestStands(k + e, EncodeFields(rest[1..]) + [END] + tail, data, at);
    }
  }

  // ---- What a read returns ----

  /** Reading at `start` gives the value encoded there, or nothing when no value within the limits is. */
  ghost predicate Reads(data: Bytes, start: nat, depth: nat, r: Option<Value>, end: nat) {
    match r
    case Some(v) => Fits(v, depth) && start < end && Spans(Encode(v), data, start, end)
    case None => forall v | Fits(v, depth) :: !StandsAt(Encode(v), data, start)
  }

  ghost predicate ReadsItems(data: Bytes, start: nat, depth: nat, r: Option<seq<Value>>, end: nat) {
    match r
    case Some(items) => ItemsFit(items, depth) && start < end && Spans(EncodeItems(items) + [END], data, start, end)
    case None => forall items | ItemsFit(items, depth) :: !StandsAt(EncodeItems(items) + [END], data, start)
  }

  ghost predicate ReadsFields(data: Bytes, start: nat, depth: nat, r: Option<seq<Field<Value>>>, end: nat) {
    match r
    case Some(fields) =>
      |fields| <= MAX_ENTRIES && FieldsFit(fields, depth) && start < end &&
      Spans(EncodeFields(fields) + [END], data, start, end)
    case None =>
      forall fields | |fields| <= MAX_ENTRIES && FieldsFit(fields, depth) ::
        !StandsAt(EncodeFields(fields) + [END], data, start)
  }

  /** Whatever value within the limits is encoded at the cursor is the one read, to its last byte. */
  lemma OnlyReading(data: Bytes, start: nat, depth: nat, r: Option<Value>, end: nat, v: Value)
    requires Reads(data, start, depth, r, end) && Fits(v, depth) && StandsAt(Encode(v), data, start)
    ensures r == Some(v) && end == start + |Encode(v)|
  {
    hide Encode, Fits;
    var e := Encode(r.value);
    assert data[start..] == e + data[end..] by { assert data[start..] == data[start..end] + data[end..]; }
    assert data[start..] == Encode(v) + data[start + |Encode(v)|..];
    PrefixFree(r.value, v, data[end..], data[start + |Encode(v)|..]);
  }

  /** Decoding inverts encoding, whatever follows. */
  lemma DecodeInvertsEncode(v: Value, rest: Bytes, r: Option<Value>, end: nat)
    requires Fits(v, 0) && Reads(Encode(v) + rest, 0, 0, r, end)
    ensures r == Some(v) && end == |Encode(v)|
  {
    hide Encode, Fits;
    OnlyReading(Encode(v) + rest, 0, 0, r, end, v);
  }

  // ---- Scalars ----

  lemma KindAt(data: Bytes, start: nat, v: Value)
    requires StandsAt(Encode(v), data, start)
    ensures start < |data| && data[start] == Encode(v)[0]
    ensures v.Int? <==> data[start] == INT
    ensures v.List? <==> data[start] == LIST
    ensures v.Dict? <==> data[start] == DICT
    ensures v.Str? ==> IsDigit(data[start])
  {
    assert data[start..][0] == data[start];
  }

  lemma IntStands(data: Bytes, start: nat, n: int)
    requires StandsAt(Encode(Int(n)), data, start)
    ensures var e := start + 1 + |Signed(n)|;
      && e < |data| && data[e] == END && data[start + 1..e] == Signed(n)
      && forall k :: start < k < e ==> data[k] != END
  {
    SignedReadsBack(n);
    var s := Signed(n);
    assert Encode(Int(n)) == [INT] + s + [END];
    hide Signed, IsSigned, SignedValue, Encode;
    StandsInTurn([INT] + s, [END], data, start);
    StandsInTurn([INT], s, data, start);
    var e := start + 1 + |s|;
    ByteStands([END], data, e, 0);
    assert data[start + 1..e] == data[start + 1..][..|s|] == s;
    forall k | start < k < e ensures data[k] != END {
      ByteStands(s, data, start + 1, k - start - 1);
      assert s[k - start - 1] in s;
    }
  }

  lemma ByteStands(e: Bytes, data: Bytes, at: nat, k: nat)
    requires StandsAt(e, data, at) && k < |e|
    ensures at + k < |data| && data[at + k] == e[k]
  {
    assert data[at..][k] == data[at + k];
  }

  lemma StringStands(data: Bytes, start: nat, s: Bytes)
    requires StandsAt(EncodeString(s), data, start)
    ensures var c := start + |Numeral(|s|)|;
      && c + 1 + |s| <= |data| && data[c] == COLON && data[start..c] == Numeral(|s|)
      && data[c + 1..c + 1 + |s|] == s
      && forall k :: start <= k < c ==> data[k] != COLON
  {
    var digits := Numeral(|s|);
    StandsInTurn(digits + [COLON], s, data, start);
    StandsInTurn(digits, [COLON], data, start);
    var c := start + |digits|;
    ByteStands([COLON], data, c, 0);
    assert data[start..c] == data[start..][..|digits|] == digits;
    assert data[c + 1..c + 1 + |s|] == data[c + 1..][..|s|] == s;
    forall k | start <= k < c ensures data[k] != COLON {
      ByteStands(digits, data, start, k - start);
      assert digits[k - start] in digits;
    }
  }

  /** `bytes.find`, which clips its upper bound to the data. */
  function Find(data: Bytes, b: Byte, from: nat, to: nat): (r: Option<nat>)
    ensures r.Some? ==> from <= r.value < to && r.value < |data| && data[r.value] == b
    ensures forall k | from <= k < (if r.Some? then r.value else to) && k < |data| :: data[k] != b
    decreases if from < to then to - from else 0
  {
    if from >= to || from >= |data| then None
    else if data[from] == b then Some(from)
    else Find(data, b, from + 1, to)
  }

  /** Everything the source does with an integer marker, and that it reads exactly what is encoded. */
  function IntegerAt(data: Bytes, start: nat): Option<(int, nat)>
    requires start < |data|
  {
    match Find(data, END, start + 1, |data|)
    case None => None
    case Some(end) =>
      if IsSigned(data[start + 1..end]) then Some((SignedValue(data[start + 1..end]), end + 1)) else None
  }

  lemma IntegerIsFound(data: Bytes, start: nat, n: int)
    requires StandsAt(Encode(Int(n)), data, start)
    ensures start < |data| && IntegerAt(data, start).Some?
  {
    IntStands(data, start, n);
    SignedReadsBack(n);
    hide Encode, Signed, IsSigned, SignedValue;
  }

  lemma IntegerIsRead(data: Bytes, start: nat, depth: nat)
    requires depth <= MAX_DEPTH && start < |data| && data[start] == INT && IntegerAt(data, start).Some?
    ensures var (n, end) := IntegerAt(data, start).value;
      Reads(data, start, depth, Some(Int(n)), end)
  {
    var end := Find(data, END, start + 1, |data|).value;
    SignedIsCanonical(data[start + 1..end]);
    hide Signed, SignedValue, IsSigned;
    assert data[start..end + 1] == [INT] + data[start + 1..end] + [END];
  }

  lemma IntegerReading(data: Bytes, start: nat, depth: nat)
    requires depth <= MAX_DEPTH && start < |data| && data[start] == INT
    ensures match IntegerAt(data, start)
      case Some((n, end)) => Reads(data, start, depth, Some(Int(n)), end)
      case None => forall end: nat :: Reads(data, start, depth, None, end)
  {
    if IntegerAt(data, start).Some? {
      IntegerIsRead(data, start, depth);
    } else {
      hide IntegerAt;
      forall v | Fits(v, depth) ensures !StandsAt(Encode(v), data, start) {
        if StandsAt(Encode(v), data, start) {
          KindAt(data, start, v);
          IntegerIsFound(data, start, v.number);
        }
      }
    }
  }

  function StringAt(data: Bytes, start: nat): (r: Option<(Bytes, nat)>)
    requires start < |data|
    ensures r.Some? ==> start < r.value.1 <= |data|
  {
    match Find(data, COLON, start, start + MAX_LENGTH_DIGITS + 1)
    case None => None
    case Some(colon) =>
      if !IsNumeral(data[start..colon]) || NumeralValue(data[start..colon]) > |data| - (colon + 1) then None
      else
        var end := colon + 1 + NumeralValue(data[start..colon]);
        Some((data[colon + 1..end], end))
  }

  lemma StringIsFound(data: Bytes, start: nat, s: Bytes)
    requires StringFits(s) && StandsAt(EncodeString(s), data, start)
    ensures start < |data| && StringAt(data, start).Some?
  {
    StringStands(data, start, s);
    NumeralReadsBack(|s|);
    hide EncodeString, Numeral, NumeralValue;
  }

  lemma StringSpans(data: Bytes, start: nat)
    requires start < |data| && StringAt(data, start).Some?
    ensures var (s, end) := StringAt(data, start).value; StringFits(s) && Spans(EncodeString(s), data, start, end)
  {
    var colon := Find(data, COLON, start, start + MAX_LENGTH_DIGITS + 1).value;
    var (s, end) := StringAt(data, start).value;
    NumeralIsCanonical(data[start..colon]);
    hide Numeral, NumeralValue, IsNumeral;
    assert data[start..end] == data[start..colon] + [data[colon]] + data[colon + 1..end];
  }

  lemma StringIsRead(data: Bytes, start: nat, depth: nat)
    requires depth <= MAX_DEPTH && start < |data| && StringAt(data, start).Some?
    ensures var (s, end) := StringAt(data, start).value;
      Reads(data, start, depth, Some(Str(s)), end)
  {
    var (s, end) := StringAt(data, start).value;
    StringSpans(data, start);
    assert Encode(Str(s)) == EncodeString(s);
    hide EncodeString, StringAt;
  }

  lemma StringReading(data: Bytes, start: nat, depth: nat)
    requires depth <= MAX_DEPTH && start < |data| && data[start] !in {INT, LIST, DICT}
    ensures match StringAt(data, start)
      case Some((s, end)) => Reads(data, start, depth, Some(Str(s)), end)
      case None => forall end: nat :: Reads(data, start, depth, None, end)
  {
    if StringAt(data, start).Some? {
      StringIsRead(data, start, depth);
    } else {
      hide EncodeString, StringAt, StringFits;
      forall v | Fits(v, depth) ensures !StandsAt(Encode(v), data, start) {
        if StandsAt(Encode(v), data, start) {
          KindAt(data, start, v);
          StringIsFound(data, start, v.bytes);
        }
      }
    }
  }

  // ---- Lists and dictionaries ----

  lemma ListReading(data: Bytes, start: nat, depth: nat, items: Option<seq<Value>>, end: nat)
    requires depth <= MAX_DEPTH && start < |data| && data[start] == LIST
    requires ReadsItems(data, start + 1, depth + 1, items, end)
    ensures Reads(data, start, depth, if items.Some? then Some(List(items.value)) else None, end)
  {
    if items.Some? {
      hide EncodeItems;
      var body := EncodeItems(items.value) + [END];
      assert data[start..end] == [LIST] + data[start + 1..end];
      assert Encode(List(items.value)) == [LIST] + body;
    } else {
      forall v | Fits(v, depth) ensures !StandsAt(Encode(v), data, start) {
        if StandsAt(Encode(v), data, start) {
          KindAt(data, start, v);
          assert ItemsFit(v.items, depth + 1);
          InsideStands(data, start, v);
        }
      }
    }
  }

  lemma InsideStands(data: Bytes, start: nat, v: Value)
    requires StandsAt(Encode(v), data, start)
    ensures v.List? ==> StandsAt(EncodeItems(v.items) + [END], data, start + 1)
    ensures v.Dict? ==> StandsAt(EncodeFields(v.fields) + [END], data, start + 1)
  {
    hide EncodeItems, EncodeFields, EncodeString;
    var e := Encode(v);
    assert data[start..] == e + data[start + |e|..];
    assert data[start + 1..] == data[start..][1..] == e[1..] + data[start + |e|..];
    Inside(v, []);
    assert e + [] == e;
    assert v.List? ==> e[1..] == EncodeItems(v.items) + [END];
    assert v.Dict? ==> e[1..] == EncodeFields(v.fields) + [END];
  }

  lemma DictReading(data: Bytes, start: nat, depth: nat, fields: Option<seq<Field<Value>>>, end: nat)
    requires depth <= MAX_DEPTH && start < |data| && data[start] == DICT
    requires ReadsFields(data, start + 1, depth + 1, fields, end)
    ensures Reads(data, start, depth, if fields.Some? then Some(Dict(fields.value)) else None, end)
  {
    if fields.Some? {
      hide EncodeFields;
      var body := EncodeFields(fields.value) + [END];
      assert data[start..end] == [DICT] + data[start + 1..end];
      assert Encode(Dict(fields.value)) == [DICT] + body;
      forall i | 0 <= i < |fields.value| ensures StringFits(fields.value[i].key) {
        assert Fits(Str(fields.value[i].key), depth + 1);
      }
    } else {
      forall v | Fits(v, depth) ensures !StandsAt(Encode(v), data, start) {
        if StandsAt(Encode(v), data, start) {
          KindAt(data, start, v);
          InsideStands(data, start, v);
          FieldsOf(v, depth);
        }
      }
    }
  }

  lemma FieldsOf(v: Value, depth: nat)
    requires v.Dict? && Fits(v, depth)
    ensures FieldsFit(v.fields, depth + 1) && |v.fields| <= MAX_ENTRIES
  {
    forall i | 0 <= i < |v.fields| ensures Fits(Str(v.fields[i].key), depth + 1) {
      assert Fits(v.fields[i].value, depth + 1);
    }
  }

  /** No list within the limits can be read when the next item cannot, or when too many have been. */
  lemma ListIsStuck(data: Bytes, start: nat, at: nat, items: seq<Value>, depth: nat, next: Option<Value>, end: nat)
    requires Spans(EncodeItems(items), data, start, at)
    requires |items| > MAX_ENTRIES ||
             (!(at < |data| && data[at] == END) && next == None && Reads(data, at, depth, next, end))
    ensures forall all | ItemsFit(all, depth) :: !StandsAt(EncodeItems(all) + [END], data, start)
  {
    hide Encode, EncodeItems, Fits;
    forall all | ItemsFit(all, depth) ensures !StandsAt(EncodeItems(all) + [END], data, start) {
      if StandsAt(EncodeItems(all) + [END], data, start) {
        assert forall i | 0 <= i < |all| :: Fits(all[i], depth);
        ListGoesOn(data, start, at, items, all);
      }
    }
  }

  lemma StandsInTurn(e: Bytes, f: Bytes, data: Bytes, at: nat)
    requires StandsAt(e + f, data, at)
    ensures StandsAt(e, data, at) && StandsAt(f, data, at + |e|)
  {
    var rest := data[at + |e + f|..];
    assert data[at..] == (e + f) + rest;
    Regroup(e, f, rest);
    assert data[at + |e|..] == data[at..][|e|..];
  }

  lemma FieldFits(fields: seq<Field<Value>>, depth: nat, i: nat)
    requires FieldsFit(fields, depth) && i < |fields|
    ensures Fits(Str(fields[i].key), depth) && Fits(fields[i].value, depth)
    ensures Encode(Str(fields[i].key)) == EncodeString(fields[i].key)
  {
    hide EncodeString;
  }

  /** Any dictionary encoded at the start has the key and the value that are read next. */
  lemma DictReadsOn(data: Bytes, start: nat, at: nat, fields: seq<Field<Value>>, all: seq<Field<Value>>, depth: nat,
                    key: Option<Value>, middle: nat)
    requires Spans(EncodeFields(fields), data, start, at) && !(at < |data| && data[at] == END)
    requires FieldsFit(all, depth) && StandsAt(EncodeFields(all) + [END], data, start)
    requires Reads(data, at, depth, key, middle)
    ensures |fields| < |all| && fields <= all && key == Some(Str(all[|fields|].key))
    ensures Fits(all[|fields|].value, depth) && StandsAt(Encode(all[|fields|].value), data, middle)
  {
    hide *;
    DictGoesOn(data, start, at, fields, all);
    var f := all[|fields|];
    FieldFits(all, depth, |fields|);
    StandsInTurn(EncodeString(f.key), Encode(f.value), data, at);
    OnlyReading(data, at, depth, key, middle, Str(f.key));
  }

  lemma BadKey(data: Bytes, start: nat, at: nat, fields: seq<Field<Value>>, depth: nat, key: Option<Value>, middle: nat)
    requires Spans(EncodeFields(fields), data, start, at) && !(at < |data| && data[at] == END)
    requires Reads(data, at, depth, key, middle)
    requires key.None? || !key.value.Str? || (fields != [] && !Below(fields[|fields| - 1].key, key.value.bytes))
    ensures forall all | FieldsFit(all, depth) :: !StandsAt(EncodeFields(all) + [END], data, start)
  {
    hide Encode, EncodeFields, Fits, Below, Reads;
    forall all | FieldsFit(all, depth) ensures !StandsAt(EncodeFields(all) + [END], data, start) {
      if StandsAt(EncodeFields(all) + [END], data, start) {
        DictReadsOn(data, start, at, fields, all, depth, key, middle);
      }
    }
  }

  lemma BadValue(data: Bytes, start: nat, at: nat, fields: seq<Field<Value>>, depth: nat, key: Option<Value>,
                 middle: nat, end: nat)
    requires Spans(EncodeFields(fields), data, start, at) && !(at < |data| && data[at] == END)
    requires Reads(data, at, depth, key, middle) && Reads(data, middle, depth, None, end)
    ensures forall all | FieldsFit(all, depth) :: !StandsAt(EncodeFields(all) + [END], data, start)
  {
    hide Encode, EncodeFields, Fits;
    forall all | FieldsFit(all, depth) ensures !StandsAt(EncodeFields(all) + [END], data, start) {
      if StandsAt(EncodeFields(all) + [END], data, start) {
        DictReadsOn(data, start, at, fields, all, depth, key, middle);
      }
    }
  }

  lemma TooManyFields(data: Bytes, start: nat, at: nat, fields: seq<Field<Value>>)
    requires Spans(EncodeFields(fields), data, start, at) && |fields| > MAX_ENTRIES
    ensures forall all | |all| <= MAX_ENTRIES :: !StandsAt(EncodeFields(all) + [END], data, start)
  {
    hide EncodeFields;
    forall all | |all| <= MAX_ENTRIES ensures !StandsAt(EncodeFields(all) + [END], data, start) {
      if StandsAt(EncodeFields(all) + [END], data, start) { DictGoesOn(data, start, at, fields, all); }
    }
  }

  lemma AppendSpan(e: Bytes, f: Bytes, data: Bytes, start: nat, at: nat, end: nat)
    requires Spans(e, data, start, at) && Spans(f, data, at, end)
    ensures Spans(e + f, data, start, end)
  {
    assert data[start..end] == data[start..at] + data[at..end];
  }

  // ---- The cursor ----

  class Decoder {
    const data: Bytes
    var offset: nat

    constructor (data: Bytes)
      ensures this.data == data && offset == 0
    {
      this.data := data;
      offset := 0;
    }

    /** Is the next byte the end marker? A slice past the end is empty, so there it is not. */
    predicate AtEnd()
      reads this
    {
      offset < |data| && data[offset] == END
    }

    method Parse(depth: nat) returns (r: Option<Value>)
      requires offset <= |data|
      modifies this
      ensures Reads(data, old(offset), depth, r, offset)
      decreases if depth > MAX_DEPTH then 0 else MAX_DEPTH + 1 - depth, 1
    {
      if depth > MAX_DEPTH || offset >= |data| {
        forall v | Fits(v, depth) ensures !StandsAt(Encode(v), data, offset) { }
        return None;
      }
      hide Encode, EncodeItems, EncodeFields, Fits, Reads;
      ghost var start := offset;
      var marker := data[offset];
      if marker == INT {
        IntegerReading(data, start, depth);
        var found := IntegerAt(data, offset);
        if found.None? {
          return None;
        }
        offset := found.value.1;
        r := Some(Int(found.value.0));
      } else if marker == LIST {
        offset := offset + 1;
        var items := ParseItems(depth + 1);
        ListReading(data, start, depth, items, offset);
        r := if items.Some? then Some(List(items.value)) else None;
      } else if marker == DICT {
        offset := offset + 1;
        var fields := ParseFields(depth + 1);
        DictReading(data, start, depth, fields, offset);
        r := if fields.Some? then Some(Dict(fields.value)) else None;
      } else {
        StringReading(data, start, depth);
        var found := StringAt(data, offset);
        if found.None? {
          return None;
        }
        offset := found.value.1;
        r := Some(Str(found.value.0));
      }
    }

    method ParseItems(depth: nat) returns (r: Option<seq<Value>>)
      requires offset <= |data| && 0 < depth <= MAX_DEPTH + 1
      modifies this
      ensures ReadsItems(data, old(offset), depth, r, offset)
      decreases MAX_DEPTH + 2 - depth, 0
    {
      ghost var start := offset;
      var items: seq<Value> := [];
      while !AtEnd()
        invariant start <= offset <= |data| && ItemsFit(items, depth)
        invariant Spans(EncodeItems(items), data, start, offset)
        decreases |data| - offset
      {
        hide Encode, EncodeItems, Fits;
        ghost var at := offset;
        var item := Parse(depth);
        if item.None? {
          ListIsStuck(data, start, at, items, depth, item, offset);
          return None;
        }
        AppendSpan(EncodeItems(items), Encode(item.value), data, start, at, offset);
        EncodeItemsAppend(items, item.value);
        items := items + [item.value];
        if |items| > MAX_ENTRIES {
          ListIsStuck(data, start, offset, items, depth, item, offset);
          return None;
        }
      }
      hide Encode, EncodeItems, Fits;
      AppendSpan(EncodeItems(items), [END], data, start, offset, offset + 1);
      offset := offset + 1;
      r := Some(items);
    }

    method ParseFields(depth: nat) returns (r: Option<seq<Field<Value>>>)
      requires offset <= |data| && 0 < depth <= MAX_DEPTH + 1
      modifies this
      ensures ReadsFields(data, old(offset), depth, r, offset)
      decreases MAX_DEPTH + 2 - depth, 0
    {
      NoFieldsYet(data, offset, depth);
      hide Encode, EncodeFields, EncodeString, Fits, Below, Reads, ReadsFields, FieldsFit, Spans, StandsAt;
      ghost var start := offset;
      var fields: seq<Field<Value>> := [];
      var previous: Option<Bytes> := None;
      while !AtEnd()
        invariant start <= offset <= |data| && FieldsFit(fields, depth) && |fields| <= MAX_ENTRIES
        invariant Spans(EncodeFields(fields), data, start, offset)
        invariant previous == if fields == [] then None else Some(fields[|fields| - 1].key)
        decreases |data| - offset
      {
        ghost var at := offset;
        var key := Parse(depth);
        ghost var middle := offset;
        if key.None? || !key.value.Str? || (previous.Some? && !Below(previous.value, key.value.bytes)) {
          BadKey(data, start, at, fields, depth, key, middle);
          NoFields(data, start, depth, middle);
          return None;
        }
        ReadsAdvance(data, at, depth, key, middle);
        var value := Parse(depth);
        if value.None? {
          BadValue(data, start, at, fields, depth, key, middle, offset);
          NoFields(data, start, depth, offset);
          return None;
        }
        ReadsAdvance(data, middle, depth, value, offset);
        ReadField(data, start, at, middle, offset, fields, key.value, value.value);
        FieldsGrow(fields, key.value.bytes, value.value, depth);
        previous := Some(key.value.bytes);
        fields := fields + [Field(key.value.bytes, value.value)];
        if |fields| > MAX_ENTRIES {
          TooManyFields(data, start, offset, fields);
          NoFields(data, start, depth, offset);
          return None;
        }
      }
      FieldsRead(data, start, depth, fields, offset);
      offset := offset + 1;
      r := Some(fields);
    }
  }

  lemma NoFieldsYet(data: Bytes, start: nat, depth: nat)
    requires start <= |data|
    ensures FieldsFit([], depth) && Spans(EncodeFields([]), data, start, start)
  {
  }

  lemma NoFields(data: Bytes, start: nat, depth: nat, end: nat)
    requires forall all | |all| <= MAX_ENTRIES && FieldsFit(all, depth) ::
               !StandsAt(EncodeFields(all) + [END], data, start)
    ensures ReadsFields(data, start, depth, None, end)
  {
    hide FieldsFit, StandsAt, EncodeFields;
  }

  lemma FieldsRead(data: Bytes, start: nat, depth: nat, fields: seq<Field<Value>>, at: nat)
    requires |fields| <= MAX_ENTRIES && FieldsFit(fields, depth) && Spans(EncodeFields(fields), data, start, at)
    requires at < |data| && data[at] == END
    ensures ReadsFields(data, start, depth, Some(fields), at + 1)
  {
    hide FieldsFit, EncodeFields;
    AppendSpan(EncodeFields(fields), [END], data, start, at, at + 1);
  }

  lemma FieldsGrow(fields: seq<Field<Value>>, key: Bytes, value: Value, depth: nat)
    requires FieldsFit(fields, depth) && Fits(Str(key), depth) && Fits(value, depth)
    requires fields != [] ==> Below(fields[|fields| - 1].key, key)
    ensures FieldsFit(fields + [Field(key, value)], depth)
  {
    hide Fits, Below;
  }

  lemma ReadsAdvance(data: Bytes, start: nat, depth: nat, r: Option<Value>, end: nat)
    requires Reads(data, start, depth, r, end) && r.Some?
    ensures start < end <= |data| && Spans(Encode(r.value), data, start, end) && Fits(r.value, depth)
  {
    hide Encode, Fits;
  }

  lemma ReadField(data: Bytes, start: nat, at: nat, middle: nat, end: nat, fields: seq<Field<Value>>, key: Value,
                  value: Value)
    requires Spans(EncodeFields(fields), data, start, at) && key.Str?
    requires Spans(Encode(key), data, at, middle) && Spans(Encode(value), data, middle, end)
    ensures Spans(EncodeFields(fields + [Field(key.bytes, value)]), data, start, end)
  {
    hide EncodeFields, EncodeString;
    var f := Field(key.bytes, value);
    assert Encode(key) == EncodeString(key.bytes);
    hide Encode;
    AppendSpan(EncodeFields(fields), EncodeString(key.bytes), data, start, at, middle);
    AppendSpan(EncodeFields(fields) + EncodeString(key.bytes), Encode(value), data, start, middle, end);
    EncodeFieldsAppend(fields, f);
  }
}
