/**
 What an accepted torrent's name, paths, lengths and pieces look like, said of
 bytes and of the values its info dictionary holds. Texts are UTF-8 as section 3
 of RFC 3629 encodes code points.
 */
module SafePaths {
  import opened Options
  import opened Bencode
  import opened Decoding
  import opened KeyedFields
  import opened TorrentMetadata

  // ---- UTF-8 ----

  /** A Unicode scalar value: a code point that is no surrogate. */
  predicate IsScalar(c: nat) {
    c < 0xD800 || 0xE000 <= c < 0x110000
  }

  function EncodePoint(c: nat): Bytes
    requires IsScalar(c)
  {
    if c < 0x80 then [c]
    else if c < 0x800 then [0xC0 + c / 64, 0x80 + c % 64]
    else if c < 0x10000 then [0xE0 + c / 4096, 0x80 + c / 64 % 64, 0x80 + c % 64]
    else [0xF0 + c / 262144, 0x80 + c / 4096 % 64, 0x80 + c / 64 % 64, 0x80 + c % 64]
  }

  function EncodePoints(points: seq<nat>): Bytes
    requires forall i :: 0 <= i < |points| ==> IsScalar(points[i])
  {
    if points == [] then [] else EncodePoint(points[0]) + EncodePoints(points[1..])
  }

  /** The bytes encode some text. */
  ghost predicate EncodesText(s: Bytes) {
    exists points: seq<nat> ::
      (forall i :: 0 <= i < |points| ==> IsScalar(points[i])) && EncodePoints(points) == s
  }

  predicate Following(b: Byte) {
    0x80 <= b <= 0xBF
  }

  /** The bytes of one code point as table 3-7 of the Unicode standard bounds them. */
  predicate PointBytes(e: Bytes) {
    || (|e| == 1 && e[0] <= 0x7F)
    || (|e| == 2 && 0xC2 <= e[0] <= 0xDF && Following(e[1]))
    || (|e| == 3 && 0xE0 <= e[0] <= 0xEF && Following(e[1]) && Following(e[2]) &&
        (e[0] == 0xE0 ==> e[1] >= 0xA0) && (e[0] == 0xED ==> e[1] <= 0x9F))
    || (|e| == 4 && 0xF0 <= e[0] <= 0xF4 && Following(e[1]) && Following(e[2]) && Following(e[3]) &&
        (e[0] == 0xF0 ==> e[1] >= 0x90) && (e[0] == 0xF4 ==> e[1] <= 0x8F))
  }

  lemma EncodedPointHasBytes(c: nat)
    requires IsScalar(c)
    ensures PointBytes(EncodePoint(c))
  {
  }

  lemma PointThenRest(e: Bytes, rest: Bytes)
    requires PointBytes(e)
    ensures IsUtf8(e + rest) == IsUtf8(rest)
  {
    var s := e + rest;
    assert s[|e|..] == rest && s[..|e|] == e;
    assert forall i | 0 <= i < |e| :: s[i] == e[i];
  }

  lemma {:induction false} EncodedTextIsUtf8(points: seq<nat>)
    requires forall i :: 0 <= i < |points| ==> IsScalar(points[i])
    ensures IsUtf8(EncodePoints(points))
  {
    if points != [] {
      EncodedTextIsUtf8(points[1..]);
      EncodedPointHasBytes(points[0]);
      PointThenRest(EncodePoint(points[0]), EncodePoints(points[1..]));
    }
  }

  lemma OneByte(a: Byte) returns (c: nat)
    requires a < 0x80
    ensures IsScalar(c) && EncodePoint(c) == [a]
  {
    c := a;
  }

  lemma TwoBytes(a: Byte, b: Byte) returns (c: nat)
    requires 0xC2 <= a < 0xE0 && 0x80 <= b < 0xC0
    ensures IsScalar(c) && EncodePoint(c) == [a, b]
  {
    c := (a as int - 0xC0) * 64 + (b as int - 0x80);
  }

  lemma ThreeBytes(a: Byte, b: Byte, d: Byte) returns (c: nat)
    requires 0xE0 <= a < 0xF0 && 0x80 <= b < 0xC0 && 0x80 <= d < 0xC0
    requires (a == 0xE0 ==> b >= 0xA0) && (a == 0xED ==> b <= 0x9F)
    ensures IsScalar(c) && EncodePoint(c) == [a, b, d]
  {
    var high: int, middle: int, low: int := a - 0xE0, b - 0x80, d - 0x80;
    c := (high * 64 + middle) * 64 + low;
    assert c / 64 == high * 64 + middle && c % 64 == low;
    assert c / 4096 == high && c / 64 % 64 == middle;
  }

  lemma FourBytes(a: Byte, b: Byte, d: Byte, f: Byte) returns (c: nat)
    requires 0xF0 <= a <= 0xF4 && 0x80 <= b < 0xC0 && 0x80 <= d < 0xC0 && 0x80 <= f < 0xC0
    requires (a == 0xF0 ==> b >= 0x90) && (a == 0xF4 ==> b <= 0x8F)
    ensures IsScalar(c) && EncodePoint(c) == [a, b, d, f]
  {
    var top: int, high: int, middle: int, low: int := a - 0xF0, b - 0x80, d - 0x80, f - 0x80;
    c := ((top * 64 + high) * 64 + middle) * 64 + low;
    assert c / 64 == (top * 64 + high) * 64 + middle && c % 64 == low;
    assert c / 4096 == top * 64 + high && c / 64 % 64 == middle;
    assert c / 262144 == top && c / 4096 % 64 == high;
  }

  /** The first code point of well-formed bytes, and what follows it. */
  lemma FirstPoint(s: Bytes) returns (c: nat, rest: Bytes)
    requires s != [] && IsUtf8(s)
    ensures IsScalar(c) && s == EncodePoint(c) + rest && IsUtf8(rest) && |rest| < |s|
  {
    hide EncodePoint;
    if s[0] < 0x80 {
      c := OneByte(s[0]);
      rest := s[1..];
      assert s == [s[0]] + rest;
    } else if s[0] < 0xE0 {
      c := TwoBytes(s[0], s[1]);
      rest := s[2..];
      assert s == [s[0], s[1]] + rest;
    } else if s[0] < 0xF0 {
      c := ThreeBytes(s[0], s[1], s[2]);
      rest := s[3..];
      assert s == [s[0], s[1], s[2]] + rest;
    } else {
      c := FourBytes(s[0], s[1], s[2], s[3]);
      rest := s[4..];
      assert s == [s[0], s[1], s[2], s[3]] + rest;
    }
  }

  lemma TextGrows(c: nat, rest: Bytes)
    requires IsScalar(c) && EncodesText(rest)
    ensures EncodesText(EncodePoint(c) + rest)
  {
    hide EncodePoint, IsScalar;
    var points: seq<nat> :| (forall i :: 0 <= i < |points| ==> IsScalar(points[i])) && EncodePoints(points) == rest;
    assert ([c] + points)[1..] == points;
    assert EncodePoints([c] + points) == EncodePoint(c) + rest;
  }

  lemma EmptyText()
    ensures EncodesText([])
  {
    assert EncodePoints([]) == [];
  }

  lemma {:induction false} Utf8EncodesText(s: Bytes)
    requires IsUtf8(s)
    ensures EncodesText(s)
    decreases |s|
  {
    hide EncodePoint, EncodesText, IsUtf8, IsScalar;
    if s == [] {
      EmptyText();
    } else {
      var c, rest := FirstPoint(s);
      Utf8EncodesText(rest);
      TextGrows(c, rest);
    }
  }

  /** The recognizer accepts exactly the encodings of texts. */
  lemma Utf8IsText(s: Bytes)
    ensures IsUtf8(s) <==> EncodesText(s)
  {
    hide IsUtf8;
    if IsUtf8(s) { Utf8EncodesText(s); }
    if EncodesText(s) {
      var points: seq<nat> :| (forall i :: 0 <= i < |points| ==> IsScalar(points[i])) && EncodePoints(points) == s;
      EncodedTextIsUtf8(points);
    }
  }

  // ---- Paths ----

  /** A name that means one entry of one directory: text, not empty, no dots alone, no separator and no control byte. */
  ghost predicate Component(s: Bytes) {
    && EncodesText(s) && |s| >= 1 && s != [46] && s != [46, 46]
    && (forall i :: 0 <= i < |s| ==> s[i] >= 32 && s[i] != 47 && s[i] != 92 && s[i] != 58)
  }

  ghost predicate Components(parts: seq<Bytes>) {
    |parts| >= 1 && forall i :: 0 <= i < |parts| ==> Component(parts[i])
  }

  /** The parts with single slashes between them. */
  function Slashed(parts: seq<Bytes>): Bytes
    requires |parts| >= 1
  {
    if |parts| == 1 then parts[0] else parts[0] + [47] + Slashed(parts[1..])
  }

  function Texts(parts: seq<Bytes>): seq<Value> {
    seq(|parts|, i requires 0 <= i < |parts| => Str(parts[i]))
  }

  lemma ComponentFits(raw: Option<Value>)
    ensures SafeComponent(raw).Some? <==> raw.Some? && raw.value.Str? && Component(raw.value.bytes)
    ensures SafeComponent(raw).Some? ==> raw == Some(Str(SafeComponent(raw).value))
  {
    hide IsUtf8, EncodesText;
    if raw.Some? && raw.value.Str? {
      var s := raw.value.bytes;
      Utf8IsText(s);
      forall i | 0 <= i < |s| ensures s[i] in s { }
      if Component(s) {
        forall b | b in s ensures b >= 32 && b != SLASH && b != BACKSLASH && b != COLON { }
      }
    }
  }

  lemma {:induction false} SlashedLast(parts: seq<Bytes>, last: Bytes)
    requires |parts| >= 1
    ensures Slashed(parts + [last]) == Slashed(parts) + [47] + last
  {
    if |parts| == 1 {
      assert (parts + [last])[1..] == [last];
    } else {
      assert (parts + [last])[1..] == parts[1..] + [last];
      SlashedLast(parts[1..], last);
    }
  }

  /** A joined path consists of the name and of the components listed. */
  lemma {:induction false} JoinedPath(name: Bytes, values: seq<Value>) returns (parts: seq<Bytes>)
    requires JoinPath(name, values).Some?
    ensures values == Texts(parts) && (forall i :: 0 <= i < |parts| ==> Component(parts[i]))
    ensures JoinPath(name, values) == Some(Slashed([name] + parts))
    decreases |values|
  {
    hide SafeComponent, Component, Slashed;
    if values == [] {
      parts := [];
      assert [name] + parts == [name];
      OnePart(name);
    } else {
      var front, last := values[..|values| - 1], values[|values| - 1];
      var before := JoinedPath(name, front);
      ComponentFits(Some(last));
      parts := before + [last.bytes];
      assert [name] + parts == ([name] + before) + [last.bytes];
      SlashedLast([name] + before, last.bytes);
      assert values == front + [last];
    }
  }

  lemma OnePart(name: Bytes)
    ensures Slashed([name]) == name
  {
  }

  lemma {:induction false} PathJoins(name: Bytes, parts: seq<Bytes>)
    requires forall i :: 0 <= i < |parts| ==> Component(parts[i])
    ensures JoinPath(name, Texts(parts)) == Some(Slashed([name] + parts))
    decreases |parts|
  {
    hide SafeComponent, Component, Slashed;
    if parts == [] {
      assert [name] + parts == [name];
      OnePart(name);
    } else {
      var front, last := parts[..|parts| - 1], parts[|parts| - 1];
      PathJoins(name, front);
      ComponentFits(Some(Str(last)));
      assert Texts(parts)[..|parts| - 1] == Texts(front);
      assert [name] + parts == ([name] + front) + [last];
      SlashedLast([name] + front, last);
    }
  }

  // ---- Files ----

  function Ascii(s: string): Bytes
    requires forall i :: 0 <= i < |s| ==> s[i] as int < 128
  {
    seq(|s|, i requires 0 <= i < |s| => s[i] as int)
  }

  lemma KeysAreSpelled()
    ensures INFO == Ascii("info") && NAME == Ascii("name") && PIECE_LENGTH == Ascii("piece length")
    ensures PIECES == Ascii("pieces") && META_VERSION == Ascii("meta version") && FILE_TREE == Ascii("file tree")
    ensures FILES == Ascii("files") && PATH == Ascii("path") && LENGTH == Ascii("length") && ATTR == Ascii("attr")
  {
  }

  /** The dictionary lists this file under the name: some components, a length, and no attributes. */
  ghost predicate Lists(name: Bytes, raw: Value, file: File) {
    && raw.Dict? && Lookup(raw.fields, ATTR) == None
    && Lookup(raw.fields, LENGTH) == Some(Int(file.length)) && file.length >= 1
    && exists parts :: Components(parts) && Lookup(raw.fields, PATH) == Some(List(Texts(parts))) &&
         file.path == Slashed([name] + parts)
  }

  lemma ListedFile(name: Bytes, raw: Value, file: File)
    ensures FileOf(name, raw) == Some(file) <==> Lists(name, raw, file)
  {
    hide Lookup, Component, JoinPath, Slashed;
    if FileOf(name, raw).Some? {
      var values := ItemsIn(Lookup(raw.fields, PATH)).value;
      var parts := JoinedPath(name, values);
      assert Components(parts);
    }
    if Lists(name, raw, file) {
      var parts :| Components(parts) && Lookup(raw.fields, PATH) == Some(List(Texts(parts))) &&
        file.path == Slashed([name] + parts);
      PathJoins(name, parts);
    }
  }

  lemma {:induction false} FilesAreListed(name: Bytes, raws: seq<Value>, files: seq<File>)
    ensures FilesOf(name, raws) == Some(files) <==>
            |files| == |raws| && forall i :: 0 <= i < |raws| ==> Lists(name, raws[i], files[i])
    decreases |raws|
  {
    hide FileOf, Lists;
    if raws != [] {
      var front, last := raws[..|raws| - 1], raws[|raws| - 1];
      if |files| == |raws| {
        ListedFile(name, last, files[|files| - 1]);
        FilesAreListed(name, front, files[..|files| - 1]);
        assert files == files[..|files| - 1] + [files[|files| - 1]];
      } else if FilesOf(name, raws).Some? {
        FilesAreListed(name, front, FilesOf(name, front).value);
      }
    }
  }

  function AllBytes(files: seq<File>): nat {
    if files == [] then 0 else files[0].length + AllBytes(files[1..])
  }

  lemma {:induction false} BytesAddUp(files: seq<File>)
    ensures TotalBytes(files) == AllBytes(files)
    decreases |files|
  {
    if |files| > 1 {
      var front, last := files[..|files| - 1], files[|files| - 1];
      BytesAddUp(front);
      BytesAddUp(files[1..]);
      BytesAddUp(files[1..|files| - 1]);
      assert files[1..][..|files| - 2] == front[1..] == files[1..|files| - 1];
    } else if |files| == 1 {
      assert files[..0] == files[1..] == [];
    }
  }

  /** Twenty bytes for each piece, as many pieces as the bytes reach into. */
  predicate HashesPieces(total: nat, pieceLength: int, pieces: Bytes) {
    && pieceLength >= 1 && |pieces| % 20 == 0
    && var n := |pieces| / 20;
       (n - 1) * pieceLength < total <= n * pieceLength
  }

  lemma CeilingIs(total: nat, k: int, n: int)
    requires total >= 1 && k >= 1
    ensures (total + k - 1) / k == n <==> (n - 1) * k < total <= n * k
  {
    var q, r := (total + k - 1) / k, (total + k - 1) % k;
    assert total + k - 1 == q * k + r && 0 <= r < k;
    assert (q - 1) * k == q * k - k && (n - 1) * k == n * k - k;
    if (n - 1) * k < total <= n * k {
      if n < q { assert n + 1 <= q; Scaled(n + 1, q, k); }
      if q < n { assert q + 1 <= n; Scaled(q + 1, n, k); }
    }
  }

  lemma Scaled(a: int, b: int, k: int)
    requires a <= b && k >= 0
    ensures a * k <= b * k
  {
  }

  lemma CoverIs(files: seq<File>, pieceLength: int, pieces: Bytes)
    requires files != [] && files[0].length >= 1
    ensures PiecesCover(files, pieceLength, pieces) <==> HashesPieces(AllBytes(files), pieceLength, pieces)
  {
    BytesAddUp(files);
    hide AllBytes, TotalBytes;
    if pieceLength >= 1 {
      assert AllBytes(files) >= 1 by { FirstCounts(files); }
      CeilingIs(AllBytes(files), pieceLength, |pieces| / 20);
    }
  }

  lemma FirstCounts(files: seq<File>)
    requires files != []
    ensures AllBytes(files) >= files[0].length
  {
  }

  // ---- Torrents ----

  /** The info dictionary describes these files as version 1 does. */
  ghost predicate Describes(info: seq<Field<Value>>, files: seq<File>) {
    && Lookup(info, META_VERSION) == None && Lookup(info, FILE_TREE) == None
    && (exists name, pieceLength, pieces ::
          && Lookup(info, NAME) == Some(Str(name)) && Component(name)
          && Lookup(info, PIECE_LENGTH) == Some(Int(pieceLength)) && Lookup(info, PIECES) == Some(Str(pieces))
          && NamesFiles(info, name, files)
          && HashesPieces(AllBytes(files), pieceLength, pieces))
    && (forall i, j | 0 <= i < |files| && 0 <= j < |files| :: files[i].path != files[j].path || i == j)
  }

  /** One file of that name, or each listed file below it. */
  ghost predicate NamesFiles(info: seq<Field<Value>>, name: Bytes, files: seq<File>) {
    var listed: Option<Value> := Lookup(info, FILES);
    if listed == None then
      |files| == 1 && Lookup(info, LENGTH) == Some(Int(files[0].length)) && files[0].length >= 1 &&
      files[0].path == name
    else
      && listed.value.List?
      && var raws := listed.value.items;
      && 1 <= |raws| <= 4096 && |files| == |raws|
      && forall i :: 0 <= i < |raws| ==> Lists(name, raws[i], files[i])
  }

  lemma ListedHasLength(name: Bytes, raw: Value, file: File)
    requires Lists(name, raw, file)
    ensures file.length >= 1
  {
  }

  lemma NamedFiles(info: seq<Field<Value>>, name: Bytes, files: seq<File>)
    ensures TorrentMetadata.ListedFiles(name, info) == Some(files) <==> NamesFiles(info, name, files)
    ensures NamesFiles(info, name, files) ==> files != [] && files[0].length >= 1
  {
    hide Lookup, FilesOf;
    var listed: Option<Value> := Lookup(info, FILES);
    if |files| == 1 && files[0].path == name { assert files == [File(name, files[0].length)]; }
    if listed.Some? && listed.value.List? {
      FilesAreListed(name, listed.value.items, files);
      if NamesFiles(info, name, files) { ListedHasLength(name, listed.value.items[0], files[0]); }
    }
  }

  /** An info dictionary is accepted, with these files, exactly when it describes them. */
  lemma InfoIsAccepted(info: seq<Field<Value>>, files: seq<File>)
    ensures InfoFiles(info) == Some(files) <==> Describes(info, files)
  {
    hide Lookup, SafeComponent, Component, TorrentMetadata.ListedFiles, NamesFiles, PiecesCover, HashesPieces;
    ComponentFits(Lookup(info, NAME));
    if InfoFiles(info) == Some(files) {
      var name := SafeComponent(Lookup(info, NAME)).value;
      NamedFiles(info, name, files);
      CoverIs(files, IntIn(Lookup(info, PIECE_LENGTH)).value, BytesIn(Lookup(info, PIECES)).value);
    }
    if Describes(info, files) {
      var name, pieceLength, pieces :|
        && Lookup(info, NAME) == Some(Str(name)) && Component(name)
        && Lookup(info, PIECE_LENGTH) == Some(Int(pieceLength)) && Lookup(info, PIECES) == Some(Str(pieces))
        && NamesFiles(info, name, files)
        && HashesPieces(AllBytes(files), pieceLength, pieces);
      NamedFiles(info, name, files);
      CoverIs(files, pieceLength, pieces);
      PositivePieces(files, pieceLength, pieces);
    }
  }

  lemma PositivePieces(files: seq<File>, pieceLength: int, pieces: Bytes)
    requires HashesPieces(AllBytes(files), pieceLength, pieces)
    ensures pieceLength >= 1
  {
  }

  /** A path below the name: components with single slashes between them, of which the name is the first. */
  ghost predicate PathBelow(name: Bytes, path: Bytes) {
    exists parts :: Components(parts) && parts[0] == name && path == Slashed(parts)
  }

  lemma ListedPathIsBelow(name: Bytes, raw: Value, file: File)
    requires Lists(name, raw, file) && Component(name)
    ensures PathBelow(name, file.path) && file.length >= 1
  {
    hide Component, Slashed, Lookup;
    var parts :| Components(parts) && Lookup(raw.fields, PATH) == Some(List(Texts(parts))) &&
      file.path == Slashed([name] + parts);
    assert Components([name] + parts);
  }

  lemma NameIsBelow(name: Bytes)
    requires Component(name)
    ensures PathBelow(name, name)
  {
    assert Components([name]) && Slashed([name]) == name;
  }

  /** Every file of accepted bytes lies below the one safe name, with a positive length, and no two at one path. */
  lemma AcceptedPathsAreSafe(data: Bytes, root: seq<Field<Value>>, t: Inspected)
    requires IsTorrent(data, root, t)
    ensures Lookup(root, INFO).Some? && Lookup(root, INFO).value.Dict?
    ensures exists name ::
      && Component(name) && Lookup(Lookup(root, INFO).value.fields, NAME) == Some(Str(name))
      && forall i :: 0 <= i < |t.files| ==> PathBelow(name, t.files[i].path) && t.files[i].length >= 1
    ensures |t.files| >= 1 && forall i, j :: 0 <= i < j < |t.files| ==> t.files[i].path != t.files[j].path
  {
    hide IsRoot, InfoFiles, Lookup, Component, PathBelow, HashesPieces, Lists;
    var info: seq<Field<Value>> := Lookup(root, INFO).value.fields;
    InfoIsAccepted(info, t.files);
    var name, pieceLength, pieces :|
      && Lookup(info, NAME) == Some(Str(name)) && Component(name)
      && Lookup(info, PIECE_LENGTH) == Some(Int(pieceLength)) && Lookup(info, PIECES) == Some(Str(pieces))
      && NamesFiles(info, name, t.files)
      && HashesPieces(AllBytes(t.files), pieceLength, pieces);
    NamedFiles(info, name, t.files);
    NameIsBelow(name);
    var listed: Option<Value> := Lookup(info, FILES);
    if listed.Some? {
      forall i | 0 <= i < |t.files| ensures PathBelow(name, t.files[i].path) && t.files[i].length >= 1 {
        ListedPathIsBelow(name, listed.value.items[i], t.files[i]);
      }
    }
  }

  /** The bytes of a root dictionary within the limits are accepted exactly when its info dictionary describes files. */
  lemma AcceptedExactly(data: Bytes, root: seq<Field<Value>>, files: seq<File>)
    requires FieldsFit(root, 1) && data == Encode(Dict(root)) && |data| <= 16777216
    ensures (exists t :: IsTorrent(data, root, t) && t.files == files) <==>
      Lookup(root, INFO).Some? && Lookup(root, INFO).value.Dict? && Describes(Lookup(root, INFO).value.fields, files)
  {
    hide FieldsFit, EncodeFields, InfoFiles, Lookup, Describes;
    assert data == EncodeRoot(root);
    var found: Option<Value> := Lookup(root, INFO);
    if found.Some? && found.value.Dict? {
      InfoIsAccepted(found.value.fields, files);
      if Describes(found.value.fields, files) {
        assert IsTorrent(data, root, Inspected(Encode(found.value), data, files));
      }
    }
  }
}
