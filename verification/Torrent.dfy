/** `inspect_torrent`: which bytes are version 1 torrent metadata, and what they describe. */
module TorrentMetadata {
  import opened Options
  import opened Bencode
  import opened Decoding
  import opened KeyedFields

  const MAX_SIZE := 16 * 1024 * 1024
  const MAX_FILES := 4096
  const HASH_SIZE := 20

  const INFO: Bytes := [105, 110, 102, 111]                                                      // info
  const NAME: Bytes := [110, 97, 109, 101]                                                       // name
  const PIECE_LENGTH: Bytes := [112, 105, 101, 99, 101, 32, 108, 101, 110, 103, 116, 104]        // piece length
  const PIECES: Bytes := [112, 105, 101, 99, 101, 115]                                           // pieces
  const META_VERSION: Bytes := [109, 101, 116, 97, 32, 118, 101, 114, 115, 105, 111, 110]        // meta version
  const FILE_TREE: Bytes := [102, 105, 108, 101, 32, 116, 114, 101, 101]                         // file tree
  const FILES: Bytes := [102, 105, 108, 101, 115]                                                // files
  const PATH: Bytes := [112, 97, 116, 104]                                                       // path
  const LENGTH: Bytes := [108, 101, 110, 103, 116, 104]                                          // length
  const ATTR: Bytes := [97, 116, 116, 114]                                                       // attr

  const SLASH: Byte := 47
  const BACKSLASH: Byte := 92
  const DOT: Byte := 46

  /** A path is kept as its UTF-8 bytes. */
  datatype File = File(path: Bytes, length: nat)

  /** The two digests are identified with the bytes they are taken of. */
  datatype Inspected = Inspected(hashed: Bytes, metadata: Bytes, files: seq<File>)

  // ---- `isinstance` checks on what a lookup found ----

  function IntIn(found: Option<Value>): Option<int> {
    if found.Some? && found.value.Int? then Some(found.value.number) else None
  }

  function BytesIn(found: Option<Value>): Option<Bytes> {
    if found.Some? && found.value.Str? then Some(found.value.bytes) else None
  }

  function ItemsIn(found: Option<Value>): Option<seq<Value>> {
    if found.Some? && found.value.List? then Some(found.value.items) else None
  }

  // ---- Paths ----

  predicate Continues(s: Bytes, i: nat) {
    i < |s| && 0x80 <= s[i] <= 0xBF
  }

  /** Well-formed UTF-8, table 3-7 of the Unicode standard. */
  predicate IsUtf8(s: Bytes) {
    if s == [] then true
    else if s[0] <= 0x7F then IsUtf8(s[1..])
    else if 0xC2 <= s[0] <= 0xDF then Continues(s, 1) && IsUtf8(s[2..])
    else if 0xE0 <= s[0] <= 0xEF then
      && Continues(s, 1) && Continues(s, 2)
      && (s[0] == 0xE0 ==> s[1] >= 0xA0) && (s[0] == 0xED ==> s[1] <= 0x9F)
      && IsUtf8(s[3..])
    else if 0xF0 <= s[0] <= 0xF4 then
      && Continues(s, 1) && Continues(s, 2) && Continues(s, 3)
      && (s[0] == 0xF0 ==> s[1] >= 0x90) && (s[0] == 0xF4 ==> s[1] <= 0x8F)
      && IsUtf8(s[4..])
    else false
  }

  function SafeComponent(raw: Option<Value>): Option<Bytes> {
    if BytesIn(raw).None? then None
    else
      var s := BytesIn(raw).value;
      if !IsUtf8(s) || s == [] || s == [DOT] || s == [DOT, DOT] || SLASH in s || BACKSLASH in s || COLON in s ||
         exists b :: b in s && b < 32
      then None else Some(s)
  }

  function JoinPath(name: Bytes, parts: seq<Value>): Option<Bytes> {
    if parts == [] then Some(name)
    else
      match (JoinPath(name, parts[..|parts| - 1]), SafeComponent(Some(parts[|parts| - 1])))
      case (Some(front), Some(last)) => Some(front + [SLASH] + last)
      case _ => None
  }

  // ---- The file list ----

  function FileOf(name: Bytes, raw: Value): Option<File> {
    if !raw.Dict? || Lookup(raw.fields, ATTR).Some? then None
    else
      match (ItemsIn(Lookup(raw.fields, PATH)), IntIn(Lookup(raw.fields, LENGTH)))
      case (Some(parts), Some(length)) =>
        if parts == [] || length <= 0 || JoinPath(name, parts).None? then None
        else Some(File(JoinPath(name, parts).value, length))
      case _ => None
  }

  function FilesOf(name: Bytes, raws: seq<Value>): Option<seq<File>> {
    if raws == [] then Some([])
    else
      match (FilesOf(name, raws[..|raws| - 1]), FileOf(name, raws[|raws| - 1]))
      case (Some(front), Some(last)) => Some(front + [last])
      case _ => None
  }

  function TotalBytes(files: seq<File>): nat {
    if files == [] then 0 else TotalBytes(files[..|files| - 1]) + files[|files| - 1].length
  }

  predicate DistinctPaths(files: seq<File>) {
    forall i, j :: 0 <= i < j < |files| ==> files[i].path != files[j].path
  }

  /** The single file, or the listed ones, before the checks over all of them. */
  function ListedFiles(name: Bytes, info: seq<Field<Value>>): Option<seq<File>> {
    if Lookup(info, FILES).Some? then
      match ItemsIn(Lookup(info, FILES))
      case Some(raws) => if 1 <= |raws| <= MAX_FILES then FilesOf(name, raws) else None
      case None => None
    else
      match IntIn(Lookup(info, LENGTH))
      case Some(length) => if length > 0 then Some([File(name, length)]) else None
      case None => None
  }

  predicate PiecesCover(files: seq<File>, pieceLength: int, pieces: Bytes) {
    pieceLength > 0 && |pieces| == ((TotalBytes(files) + pieceLength - 1) / pieceLength) * HASH_SIZE
  }

  function InfoFiles(info: seq<Field<Value>>): Option<seq<File>> {
    var name, pieceLength := SafeComponent(Lookup(info, NAME)), IntIn(Lookup(info, PIECE_LENGTH));
    var pieces := BytesIn(Lookup(info, PIECES));
    if Lookup(info, META_VERSION).Some? || Lookup(info, FILE_TREE).Some? || name.None? || pieceLength.None? ||
       pieceLength.value <= 0 || pieces.None?
    then None
    else
      match ListedFiles(name.value, info)
      case None => None
      case Some(files) =>
        if DistinctPaths(files) && PiecesCover(files, pieceLength.value, pieces.value) then Some(files) else None
  }

  // ---- Torrents ----

  function EncodeRoot(root: seq<Field<Value>>): Bytes {
    [DICT] + EncodeFields(root) + [END]
  }

  /** The root dictionary is held to every limit of a dictionary but the number of its entries. */
  ghost predicate IsRoot(data: Bytes, root: seq<Field<Value>>) {
    FieldsFit(root, 1) && data == EncodeRoot(root)
  }

  ghost predicate IsTorrent(data: Bytes, root: seq<Field<Value>>, t: Inspected) {
    && |data| <= MAX_SIZE && IsRoot(data, root)
    && t.metadata == data
    && Lookup(root, INFO).Some? && Lookup(root, INFO).value.Dict?
    && t.hashed == Encode(Lookup(root, INFO).value)
    && InfoFiles(Lookup(root, INFO).value.fields) == Some(t.files)
  }

  lemma RootIsUnique(a: seq<Field<Value>>, b: seq<Field<Value>>)
    requires EncodeRoot(a) == EncodeRoot(b)
    ensures a == b
  {
    hide EncodeFields;
    assert EncodeFields(a) + ([END] + []) == EncodeRoot(a)[1..];
    assert EncodeFields(b) + [END] + [] == EncodeRoot(b)[1..];
    FieldsPrefix(a, b, [END] + [], []);
    NextField(b[|a|..], []);
  }

  /** Torrent bytes have one reading. */
  lemma TorrentIsUnique(data: Bytes, a: seq<Field<Value>>, s: Inspected, b: seq<Field<Value>>, t: Inspected)
    requires IsTorrent(data, a, s) && IsTorrent(data, b, t)
    ensures a == b && s == t
  {
    hide EncodeRoot, InfoFiles, FieldsFit, Encode, Lookup;
    RootIsUnique(a, b);
  }

  // ---- Inspection ----

  lemma {:induction false} NoPathFrom(name: Bytes, parts: seq<Value>, i: nat)
    requires i <= |parts| && JoinPath(name, parts[..i]).None?
    ensures JoinPath(name, parts).None?
    decreases |parts| - i
  {
    if i < |parts| {
      assert parts[..i + 1][..i] == parts[..i];
      NoPathFrom(name, parts, i + 1);
    } else {
      assert parts[..i] == parts;
    }
  }

  lemma {:induction false} NoFilesFrom(name: Bytes, raws: seq<Value>, i: nat)
    requires i <= |raws| && FilesOf(name, raws[..i]).None?
    ensures FilesOf(name, raws).None?
    decreases |raws| - i
  {
    if i < |raws| {
      assert raws[..i + 1][..i] == raws[..i];
      NoFilesFrom(name, raws, i + 1);
    } else {
      assert raws[..i] == raws;
    }
  }

  method BuildPath(name: Bytes, parts: seq<Value>) returns (path: Option<Bytes>)
    ensures path == JoinPath(name, parts)
  {
    var joined := name;
    for i := 0 to |parts|
      invariant JoinPath(name, parts[..i]) == Some(joined)
    {
      assert parts[..i + 1][..i] == parts[..i];
      var component := SafeComponent(Some(parts[i]));
      if component.None? {
        NoPathFrom(name, parts, i + 1);
        return None;
      }
      joined := joined + [SLASH] + component.value;
    }
    assert parts[..|parts|] == parts;
    path := Some(joined);
  }

  method BuildFiles(name: Bytes, raws: seq<Value>) returns (r: Option<seq<File>>)
    ensures r == FilesOf(name, raws)
  {
    var files: seq<File> := [];
    for i := 0 to |raws|
      invariant FilesOf(name, raws[..i]) == Some(files)
    {
      assert raws[..i + 1][..i] == raws[..i];
      var raw, file := raws[i], None;
      if raw.Dict? && Lookup(raw.fields, ATTR).None? {
        var parts, length := ItemsIn(Lookup(raw.fields, PATH)), IntIn(Lookup(raw.fields, LENGTH));
        if parts.Some? && parts.value != [] && length.Some? && length.value > 0 {
          var path := BuildPath(name, parts.value);
          file := if path.Some? then Some(File(path.value, length.value)) else None;
        }
      }
      assert file == FileOf(name, raw);
      if file.None? {
        NoFilesFrom(name, raws, i + 1);
        return None;
      }
      files := files + [file.value];
    }
    assert raws[..|raws|] == raws;
    r := Some(files);
  }

  method InspectInfo(info: seq<Field<Value>>) returns (r: Option<seq<File>>)
    ensures r == InfoFiles(info)
  {
    if Lookup(info, META_VERSION).Some? || Lookup(info, FILE_TREE).Some? {
      return None;
    }
    var name := SafeComponent(Lookup(info, NAME));
    var pieceLength, pieces := IntIn(Lookup(info, PIECE_LENGTH)), BytesIn(Lookup(info, PIECES));
    if name.None? || pieceLength.None? || pieceLength.value <= 0 || pieces.None? {
      return None;
    }
    var files: seq<File> := [];
    if Lookup(info, FILES).Some? {
      var raws := ItemsIn(Lookup(info, FILES));
      if raws.None? || !(1 <= |raws.value| <= MAX_FILES) {
        return None;
      }
      var built := BuildFiles(name.value, raws.value);
      if built.None? {
        return None;
      }
      files := built.value;
    } else {
      var length := IntIn(Lookup(info, LENGTH));
      if length.None? || length.value <= 0 {
        return None;
      }
      files := [File(name.value, length.value)];
    }
    assert ListedFiles(name.value, info) == Some(files);
    if !DistinctPaths(files) || !PiecesCover(files, pieceLength.value, pieces.value) {
      return None;
    }
    r := Some(files);
  }

  lemma RootStands(data: Bytes, root: seq<Field<Value>>)
    requires data == EncodeRoot(root)
    ensures |data| >= 2 && data[0] == DICT && StandsAt(EncodeFields(root) + [END], data, 1)
  {
    hide EncodeFields;
    assert data[1..] == EncodeFields(root) + [END];
  }

  lemma NoTorrent(data: Bytes)
    requires forall all | FieldsFit(all, 1) :: !StandsAt(EncodeFields(all) + [END], data, 1)
    ensures forall root, t :: !IsTorrent(data, root, t)
  {
    hide EncodeFields, FieldsFit, InfoFiles;
    forall root, t ensures !IsTorrent(data, root, t) {
      if IsTorrent(data, root, t) { RootStands(data, root); }
    }
  }

  /** When the fields read so far are followed by the end marker, they are the root or there is none. */
  lemma RootIsRead(data: Bytes, fields: seq<Field<Value>>, at: nat)
    requires data != [] && data[0] == DICT && FieldsFit(fields, 1)
    requires Spans(EncodeFields(fields), data, 1, at) && at < |data| && data[at] == END
    ensures at + 1 == |data| ==> IsRoot(data, fields)
    ensures forall root | IsRoot(data, root) :: root == fields && at + 1 == |data|
  {
    hide EncodeFields, FieldsFit;
    assert at + 1 == |data| ==> data == [data[0]] + data[1..at] + [data[at]];
    forall root | IsRoot(data, root) ensures root == fields && at + 1 == |data| {
      RootStands(data, root);
      DictGoesOn(data, 1, at, fields, root);
    }
  }

  /** The recorded range is where the info dictionary stands, if it has been read. */
  ghost predicate InfoSpan(data: Bytes, root: seq<Field<Value>>, info: Option<(nat, nat)>) {
    match info
    case None => Lookup(root, INFO).None?
    case Some(span) => Lookup(root, INFO).Some? && Spans(Encode(Lookup(root, INFO).value), data, span.0, span.1)
  }

  lemma StartOfRoot(data: Bytes)
    requires data != []
    ensures FieldsFit([], 1) && Spans(EncodeFields([]), data, 1, 1) && InfoSpan(data, [], None)
  {
  }

  lemma RootGrows(data: Bytes, root: seq<Field<Value>>, info: Option<(nat, nat)>, key: Bytes, value: Value,
                  start: nat, end: nat)
    requires FieldsFit(root, 1) && InfoSpan(data, root, info)
    requires Fits(Str(key), 1) && Fits(value, 1) && (root != [] ==> Below(root[|root| - 1].key, key))
    requires Spans(Encode(value), data, start, end)
    ensures FieldsFit(root + [Field(key, value)], 1)
    ensures InfoSpan(data, root + [Field(key, value)], if key == INFO then Some((start, end)) else info)
  {
    hide Encode, Fits, Below;
    var f := Field(key, value);
    assert Increasing(root + [f]);
    IncreasingKeysDiffer(root + [f]);
    hide Increasing;
    LookupAppend(root, f);
  }

  method InspectTorrent(data: Bytes) returns (r: Option<Inspected>)
    ensures r.Some? ==> exists root :: IsTorrent(data, root, r.value)
    ensures r.None? ==> forall root, t :: !IsTorrent(data, root, t)
  {
    hide Encode, EncodeFields, FieldsFit, Below, InfoFiles, Lookup, Fits;
    if !(1 <= |data| <= MAX_SIZE) || data[0] != DICT {
      forall root, t ensures !IsTorrent(data, root, t) {
        if IsTorrent(data, root, t) { RootStands(data, root); }
      }
      return None;
    }
    var decoder := new Decoder(data);
    decoder.offset := 1;
    var root: seq<Field<Value>> := [];
    var info: Option<(nat, nat)> := None;
    var previous: Option<Bytes> := None;
    StartOfRoot(data);
    while !decoder.AtEnd()
      invariant decoder.data == data && 1 <= decoder.offset <= |data| && FieldsFit(root, 1)
      invariant Spans(EncodeFields(root), data, 1, decoder.offset)
      invariant previous == if root == [] then None else Some(root[|root| - 1].key)
      invariant InfoSpan(data, root, info)
      decreases |data| - decoder.offset
    {
      ghost var at := decoder.offset;
      var key := decoder.Parse(1);
      var start := decoder.offset;
      if key.None? || !key.value.Str? || (previous.Some? && !Below(previous.value, key.value.bytes)) {
        BadKey(data, 1, at, root, 1, key, start);
        NoTorrent(data);
        return None;
      }
      var value := decoder.Parse(1);
      if value.None? {
        BadValue(data, 1, at, root, 1, key, start, decoder.offset);
        NoTorrent(data);
        return None;
      }
      previous := Some(key.value.bytes);
      ReadField(data, 1, at, start, decoder.offset, root, key.value, value.value);
      RootGrows(data, root, info, key.value.bytes, value.value, start, decoder.offset);
      root := root + [Field(key.value.bytes, value.value)];
      if key.value.bytes == INFO {
        info := Some((start, decoder.offset));
      }
    }
    RootIsRead(data, root, decoder.offset);
    decoder.offset := decoder.offset + 1;
    if decoder.offset != |data| || info.None? {
      return None;
    }
    var dictionary := Lookup(root, INFO).value;
    if !dictionary.Dict? {
      return None;
    }
    var files := InspectInfo(dictionary.fields);
    if files.None? {
      return None;
    }
    r := Some(Inspected(data[info.value.0..info.value.1], data, files.value));
    assert IsTorrent(data, root, r.value);
  }
}
