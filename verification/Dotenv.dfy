/** The dotenv printer and parser: values go out as JSON strings and come back line by line. */
module Dotenv {
  import opened Options

  datatype Entry = Entry(key: string, value: string)

  const TAB: char := '\t'
  const NEWLINE: char := '\n'
  const RETURN: char := '\r'
  const QUOTE: char := '\"'
  const APOSTROPHE: char := '\''
  const BACKSLASH: char := '\\'

  // ---- Characters ----

  /** Where `str.splitlines` breaks. */
  predicate Breaks(c: char) {
    c in {NEWLINE, RETURN, '\U{0B}', '\U{0C}', '\U{1C}', '\U{1D}', '\U{1E}', '\U{85}', '\U{2028}', '\U{2029}'}
  }

  /** What `str.strip` removes at both ends. */
  predicate IsSpace(c: char) {
    || c in {' ', TAB, NEWLINE, RETURN, '\U{0B}', '\U{0C}', '\U{1C}', '\U{1D}', '\U{1E}', '\U{1F}', '\U{85}', '\U{A0}'}
    || c in {'\U{1680}', '\U{2028}', '\U{2029}', '\U{202F}', '\U{205F}', '\U{3000}'}
    || '\U{2000}' <= c <= '\U{200A}'
  }

  predicate IsKeyStart(c: char) {
    'a' <= c <= 'z' || 'A' <= c <= 'Z' || c == '_'
  }

  predicate IsKey(s: string) {
    s != "" && IsKeyStart(s[0]) && forall c | c in s :: IsKeyStart(c) || '0' <= c <= '9'
  }

  // ---- JSON strings, section 7 of RFC 8259 ----

  function HexDigit(n: nat): char
    requires n < 16
  {
    "0123456789abcdef"[n]
  }

  function HexValue(c: char): Option<nat> {
    if '0' <= c <= '9' then Some((c - '0') as nat)
    else if 'a' <= c <= 'f' then Some((c - 'a') as nat + 10)
    else if 'A' <= c <= 'F' then Some((c - 'A') as nat + 10)
    else None
  }

  function EscapeChar(c: char): string {
    if c == QUOTE then [BACKSLASH, QUOTE]
    else if c == BACKSLASH then [BACKSLASH, BACKSLASH]
    else if c == NEWLINE then [BACKSLASH, 'n']
    else if c == RETURN then [BACKSLASH, 'r']
    else if c == TAB then [BACKSLASH, 't']
    else if c == '\U{0C}' then [BACKSLASH, 'f']
    else if c == '\U{08}' then [BACKSLASH, 'b']
    else if c < ' ' then [BACKSLASH, 'u', '0', '0', HexDigit(c as nat / 16), HexDigit(c as nat % 16)]
    else [c]
  }

  function Escape(s: string): string {
    if s == "" then "" else EscapeChar(s[0]) + Escape(s[1..])
  }

  /** `json.dumps` without escaping non-ASCII characters. */
  function Quoted(s: string): string {
    [QUOTE] + Escape(s) + [QUOTE]
  }

  /** Four hexadecimal digits. */
  function Code(s: string): Option<nat> {
    if |s| < 4 then None
    else
      match (HexValue(s[0]), HexValue(s[1]), HexValue(s[2]), HexValue(s[3]))
      case (Some(a), Some(b), Some(c), Some(d)) => Some(a * 4096 + b * 256 + c * 16 + d)
      case _ => None
  }

  function PlainEscape(c: char): Option<char> {
    if c == QUOTE || c == BACKSLASH || c == '/' then Some(c)
    else if c == 'n' then Some(NEWLINE)
    else if c == 'r' then Some(RETURN)
    else if c == 't' then Some(TAB)
    else if c == 'f' then Some('\U{0C}')
    else if c == 'b' then Some('\U{08}')
    else None
  }

  /** A code unit, or the two of a surrogate pair, and what follows; a lone surrogate has no `char`. */
  function Unicode(s: string): Option<(char, string)> {
    match Code(s)
    case None => None
    case Some(n) =>
      if !(0xD800 <= n <= 0xDFFF) then Some((n as char, s[4..]))
      else if n >= 0xDC00 || |s| < 10 || s[4] != BACKSLASH || s[5] != 'u' then None
      else
        match Code(s[6..])
        case Some(low) =>
          if 0xDC00 <= low <= 0xDFFF then Some(((0x10000 + (n - 0xD800) * 0x400 + (low - 0xDC00)) as char, s[10..]))
          else None
        case None => None
  }

  /** The rest of a JSON string after its opening quote: its characters, provided nothing follows the closing one. */
  function Unescaped(s: string): Option<string>
    decreases |s|
  {
    if s == "" then None
    else if s[0] == QUOTE then if |s| == 1 then Some("") else None
    else if s[0] < ' ' then None
    else if s[0] != BACKSLASH then Prefixed(s[0], Unescaped(s[1..]))
    else if |s| == 1 then None
    else if PlainEscape(s[1]).Some? then Prefixed(PlainEscape(s[1]).value, Unescaped(s[2..]))
    else if s[1] != 'u' then None
    else
      match Unicode(s[2..])
      case Some((c, rest)) => if |rest| < |s| then Prefixed(c, Unescaped(rest)) else None
      case None => None
  }

  function Prefixed(c: char, rest: Option<string>): Option<string> {
    match rest
    case Some(s) => Some([c] + s)
    case None => None
  }

  // ---- Lines ----

  /** The first line without its break, and what comes after the break; CR LF is one break. */
  function FirstLine(text: string): (string, string) {
    if text == "" then ("", "")
    else if Breaks(text[0]) then
      ("", if text[0] == RETURN && |text| > 1 && text[1] == NEWLINE then text[2..] else text[1..])
    else
      var (line, rest) := FirstLine(text[1..]);
      ([text[0]] + line, rest)
  }

  lemma {:induction false} RestIsShorter(text: string)
    requires text != ""
    ensures |FirstLine(text).1| < |text|
  {
    if !Breaks(text[0]) && text[1..] != "" { RestIsShorter(text[1..]); }
  }

  function Lines(text: string): seq<string>
    decreases |text|
  {
    if text == "" then []
    else
      RestIsShorter(text);
      [FirstLine(text).0] + Lines(FirstLine(text).1)
  }

  function StripLeft(s: string): string {
    if s != "" && IsSpace(s[0]) then StripLeft(s[1..]) else s
  }

  function StripRight(s: string): string {
    if s != "" && IsSpace(s[|s| - 1]) then StripRight(s[..|s| - 1]) else s
  }

  function Strip(s: string): string {
    StripRight(StripLeft(s))
  }

  function IndexOf(s: string, c: char): Option<nat> {
    if s == "" then None
    else if s[0] == c then Some(0)
    else
      match IndexOf(s[1..], c)
      case Some(i) => Some(i + 1)
      case None => None
  }

  lemma {:induction false} IndexOfFinds(s: string, c: char)
    ensures IndexOf(s, c).Some? ==> IndexOf(s, c).value < |s|
  {
    if s != "" && s[0] != c { IndexOfFinds(s[1..], c); }
  }

  // ---- Parsing ----

  datatype Parsed = Blank | Assignment(entry: Entry) | Invalid

  function ParseValue(value: string): Option<string> {
    if value != "" && value[0] == QUOTE then Unescaped(value[1..])
    else if value != "" && value[0] == APOSTROPHE then
      if |value| >= 2 && value[|value| - 1] == APOSTROPHE then Some(value[1..|value| - 1]) else None
    else Some(value)
  }

  function ParseLine(raw: string): Parsed {
    var line := Strip(raw);
    IndexOfFinds(line, '=');
    if line == "" || line[0] == '#' then Blank
    else
      match IndexOf(line, '=')
      case None => Invalid
      case Some(i) =>
        var key, value := Strip(line[..i]), ParseValue(Strip(line[i + 1..]));
        if !IsKey(key) || value.None? then Invalid else Assignment(Entry(key, value.value))
  }

  predicate HasKey(entries: seq<Entry>, key: string) {
    exists i :: 0 <= i < |entries| && entries[i].key == key
  }

  function ParseLines(lines: seq<string>, entries: seq<Entry>): Option<seq<Entry>> {
    if lines == [] then Some(entries)
    else
      match ParseLine(lines[0])
      case Blank => ParseLines(lines[1..], entries)
      case Invalid => None
      case Assignment(entry) =>
        if HasKey(entries, entry.key) then None else ParseLines(lines[1..], entries + [entry])
  }

  function Parse(text: string): Option<seq<Entry>> {
    ParseLines(Lines(text), [])
  }

  /** `parse_env`; the dictionary keeps the order of its keys. */
  method ParseEnv(text: string) returns (entries: Option<seq<Entry>>)
    ensures entries == Parse(text)
  {
    var lines, values := Lines(text), [];
    for i := 0 to |lines|
      invariant ParseLines(lines[i..], values) == Parse(text)
    {
      assert lines[i..][0] == lines[i] && lines[i..][1..] == lines[i + 1..];
      var parsed := ParseLine(lines[i]);
      if parsed.Invalid? {
        return None;
      }
      if parsed.Assignment? {
        if HasKey(values, parsed.entry.key) {
          return None;
        }
        values := values + [parsed.entry];
      }
    }
    entries := Some(values);
  }

  function SerializeEnv(entries: seq<Entry>): string {
    if entries == [] then ""
    else entries[0].key + "=" + Quoted(entries[0].value) + "\n" + SerializeEnv(entries[1..])
  }

  // ---- Quoting is undone ----

  lemma HexReads(n: nat)
    requires n < 16
    ensures HexValue(HexDigit(n)) == Some(n)
  {
  }

  lemma ControlReads(c: char, rest: string)
    requires c < ' ' && |EscapeChar(c)| > 2
    ensures Unescaped(EscapeChar(c) + rest) == Prefixed(c, Unescaped(rest))
  {
    var high, low := HexDigit(c as nat / 16), HexDigit(c as nat % 16);
    HexReads(c as nat / 16);
    HexReads(c as nat % 16);
    var s := EscapeChar(c) + rest;
    assert s == [BACKSLASH, 'u', '0', '0', high, low] + rest;
    hide EscapeChar, HexDigit;
    assert s[2..] == ['0', '0', high, low] + rest && s[2..][4..] == rest;
    assert Code(s[2..]) == Some(c as nat);
    assert Unicode(s[2..]) == Some((c, rest));
  }

  lemma EscapedCharReads(c: char, rest: string)
    ensures Unescaped(EscapeChar(c) + rest) == Prefixed(c, Unescaped(rest))
  {
    var s := EscapeChar(c) + rest;
    if |EscapeChar(c)| == 1 {
      assert s[1..] == rest;
    } else if |EscapeChar(c)| == 2 {
      assert s[2..] == rest;
    } else {
      ControlReads(c, rest);
    }
  }

  lemma {:induction false} EscapedReads(s: string, rest: string)
    ensures Unescaped(Escape(s) + rest) ==
      match Unescaped(rest) case Some(t) => Some(s + t) case None => None
  {
    hide EscapeChar, Unescaped;
    if s == "" {
      assert Escape(s) + rest == rest;
      assert Unescaped(rest).Some? ==> s + Unescaped(rest).value == Unescaped(rest).value;
    } else {
      assert Escape(s) + rest == EscapeChar(s[0]) + (Escape(s[1..]) + rest);
      EscapedCharReads(s[0], Escape(s[1..]) + rest);
      EscapedReads(s[1..], rest);
      assert Unescaped(rest).Some? ==> [s[0]] + (s[1..] + Unescaped(rest).value) == s + Unescaped(rest).value;
    }
  }

  lemma QuotedReads(s: string)
    ensures ParseValue(Quoted(s)) == Some(s)
  {
    assert Quoted(s)[1..] == Escape(s) + [QUOTE];
    EscapedReads(s, [QUOTE]);
    assert s + "" == s;
  }

  /** Cut off before its closing quote, a JSON string is no JSON string. */
  lemma UnclosedFails(s: string)
    ensures ParseValue([QUOTE] + Escape(s)) == None
  {
    assert ([QUOTE] + Escape(s))[1..] == Escape(s) + "";
    EscapedReads(s, "");
  }

  // ---- Line breaks ----

  /** The line breaks that JSON leaves as they are. */
  predicate BareBreak(c: char) {
    c in {'\U{85}', '\U{2028}', '\U{2029}'}
  }

  lemma EscapedCharBreaks(c: char)
    ensures !BareBreak(c) ==> forall b | b in EscapeChar(c) :: !Breaks(b)
    ensures BareBreak(c) ==> EscapeChar(c) == [c] && Breaks(c)
  {
    if c < ' ' {
      HexReads(c as nat / 16);
      HexReads(c as nat % 16);
    }
  }

  lemma {:induction false} EscapeStaysOnLine(s: string)
    requires forall c | c in s :: !BareBreak(c)
    ensures forall b | b in Escape(s) :: !Breaks(b)
  {
    hide EscapeChar, Breaks, BareBreak;
    if s != "" {
      assert s[0] in s && forall c | c in s[1..] :: c in s;
      EscapedCharBreaks(s[0]);
      EscapeStaysOnLine(s[1..]);
    }
  }

  lemma {:induction false} EscapeJoined(a: string, b: string)
    ensures Escape(a + b) == Escape(a) + Escape(b)
  {
    hide EscapeChar;
    if a == "" {
      assert a + b == b;
    } else {
      assert (a + b)[1..] == a[1..] + b;
      EscapeJoined(a[1..], b);
    }
  }

  /** A line ends at the first break after it. */
  lemma {:induction false} LineEndsAt(line: string, stop: char, rest: string)
    requires (forall c | c in line :: !Breaks(c)) && Breaks(stop) && stop != RETURN
    ensures FirstLine(line + [stop] + rest) == (line, rest)
  {
    hide Breaks;
    var text := line + [stop] + rest;
    if line == "" {
      assert text[0] == stop && text[1..] == rest;
    } else {
      assert line[0] in line && forall c | c in line[1..] :: c in line;
      assert text[1..] == line[1..] + [stop] + rest;
      LineEndsAt(line[1..], stop, rest);
      assert [line[0]] + line[1..] == line;
    }
  }

  // ---- One entry ----

  predicate ValidEntries(entries: seq<Entry>) {
    (forall i | 0 <= i < |entries| :: IsKey(entries[i].key)) &&
    (forall i, j | 0 <= i < j < |entries| :: entries[i].key != entries[j].key)
  }

  predicate IsPlain(s: string) {
    forall c | c in s :: !BareBreak(c)
  }

  lemma StripKeepsEnds(s: string)
    requires s != "" && !IsSpace(s[0]) && !IsSpace(s[|s| - 1])
    ensures Strip(s) == s
  {
  }

  lemma KeyHasNoSpace(key: string)
    requires IsKey(key)
    ensures forall c | c in key :: !IsSpace(c) && !Breaks(c) && c != '=' && c != '#'
    ensures !IsSpace(key[0]) && !IsSpace(key[|key| - 1]) && key[0] != '#'
  {
    assert key[0] in key && key[|key| - 1] in key;
  }

  lemma {:induction false} IndexAfter(key: string, value: string)
    requires '=' !in key
    ensures IndexOf(key + "=" + value, '=') == Some(|key|)
  {
    var s := key + "=" + value;
    if key != "" {
      assert s[0] == key[0] && key[0] in key;
      assert s[1..] == key[1..] + "=" + value;
      IndexAfter(key[1..], value);
    }
  }

  /** A line `key=value` is read as the key and whatever the value parses to. */
  lemma AssignmentReads(key: string, value: string)
    requires IsKey(key) && value != "" && !IsSpace(value[0]) && !IsSpace(value[|value| - 1])
    ensures ParseLine(key + "=" + value) ==
      if ParseValue(value).Some? then Assignment(Entry(key, ParseValue(value).value)) else Invalid
  {
    hide ParseValue, IsSpace;
    var line := key + "=" + value;
    KeyHasNoSpace(key);
    IndexAfter(key, value);
    assert line[0] == key[0] && line[|line| - 1] == value[|value| - 1];
    StripKeepsEnds(line);
    StripKeepsEnds(key);
    StripKeepsEnds(value);
    assert line[..|key|] == key && line[|key| + 1..] == value;
  }

  lemma QuoteIsNoSpace()
    ensures !IsSpace(QUOTE) && !Breaks(QUOTE) && !Breaks('=') && Breaks(NEWLINE)
  {
  }

  lemma LinesFrom(line: string, stop: char, rest: string)
    requires (forall c | c in line :: !Breaks(c)) && Breaks(stop) && stop != RETURN
    ensures Lines(line + [stop] + rest) == [line] + Lines(rest)
  {
    LineEndsAt(line, stop, rest);
    hide FirstLine;
  }

  function EntryLine(e: Entry): string {
    e.key + "=" + Quoted(e.value)
  }

  lemma PlainLineReads(e: Entry, rest: string)
    requires IsKey(e.key) && IsPlain(e.value)
    ensures Lines(EntryLine(e) + "\n" + rest) == [EntryLine(e)] + Lines(rest)
    ensures ParseLine(EntryLine(e)) == Assignment(e)
  {
    hide Escape, BareBreak, IsSpace, Breaks, ParseLine, Lines, ParseValue;
    KeyHasNoSpace(e.key);
    QuoteIsNoSpace();
    EscapeStaysOnLine(e.value);
    LinesFrom(EntryLine(e), NEWLINE, rest);
    QuotedReads(e.value);
    AssignmentReads(e.key, Quoted(e.value));
  }

  // ---- The round trip ----

  lemma {:induction false} PlainEntriesReadBack(entries: seq<Entry>, before: seq<Entry>)
    requires ValidEntries(before + entries) && forall e | e in entries :: IsPlain(e.value)
    ensures ParseLines(Lines(SerializeEnv(entries)), before) == Some(before + entries)
    decreases |entries|
  {
    hide EntryLine, IsPlain, IsKey, ParseLine, Lines, Quoted;
    if entries == [] {
      assert before + entries == before;
      NoLines();
    } else {
      var e, rest := entries[0], entries[1..];
      SerializesFirst(entries);
      NextIsNew(entries, before);
      assert e in entries && forall f | f in rest :: f in entries;
      PlainLineReads(e, SerializeEnv(rest));
      assert before + [e] + rest == before + entries;
      PlainEntriesReadBack(rest, before + [e]);
      assert ([EntryLine(e)] + Lines(SerializeEnv(rest)))[1..] == Lines(SerializeEnv(rest));
    }
  }

  lemma NoLines()
    ensures Lines("") == []
  {
  }

  lemma SerializesFirst(entries: seq<Entry>)
    requires entries != []
    ensures SerializeEnv(entries) == EntryLine(entries[0]) + "\n" + SerializeEnv(entries[1..])
  {
    hide Quoted;
  }

  lemma NextIsNew(entries: seq<Entry>, before: seq<Entry>)
    requires ValidEntries(before + entries) && entries != []
    ensures IsKey(entries[0].key) && !HasKey(before, entries[0].key)
  {
    var all := before + entries;
    assert all[|before|] == entries[0];
    forall i | 0 <= i < |before| ensures before[i].key != entries[0].key { assert all[i] == before[i]; }
  }

  /** The first bare break in a value, if there is one. */
  lemma {:induction false} FirstBareBreak(s: string) returns (i: nat)
    requires !IsPlain(s)
    ensures i < |s| && BareBreak(s[i]) && IsPlain(s[..i])
  {
    hide BareBreak;
    i := 0;
    while !BareBreak(s[i])
      invariant i < |s| && IsPlain(s[..i]) && exists k :: i <= k < |s| && BareBreak(s[k])
      decreases |s| - i
    {
      assert s[..i + 1] == s[..i] + [s[i]];
      i := i + 1;
    }
  }

  lemma BreakSplits(front: string, stop: char, back: string)
    requires BareBreak(stop)
    ensures Escape(front + [stop] + back) == Escape(front) + [stop] + Escape(back)
  {
    EscapedCharBreaks(stop);
    assert Escape([stop]) == EscapeChar(stop) + Escape([stop][1..]) && [stop][1..] == "";
    hide EscapeChar, Breaks, BareBreak;
    EscapeJoined(front, [stop]);
    EscapeJoined(front + [stop], back);
  }

  lemma CutAt(value: string, i: nat)
    requires i < |value|
    ensures value[..i] + [value[i]] + value[i + 1..] == value
  {
  }

  lemma BreakIsNoReturn(c: char)
    requires BareBreak(c)
    ensures Breaks(c) && c != RETURN
  {
  }

  lemma BreakStaysBare(value: string, i: nat)
    requires i < |value| && BareBreak(value[i])
    ensures Escape(value) == Escape(value[..i]) + [value[i]] + Escape(value[i + 1..])
    ensures Breaks(value[i]) && value[i] != RETURN
  {
    hide *;
    BreakIsNoReturn(value[i]);
    BreakSplits(value[..i], value[i], value[i + 1..]);
    CutAt(value, i);
  }

  lemma LineStays(key: string, front: string)
    requires IsKey(key) && IsPlain(front)
    ensures forall c | c in key + "=" + ([QUOTE] + Escape(front)) :: !Breaks(c)
  {
    KeyHasNoSpace(key);
    QuoteIsNoSpace();
    EscapeStaysOnLine(front);
    hide Escape, Breaks;
  }

  /** A bare break cuts the value's line inside the quotes, and what is left of it is invalid. */
  lemma BrokenLineFails(e: Entry, rest: string, entries: seq<Entry>)
    requires IsKey(e.key) && !IsPlain(e.value)
    ensures ParseLines(Lines(EntryLine(e) + "\n" + rest), entries) == None
  {
    hide Escape, EscapeChar, BareBreak, Breaks, IsSpace, ParseLine, Lines, IsPlain, IsKey;
    var i := FirstBareBreak(e.value);
    var front, stop, back := e.value[..i], e.value[i], e.value[i + 1..];
    BreakStaysBare(e.value, i);
    var cut, after := e.key + "=" + ([QUOTE] + Escape(front)), Escape(back) + [QUOTE] + "\n" + rest;
    assert EntryLine(e) + "\n" + rest == cut + [stop] + after;
    LineStays(e.key, front);
    LinesFrom(cut, stop, after);
    CutLineFails(e.key, front);
    assert ([cut] + Lines(after))[0] == cut;
  }

  /** An escape ends in white space only if it is that white space itself. */
  lemma EscapeEnd(c: char)
    ensures EscapeChar(c) != "" && (IsSpace(EscapeChar(c)[|EscapeChar(c)| - 1]) ==> EscapeChar(c) == [c])
  {
    if c < ' ' {
      HexReads(c as nat / 16);
      HexReads(c as nat % 16);
    }
  }

  lemma EscapeLast(s: string)
    requires s != ""
    ensures Escape(s) == Escape(s[..|s| - 1]) + EscapeChar(s[|s| - 1])
  {
    hide EscapeChar;
    var front, c := s[..|s| - 1], s[|s| - 1];
    assert s == front + [c] && [c][1..] == "";
    EscapeJoined(front, [c]);
    assert Escape([c]) == EscapeChar(c) + Escape("") == EscapeChar(c);
  }

  /** Stripping an unfinished quoted string leaves an unfinished quoted string. */
  lemma {:induction false} StripUnfinished(head: string, front: string) returns (kept: string)
    requires head != "" && !IsSpace(head[|head| - 1])
    ensures var s := head + Escape(kept);
      StripRight(head + Escape(front)) == s && !IsSpace(s[|s| - 1])
    decreases |front|
  {
    hide EscapeChar, IsSpace;
    kept := front;
    if front != "" {
      var shorter, c := front[..|front| - 1], front[|front| - 1];
      EscapeLast(front);
      EscapeEnd(c);
      hide Escape;
      var s := head + Escape(front);
      assert s[|s| - 1] == EscapeChar(c)[|EscapeChar(c)| - 1];
      if IsSpace(s[|s| - 1]) {
        assert s[..|s| - 1] == head + Escape(shorter);
        kept := StripUnfinished(head, shorter);
      }
    } else {
      assert head + Escape("") == head;
    }
  }

  lemma CutLineFails(key: string, front: string)
    requires IsKey(key)
    ensures ParseLine(key + "=" + ([QUOTE] + Escape(front))) == Invalid
  {
    hide Escape, ParseValue, IsSpace;
    var head := key + "=" + [QUOTE];
    KeyHasNoSpace(key);
    QuoteIsNoSpace();
    var kept := StripUnfinished(head, front);
    var cut, left := key + "=" + ([QUOTE] + Escape(front)), key + "=" + ([QUOTE] + Escape(kept));
    assert cut == head + Escape(front) && left == head + Escape(kept);
    assert cut[0] == key[0] && left[0] == key[0];
    StripKeepsEnds(left);
    UnclosedFails(kept);
    var value := [QUOTE] + Escape(kept);
    assert left[|left| - 1] == value[|value| - 1];
    AssignmentReads(key, value);
    assert Strip(cut) == Strip(left);
  }

  /** The first entry whose value has a bare break makes the whole file unreadable. */
  lemma {:induction false} BrokenEntriesFail(entries: seq<Entry>, before: seq<Entry>)
    requires ValidEntries(before + entries) && exists e :: e in entries && !IsPlain(e.value)
    ensures ParseLines(Lines(SerializeEnv(entries)), before) == None
    decreases |entries|
  {
    hide EntryLine, IsPlain, IsKey, ParseLine, Lines, Quoted;
    var e, rest := entries[0], entries[1..];
    SerializesFirst(entries);
    NextIsNew(entries, before);
    if IsPlain(e.value) {
      PlainLineReads(e, SerializeEnv(rest));
      assert before + [e] + rest == before + entries;
      assert exists f :: f in rest && !IsPlain(f.value);
      BrokenEntriesFail(rest, before + [e]);
      assert ([EntryLine(e)] + Lines(SerializeEnv(rest)))[1..] == Lines(SerializeEnv(rest));
    } else {
      BrokenLineFails(e, SerializeEnv(rest), before);
    }
  }

  /**
   What was written is read back exactly when no value contains one of the three line breaks that
   JSON does not escape; otherwise reading fails.
   */
  lemma EnvRoundTrip(entries: seq<Entry>)
    requires ValidEntries(entries)
    ensures Parse(SerializeEnv(entries)) == Some(entries) <==> forall e | e in entries :: IsPlain(e.value)
    ensures Parse(SerializeEnv(entries)) != Some(entries) ==> Parse(SerializeEnv(entries)) == None
  {
    hide SerializeEnv, ValidEntries, ParseLines, Lines, IsPlain;
    assert [] + entries == entries;
    if forall e | e in entries :: IsPlain(e.value) {
      PlainEntriesReadBack(entries, []);
    } else {
      BrokenEntriesFail(entries, []);
    }
  }

  /** A value that is not read back: one that contains a line separator. */
  lemma SeparatorBreaksRoundTrip()
    ensures Parse(SerializeEnv([Entry("NAME", ['\U{2028}'])])) == None
  {
    var e := Entry("NAME", ['\U{2028}']);
    assert BareBreak(e.value[0]) && e.value[0] in e.value;
    assert !IsPlain(e.value) && e in [e];
    EnvRoundTrip([e]);
  }
}
