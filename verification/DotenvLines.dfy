/** What a dotenv file says, in terms of the characters it consists of. */
module DotenvLines {
  import opened Options
  import opened Dotenv

  // ---- Characters ----

  lemma SpacesAre(c: char)
    ensures IsSpace(c) <==>
      || 9 <= c as int <= 13 || 28 <= c as int <= 32 || c as int == 133 || c as int == 160 || c as int == 5760
      || 8192 <= c as int <= 8202 || c as int in {8232, 8233, 8239, 8287, 12288}
    ensures Breaks(c) <==> 10 <= c as int <= 13 || 28 <= c as int <= 30 || c as int in {133, 8232, 8233}
  {
  }

  predicate Spaces(s: string) {
    forall i :: 0 <= i < |s| ==> IsSpace(s[i])
  }

  /** No space at either end. */
  predicate Trimmed(s: string) {
    s != "" ==> !IsSpace(s[0]) && !IsSpace(s[|s| - 1])
  }

  /** The text without the spaces around it. */
  ghost predicate Core(s: string, t: string) {
    Trimmed(t) && exists a, b :: Spaces(a) && Spaces(b) && s == a + t + b
  }

  lemma {:induction false} LeftStripped(s: string) returns (a: string)
    ensures Spaces(a) && s == a + StripLeft(s) && (StripLeft(s) != "" ==> !IsSpace(StripLeft(s)[0]))
  {
    hide IsSpace;
    if s != "" && IsSpace(s[0]) {
      var rest := LeftStripped(s[1..]);
      a := [s[0]] + rest;
    } else {
      a := "";
    }
  }

  lemma {:induction false} RightStripped(s: string) returns (b: string)
    ensures Spaces(b) && s == StripRight(s) + b
    ensures StripRight(s) != "" ==> !IsSpace(StripRight(s)[|StripRight(s)| - 1])
    ensures StripRight(s) != "" ==> StripRight(s)[0] == s[0]
    decreases |s|
  {
    hide IsSpace;
    if s != "" && IsSpace(s[|s| - 1]) {
      var rest := RightStripped(s[..|s| - 1]);
      b := rest + [s[|s| - 1]];
    } else {
      b := "";
    }
  }

  lemma StripIsCore(s: string)
    ensures Core(s, Strip(s))
  {
    hide IsSpace, StripLeft, StripRight;
    var a := LeftStripped(s);
    var b := RightStripped(StripLeft(s));
    assert s == a + Strip(s) + b;
  }

  /** Where the core starts and ends. */
  ghost predicate CoreAt(s: string, from: nat, to: nat) {
    && from <= to <= |s|
    && (forall i :: 0 <= i < from ==> IsSpace(s[i])) && (forall i :: to <= i < |s| ==> IsSpace(s[i]))
    && (from < to ==> !IsSpace(s[from]) && !IsSpace(s[to - 1]))
  }

  lemma CoreStands(s: string, t: string) returns (from: nat, to: nat)
    requires Core(s, t)
    ensures CoreAt(s, from, to) && t == s[from..to]
  {
    hide IsSpace;
    var a, b :| Spaces(a) && Spaces(b) && s == a + t + b;
    from, to := |a|, |a| + |t|;
    assert forall i | 0 <= i < |b| :: s[to + i] == b[i];
    assert forall i | to <= i < |s| :: s[i] == b[i - to];
  }

  /** A text has one core. */
  lemma CoreIsOne(s: string, t: string, u: string)
    requires Core(s, t) && Core(s, u)
    ensures t == u
  {
    hide IsSpace, Core;
    var a, b := CoreStands(s, t);
    var c, d := CoreStands(s, u);
  }

  lemma CoreIsStrip(s: string, t: string)
    ensures Core(s, t) <==> t == Strip(s)
  {
    hide Core, Strip;
    StripIsCore(s);
    if Core(s, t) { CoreIsOne(s, t, Strip(s)); }
  }

  // ---- JSON strings ----

  predicate IsHex(c: char, d: int) {
    0 <= d < 16 && (c == "0123456789abcdef"[d] || c == "0123456789ABCDEF"[d])
  }

  /** Four digits of this value. */
  ghost predicate FourHex(s: string, n: int) {
    && |s| == 4
    && exists a, b, c, d :: IsHex(s[0], a) && IsHex(s[1], b) && IsHex(s[2], c) && IsHex(s[3], d) &&
         n == a * 4096 + b * 256 + c * 16 + d
  }

  /** What a backslash and one character stand for. */
  predicate ShortFor(x: char, c: char) {
    (x, c as int) in {('\"', 34), ('\\', 92), ('/', 47), ('b', 8), ('f', 12), ('n', 10), ('r', 13), ('t', 9)}
  }

  /** The text spells the character: as it stands, by a short escape, by its code, or by a surrogate pair. */
  ghost predicate Spells(u: string, c: char) {
    || (u == [c] && c as int >= 32 && c as int != 34 && c as int != 92)
    || (|u| == 2 && u[0] as int == 92 && ShortFor(u[1], c))
    || (|u| == 6 && u[0] as int == 92 && u[1] == 'u' && FourHex(u[2..6], c as int))
    || (|u| == 12 && u[0] as int == 92 && u[1] == 'u' && u[6] as int == 92 && u[7] == 'u' &&
        exists high, low :: 0xD800 <= high < 0xDC00 && 0xDC00 <= low < 0xE000 && FourHex(u[2..6], high) &&
          FourHex(u[8..12], low) && c as int == 0x10000 + (high - 0xD800) * 0x400 + (low - 0xDC00))
  }

  function Joined(units: seq<string>): string {
    if units == [] then "" else units[0] + Joined(units[1..])
  }

  /** Units that spell the text one by one. */
  ghost predicate SpelledBy(text: string, units: seq<string>) {
    |units| == |text| && forall i :: 0 <= i < |text| ==> Spells(units[i], text[i])
  }

  lemma HexIs(c: char, d: nat)
    ensures HexValue(c) == Some(d) <==> IsHex(c, d)
  {
  }

  lemma CodeIs(s: string, n: nat)
    requires |s| >= 4
    ensures Code(s) == Some(n) <==> FourHex(s[..4], n)
  {
    hide HexValue, IsHex;
    forall d: nat ensures HexValue(s[0]) == Some(d) <==> IsHex(s[0], d) { HexIs(s[0], d); }
    forall d: nat ensures HexValue(s[1]) == Some(d) <==> IsHex(s[1], d) { HexIs(s[1], d); }
    forall d: nat ensures HexValue(s[2]) == Some(d) <==> IsHex(s[2], d) { HexIs(s[2], d); }
    forall d: nat ensures HexValue(s[3]) == Some(d) <==> IsHex(s[3], d) { HexIs(s[3], d); }
    forall i, d | 0 <= i < 4 && IsHex(s[i], d) ensures d >= 0 { HexIsNatural(s[i], d); }
  }

  lemma HexIsNatural(c: char, d: int)
    requires IsHex(c, d)
    ensures d >= 0
  {
  }

  lemma ShortIs(x: char, c: char)
    ensures PlainEscape(x) == Some(c) <==> ShortFor(x, c)
    ensures ShortFor(x, c) ==> x != 'u'
  {
  }

  lemma CodeReads(s: string, n: nat, rest: string)
    requires FourHex(s, n) && (n < 0xD800 || 0xE000 <= n)
    ensures n < 0x110000 && Unicode(s + rest) == Some((n as char, rest))
  {
    hide Code, FourHex;
    FourHexSmall(s, n);
    assert (s + rest)[..4] == s && (s + rest)[4..] == rest;
    CodeIs(s + rest, n);
  }

  lemma FourHexSmall(s: string, n: int)
    requires FourHex(s, n)
    ensures 0 <= n < 0x10000 && |s| == 4
  {
    hide IsHex;
    var a, b, c, d :| IsHex(s[0], a) && IsHex(s[1], b) && IsHex(s[2], c) && IsHex(s[3], d) &&
      n == a * 4096 + b * 256 + c * 16 + d;
    HexBelow(s[0], a);
    HexBelow(s[1], b);
    HexBelow(s[2], c);
    HexBelow(s[3], d);
  }

  lemma HexBelow(c: char, d: int)
    requires IsHex(c, d)
    ensures 0 <= d < 16
  {
  }

  lemma PairReads(first: string, high: nat, second: string, low: nat, rest: string)
    requires FourHex(first, high) && FourHex(second, low) && 0xD800 <= high < 0xDC00 && 0xDC00 <= low < 0xE000
    ensures var n := 0x10000 + (high - 0xD800) * 0x400 + (low - 0xDC00);
      n < 0x110000 && Unicode(first + [BACKSLASH, 'u'] + second + rest) == Some((n as char, rest))
  {
    hide Code, FourHex;
    FourHexSmall(first, high);
    FourHexSmall(second, low);
    var s := first + [BACKSLASH, 'u'] + second + rest;
    assert s[..4] == first && s[6..][..4] == second && s[10..] == rest && s[4] == BACKSLASH && s[5] == 'u';
    CodeIs(s, high);
    CodeIs(s[6..], low);
  }

  /** Whatever spells a character is read as it. */
  lemma UnitReads(u: string, c: char, rest: string)
    requires Spells(u, c)
    ensures Unescaped(u + rest) == Prefixed(c, Unescaped(rest))
  {
    hide Unicode, PlainEscape, ShortFor, FourHex, Prefixed;
    var s := u + rest;
    if |u| == 1 {
      assert s[0] == c && s[1..] == rest;
    } else if |u| == 2 {
      ShortIs(u[1], c);
      assert s[0] == BACKSLASH && s[1] == u[1] && s[2..] == rest;
    } else if |u| == 6 {
      FourHexSmall(u[2..6], c as int);
      CodeReads(u[2..6], c as nat, rest);
      NoShort();
      assert s[0] == BACKSLASH && s[1] == 'u' && s[2..] == u[2..6] + rest;
    } else {
      var high, low :| 0xD800 <= high < 0xDC00 && 0xDC00 <= low < 0xE000 && FourHex(u[2..6], high) &&
        FourHex(u[8..12], low) && c as int == 0x10000 + (high - 0xD800) * 0x400 + (low - 0xDC00);
      PairReads(u[2..6], high, u[8..12], low, rest);
      NoShort();
      assert s[0] == BACKSLASH && s[1] == 'u';
      assert s[2..] == u[2..6] + [BACKSLASH, 'u'] + u[8..12] + rest;
    }
  }

  lemma NoShort()
    ensures PlainEscape('u') == None
  {
  }

  /** What is read first is spelled by what stands first. */
  lemma FirstUnit(s: string, text: string) returns (u: string, rest: string)
    requires Unescaped(s) == Some(text) && s != [QUOTE]
    ensures text != "" && Spells(u, text[0]) && s == u + rest && |rest| < |s| && Unescaped(rest) == Some(text[1..])
  {
    hide Unicode, PlainEscape, ShortFor, FourHex;
    if s[0] != BACKSLASH {
      u, rest := [s[0]], s[1..];
    } else if PlainEscape(s[1]).Some? {
      u, rest := s[..2], s[2..];
      ShortIs(s[1], PlainEscape(s[1]).value);
    } else {
      var n := CodedUnit(s, Unicode(s[2..]).value.0, Unicode(s[2..]).value.1);
      u, rest := s[..n], s[n..];
    }
  }

  lemma CodeNeedsFour(s: string)
    ensures Code(s).Some? ==> |s| >= 4
  {
  }

  lemma CodedUnit(s: string, c: char, rest: string) returns (n: nat)
    requires |s| >= 2 && s[0] == BACKSLASH && s[1] == 'u' && Unicode(s[2..]) == Some((c, rest))
    ensures n <= |s| && rest == s[n..] && Spells(s[..n], c)
  {
    hide Code, FourHex;
    var t := s[2..];
    CodeNeedsFour(t);
    CodeIs(t, Code(t).value);
    FourHexSmall(t[..4], Code(t).value);
    if !(0xD800 <= Code(t).value <= 0xDFFF) {
      n := 6;
      assert s[..6][2..6] == t[..4];
    } else {
      n := 12;
      CodeNeedsFour(t[6..]);
      CodeIs(t[6..], Code(t[6..]).value);
      assert s[..12][2..6] == t[..4] && s[..12][8..12] == t[6..][..4];
      assert FourHex(s[..12][2..6], Code(t).value) && FourHex(s[..12][8..12], Code(t[6..]).value);
    }
  }

  lemma {:induction false} ReadIsSpelled(s: string, text: string) returns (units: seq<string>)
    requires Unescaped(s) == Some(text)
    ensures SpelledBy(text, units) && s == Joined(units) + [QUOTE]
    decreases |s|
  {
    if s == [QUOTE] {
      units := [];
    } else {
      var u, rest := FirstUnit(s, text);
      hide Spells, Unescaped;
      var later := ReadIsSpelled(rest, text[1..]);
      units := [u] + later;
      assert units[1..] == later;
      assert Joined(units) == u + Joined(later);
      JoinedThen(u, Joined(later), [QUOTE]);
    }
  }

  lemma JoinedThen(a: string, b: string, c: string)
    ensures (a + b) + c == a + (b + c)
  {
  }

  lemma {:induction false} SpelledIsRead(text: string, units: seq<string>)
    requires SpelledBy(text, units)
    ensures Unescaped(Joined(units) + [QUOTE]) == Some(text)
    decreases |text|
  {
    if text == "" {
      assert Joined(units) + [QUOTE] == [QUOTE];
    } else {
      SpelledIsRead(text[1..], units[1..]);
      UnitReads(units[0], text[0], Joined(units[1..]) + [QUOTE]);
      hide Spells, Unescaped;
      JoinedThen(units[0], Joined(units[1..]), [QUOTE]);
      assert [text[0]] + text[1..] == text;
    }
  }

  /** Behind its opening quote a JSON string is read as a text exactly when units spelling it stand before one quote. */
  lemma StringsAreSpelled(s: string, text: string)
    ensures Unescaped(s) == Some(text) <==> exists units :: SpelledBy(text, units) && s == Joined(units) + "\""
  {
    hide Unescaped, SpelledBy, Joined;
    if Unescaped(s) == Some(text) { var units := ReadIsSpelled(s, text); }
    forall units | SpelledBy(text, units) && s == Joined(units) + "\"" ensures Unescaped(s) == Some(text) {
      SpelledIsRead(text, units);
    }
  }

  // ---- One line ----

  /** What the value's text stands for: a JSON string, what single quotes enclose, or itself. */
  ghost predicate Means(v: string, value: string) {
    if v != "" && v[0] as int == 34 then
      exists units :: SpelledBy(value, units) && v[1..] == Joined(units) + "\""
    else if v != "" && v[0] as int == 39 then v == "'" + value + "'"
    else v == value
  }

  /** A letter or underscore, followed by letters, underscores and digits. */
  predicate Key(s: string) {
    && s != "" && !('0' <= s[0] <= '9')
    && forall i :: 0 <= i < |s| ==>
         'a' <= s[i] <= 'z' || 'A' <= s[i] <= 'Z' || s[i] == '_' || '0' <= s[i] <= '9'
  }

  /** The line assigns the value to the key: spaces may stand around all of it and around the first equals sign. */
  ghost predicate Assigns(line: string, key: string, value: string) {
    exists t, k, v ::
      && Core(line, t) && t != "" && t[0] != '#' && t == k + "=" + v && '=' !in k && Core(k, key) && Key(key)
      && exists w :: Core(v, w) && Means(w, value)
  }

  lemma MeaningIs(v: string, value: string)
    ensures ParseValue(v) == Some(value) <==> Means(v, value)
  {
    hide Unescaped, SpelledBy, Joined;
    if v != "" && v[0] == QUOTE { StringsAreSpelled(v[1..], value); }
    if v != "" && v[0] == APOSTROPHE {
      if ParseValue(v) == Some(value) { assert v == "'" + value + "'"; }
      if Means(v, value) { assert v[1..|v| - 1] == value; }
    }
  }

  lemma KeyIs(s: string)
    ensures IsKey(s) <==> Key(s)
  {
    if Key(s) { forall c | c in s ensures IsKeyStart(c) || '0' <= c <= '9' { } }
    if IsKey(s) { forall i | 0 <= i < |s| ensures s[i] in s { } }
  }

  lemma {:induction false} FirstEquals(s: string, i: nat)
    ensures IndexOf(s, '=') == Some(i) <==> i < |s| && s[i] == '=' && '=' !in s[..i]
  {
    if s != "" && s[0] != '=' && i > 0 {
      FirstEquals(s[1..], i - 1);
      if i < |s| { assert s[..i] == [s[0]] + s[1..][..i - 1]; }
    } else if s != "" && s[0] == '=' && i > 0 && i < |s| {
      assert s[..i][0] == '=';
    }
  }

  lemma LineAssigns(raw: string, e: Entry)
    requires ParseLine(raw) == Assignment(e)
    ensures Assigns(raw, e.key, e.value)
  {
    hide Strip, IndexOf, ParseValue, Means, IsKey, Key, Core;
    var t := Strip(raw);
    IndexOfFinds(t, '=');
    var i := IndexOf(t, '=').value;
    FirstEquals(t, i);
    var k, v := t[..i], t[i + 1..];
    assert t == k + "=" + v;
    StripIsCore(raw);
    StripIsCore(k);
    StripIsCore(v);
    MeaningIs(Strip(v), e.value);
    KeyIs(e.key);
  }

  lemma AssigningLine(raw: string, e: Entry)
    requires Assigns(raw, e.key, e.value)
    ensures ParseLine(raw) == Assignment(e)
  {
    hide Strip, IndexOf, ParseValue, Means, IsKey, Key, Core;
    var t, k, v :|
      && Core(raw, t) && t != "" && t[0] != '#' && t == k + "=" + v && '=' !in k && Core(k, e.key) && Key(e.key)
      && exists w :: Core(v, w) && Means(w, e.value);
    var w :| Core(v, w) && Means(w, e.value);
    CoreIsStrip(raw, t);
    CoreIsStrip(k, e.key);
    CoreIsStrip(v, w);
    assert t[..|k|] == k && t[|k|] == '=' && t[|k| + 1..] == v;
    FirstEquals(t, |k|);
    IndexOfFinds(t, '=');
    MeaningIs(w, e.value);
    KeyIs(e.key);
  }

  /** A line with nothing but spaces or a comment is skipped; another assigns what it says, or is refused. */
  lemma LineMeans(raw: string, e: Entry)
    ensures ParseLine(raw) == Blank <==> exists t :: Core(raw, t) && (t == "" || t[0] == '#')
    ensures ParseLine(raw) == Assignment(e) <==> Assigns(raw, e.key, e.value)
  {
    hide Strip, IndexOf, ParseValue, Assigns, Core;
    StripIsCore(raw);
    forall t ensures Core(raw, t) <==> t == Strip(raw) { CoreIsStrip(raw, t); }
    if ParseLine(raw) == Assignment(e) { LineAssigns(raw, e); }
    if Assigns(raw, e.key, e.value) { AssigningLine(raw, e); }
  }

  // ---- The lines of a text ----

  predicate Unbroken(s: string) {
    forall i :: 0 <= i < |s| ==> !Breaks(s[i])
  }

  /** A line break before what follows: CR LF, or one breaking character that is not the CR of one. */
  predicate IsBreak(b: string, rest: string) {
    || b == "\r\n"
    || (|b| == 1 && Breaks(b[0]) && !(b[0] == '\r' && rest != "" && rest[0] == '\n'))
  }

  /** The text is these lines, each but perhaps a last one that is not empty followed by its break. */
  ghost predicate Consists(text: string, lines: seq<string>)
    decreases |lines|
  {
    if lines == [] then text == ""
    else
      Unbroken(lines[0]) &&
      ((|lines| == 1 && text == lines[0] && text != "") ||
       exists b, rest :: IsBreak(b, rest) && text == lines[0] + b + rest && Consists(rest, lines[1..]))
  }

  lemma {:induction false} FirstOf(text: string)
    ensures text != "" ==>
      var (line, rest) := FirstLine(text);
      && Unbroken(line)
      && ((text == line && rest == "") || exists b :: IsBreak(b, rest) && text == line + b + rest)
    decreases |text|
  {
    hide Breaks;
    if text != "" {
      if Breaks(text[0]) {
        var rest := FirstLine(text).1;
        if text[0] == RETURN && |text| > 1 && text[1] == NEWLINE {
          assert text == "" + "\r\n" + rest;
        } else {
          assert text == "" + [text[0]] + rest && IsBreak([text[0]], rest);
        }
      } else if |text| > 1 {
        FirstOf(text[1..]);
        var (line, rest) := FirstLine(text[1..]);
        if text[1..] != line {
          var b :| IsBreak(b, rest) && text[1..] == line + b + rest;
          assert text == ([text[0]] + line) + b + rest;
        }
      }
    }
  }

  /** Every text consists of the lines it is read as. */
  lemma {:induction false} LinesConsist(text: string)
    ensures Consists(text, Lines(text))
    decreases |text|
  {
    hide Breaks, IsBreak, Unbroken, FirstLine;
    if text != "" {
      RestIsShorter(text);
      FirstOf(text);
      var (line, rest) := FirstLine(text);
      LinesConsist(rest);
      assert Lines(text) == [line] + Lines(rest) && Lines(text)[1..] == Lines(rest);
      if text == line && rest == "" {
        assert Lines(rest) == [];
      }
    }
  }

  // ---- The whole file ----

  /** The assignments of the lines, in order. */
  function Assigned(lines: seq<string>): seq<Entry> {
    if lines == [] then []
    else
      match ParseLine(lines[0])
      case Assignment(e) => [e] + Assigned(lines[1..])
      case _ => Assigned(lines[1..])
  }

  predicate KeysDiffer(entries: seq<Entry>) {
    forall i, j | 0 <= i < j < |entries| :: entries[i].key != entries[j].key
  }

  lemma OneMoreKey(entries: seq<Entry>, e: Entry)
    ensures KeysDiffer(entries + [e]) <==>
            KeysDiffer(entries) && forall i | 0 <= i < |entries| :: entries[i].key != e.key
  {
    var more := entries + [e];
    assert more[|entries|] == e && forall i | 0 <= i < |entries| :: more[i] == entries[i];
  }

  lemma PrefixDiffers(entries: seq<Entry>, rest: seq<Entry>)
    requires KeysDiffer(entries + rest)
    ensures KeysDiffer(entries)
  {
    assert forall i | 0 <= i < |entries| :: (entries + rest)[i] == entries[i];
  }

  lemma {:induction false} LinesAreAssigned(lines: seq<string>, before: seq<Entry>)
    requires KeysDiffer(before)
    ensures var all := before + Assigned(lines);
      ParseLines(lines, before) ==
      if (forall i | 0 <= i < |lines| :: !ParseLine(lines[i]).Invalid?) && KeysDiffer(all) then Some(all) else None
    decreases |lines|
  {
    hide ParseLine, KeysDiffer;
    if lines == [] {
      assert before + Assigned(lines) == before;
    } else {
      var rest := lines[1..];
      assert forall i | 0 < i < |lines| :: lines[i] == rest[i - 1];
      assert (forall i | 0 <= i < |lines| :: !ParseLine(lines[i]).Invalid?) <==>
             !ParseLine(lines[0]).Invalid? && forall i | 0 <= i < |rest| :: !ParseLine(rest[i]).Invalid?;
      match ParseLine(lines[0])
      case Blank => LinesAreAssigned(rest, before);
      case Invalid =>
      case Assignment(e) =>
        OneMoreKey(before, e);
        assert before + Assigned(lines) == before + [e] + Assigned(rest);
        if HasKey(before, e.key) {
          if KeysDiffer(before + [e] + Assigned(rest)) { PrefixDiffers(before + [e], Assigned(rest)); }
        } else {
          LinesAreAssigned(rest, before + [e]);
        }
    }
  }

  /** A file is read as all its assignments in order, unless a line is refused or a key is assigned twice. */
  lemma FileMeans(text: string)
    ensures Parse(text) ==
      if (forall i | 0 <= i < |Lines(text)| :: !ParseLine(Lines(text)[i]).Invalid?) && KeysDiffer(Assigned(Lines(text)))
      then Some(Assigned(Lines(text))) else None
  {
    hide ParseLine, Lines;
    LinesAreAssigned(Lines(text), []);
    assert [] + Assigned(Lines(text)) == Assigned(Lines(text));
  }
}
