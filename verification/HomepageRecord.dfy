/**
 scripts/release/homepage_changelog.py: the canonical Homepage record.  Its
 strings are JSON string literals (section 7 of RFC 8259), read back here by an
 independent reader.
 */
module HomepageRecord {
  import opened Wrappers

  datatype Manifest = Manifest(version: string, released: string, sourceTag: string, title: string, titleZh: string,
                               summary: string, summaryZh: string, scope: string, scopeZh: string)

  const SOURCE_URL_BASE := "https://code.hyprial.com/HyprialOS/harness-bridge/src/tag"

  const FIELD_ORDER: seq<string> :=
    ["version", "released", "source_tag", "source_commit", "metadata_commit", "title", "title_zh",
     "summary", "summary_zh", "scope", "scope_zh", "source_url"]

  const UNQUOTED := {"source_commit", "metadata_commit"}

  // ---- JSON strings ------------------------------------------------------

  function HexDigit(d: nat): char
    requires d < 16
  {
    "0123456789abcdef"[d]
  }

  // How json.dumps writes one character with ensure_ascii=False.
  function EscapeChar(c: char): (r: string)
    ensures r != []
  {
    if c == '"' then "\\\""
    else if c == '\\' then "\\\\"
    else if c == '\n' then "\\n"
    else if c == '\r' then "\\r"
    else if c == '\t' then "\\t"
    else if c == 8 as char then "\\b"
    else if c == 12 as char then "\\f"
    else if c < 32 as char then "\\u00" + [HexDigit(c as int / 16), HexDigit(c as int % 16)]
    else [c]
  }

  function Escape(s: string): string {
    if s == "" then "" else EscapeChar(s[0]) + Escape(s[1..])
  }

  function JsonString(s: string): string {
    "\"" + Escape(s) + "\""
  }

  // ---- reading JSON strings ----------------------------------------------

  function HexValue(c: char): Option<nat> {
    if '0' <= c <= '9' then Some(c as int - '0' as int)
    else if 'a' <= c <= 'f' then Some(c as int - 'a' as int + 10)
    else if 'A' <= c <= 'F' then Some(c as int - 'A' as int + 10)
    else None
  }

  // The character of \uXXXX; a surrogate alone is no character.
  function FourHex(t: string): Option<char>
    requires |t| >= 4
  {
    var a, b, c, d := HexValue(t[0]), HexValue(t[1]), HexValue(t[2]), HexValue(t[3]);
    if a.None? || b.None? || c.None? || d.None? || a.value > 15 || b.value > 15 || c.value > 15 || d.value > 15 then None
    else
      var code := ((a.value * 16 + b.value) * 16 + c.value) * 16 + d.value;
      if code < 0xD800 || 0xE000 <= code < 0x1_0000 then Some(code as char) else None
  }

  // One character of a string literal and the text after it.
  function ReadChar(t: string): Option<(char, string)> {
    if t == "" then None
    else if t[0] == '\\' then
      if |t| < 2 then None
      else match t[1]
        case '"' => Some(('"', t[2..]))
        case '\\' => Some(('\\', t[2..]))
        case '/' => Some(('/', t[2..]))
        case 'b' => Some((8 as char, t[2..]))
        case 'f' => Some((12 as char, t[2..]))
        case 'n' => Some(('\n', t[2..]))
        case 'r' => Some(('\r', t[2..]))
        case 't' => Some(('\t', t[2..]))
        case 'u' => if |t| < 6 || FourHex(t[2..]).None? then None else Some((FourHex(t[2..]).value, t[6..]))
        case _ => None
    else if t[0] == '"' || t[0] < 32 as char then None
    else Some((t[0], t[1..]))
  }

  // The rest of a string literal after its opening quote, and the text after it.
  function ReadString(t: string): Option<(string, string)>
    decreases |t|
  {
    if t != "" && t[0] == '"' then Some(("", t[1..]))
    else
      var first := ReadChar(t);
      if first.None? || |first.value.1| >= |t| then None
      else
        var rest := ReadString(first.value.1);
        if rest.None? then None else Some(([first.value.0] + rest.value.0, rest.value.1))
  }

  lemma {:induction false} HexReads(d: nat)
    requires d < 16
    ensures HexValue(HexDigit(d)) == Some(d)
  {
  }

  lemma {:induction false} CharReads(c: char, rest: string)
    ensures ReadChar(EscapeChar(c) + rest) == Some((c, rest))
    ensures (EscapeChar(c) + rest)[0] != '"'
  {
    var t := EscapeChar(c) + rest;
    if c < 32 as char && c !in {'\n', '\r', '\t', 8 as char, 12 as char} {
      var code := c as int;
      HexReads(code / 16);
      HexReads(code % 16);
      assert t[2..][0] == '0' && t[2..][1] == '0' && t[2..][2] == HexDigit(code / 16) && t[2..][3] == HexDigit(code % 16);
      assert FourHex(t[2..]) == Some(c);
      assert t[6..] == rest;
    } else if |EscapeChar(c)| == 2 {
      assert t[2..] == rest;
    } else {
      assert t[1..] == rest;
    }
  }

  /** Reading a literal gives back the string, whatever it contains. */
  lemma {:induction false} StringReads(s: string, rest: string)
    ensures ReadString(Escape(s) + "\"" + rest) == Some((s, rest))
  {
    var t := Escape(s) + "\"" + rest;
    if s == "" {
      assert t[0] == '"' && t[1..] == rest;
    } else {
      var tail := Escape(s[1..]) + "\"" + rest;
      assert t == EscapeChar(s[0]) + tail;
      CharReads(s[0], tail);
      StringReads(s[1..], rest);
      assert s == [s[0]] + s[1..];
    }
  }

  // ---- the literal is canonical ------------------------------------------

  // Characters JSON does not ask to escape.
  predicate Plain(c: char) {
    c != '"' && c != '\\' && c >= 32 as char
  }

  // No \uXXXX of the literal has an upper-case digit.
  predicate LowerCase(t: string)
    decreases |t|
  {
    if t == "" || t[0] == '"' then true
    else
      var first := ReadChar(t);
      first.None? || |first.value.1| >= |t| ||
      ((|t| >= 6 && t[0] == '\\' && t[1] == 'u' ==> forall k :: 2 <= k < 6 ==> !('A' <= t[k] <= 'F')) && LowerCase(first.value.1))
  }

  /** What needs no escape is written as itself. */
  lemma {:induction false} PlainIsItself(s: string)
    requires forall k :: 0 <= k < |s| ==> Plain(s[k])
    ensures JsonString(s) == "\"" + s + "\""
  {
    PlainEscape(s);
  }

  lemma {:induction false} PlainEscape(s: string)
    requires forall k :: 0 <= k < |s| ==> Plain(s[k])
    ensures Escape(s) == s
  {
    if s != "" {
      PlainEscape(s[1..]);
      assert s == [s[0]] + s[1..];
    }
  }

  lemma {:induction false} LowerHex(c: char)
    requires HexValue(c).Some? && !('A' <= c <= 'F')
    ensures HexValue(c).value < 16 && HexDigit(HexValue(c).value) == c
  {
    if c <= '9' { assert c == '0' + HexValue(c).value as char; } else { assert c == 'a' + (HexValue(c).value - 10) as char; }
  }

  // The digits of a control character.
  lemma {:induction false} ControlDigits(t: string)
    requires |t| >= 4 && FourHex(t).Some? && FourHex(t).value < 32 as char
    ensures HexValue(t[0]) == HexValue(t[1]) == Some(0)
    ensures HexValue(t[2]) == Some(FourHex(t).value as int / 16) && HexValue(t[3]) == Some(FourHex(t).value as int % 16)
  {
    var a, b, c, d := HexValue(t[0]).value, HexValue(t[1]).value, HexValue(t[2]).value, HexValue(t[3]).value;
    var code := ((a * 16 + b) * 16 + c) * 16 + d;
    assert code == FourHex(t).value as int;
    assert a == 0 && b == 0 && code == c * 16 + d;
  }

  lemma {:induction false} ControlShortest(t: string)
    requires |t| >= 6 && t[0] == '\\' && t[1] == 'u' && FourHex(t[2..]).Some?
    requires |EscapeChar(FourHex(t[2..]).value)| == 6 && forall k :: 2 <= k < 6 ==> !('A' <= t[k] <= 'F')
    ensures t == EscapeChar(FourHex(t[2..]).value) + t[6..]
  {
    var c, hex := FourHex(t[2..]).value, t[2..];
    ControlDigits(hex);
    assert hex[0] == t[2] && hex[1] == t[3] && hex[2] == t[4] && hex[3] == t[5];
    LowerHex(hex[0]);
    LowerHex(hex[1]);
    LowerHex(hex[2]);
    LowerHex(hex[3]);
    assert t == t[..6] + t[6..];
  }

  // A character is read from no less than what is written for it.
  lemma {:induction false} CharShortest(t: string)
    requires t != "" && t[0] != '"' && ReadChar(t).Some?
    ensures |t| >= |EscapeChar(ReadChar(t).value.0)| + |ReadChar(t).value.1|
    ensures |t| == |EscapeChar(ReadChar(t).value.0)| + |ReadChar(t).value.1| && LowerCase(t) ==>
              t == EscapeChar(ReadChar(t).value.0) + ReadChar(t).value.1
  {
    if t[0] == '\\' && t[1] == 'u' {
      if |EscapeChar(FourHex(t[2..]).value)| == 6 && LowerCase(t) { ControlShortest(t); }
    } else if t[0] == '\\' {
      assert t == t[..2] + t[2..];
    } else {
      assert t == [t[0]] + t[1..];
    }
  }

  lemma {:induction false} ReadOn(s: string, t: string, rest: string)
    requires ReadString(t) == Some((s, rest)) && t[0] != '"'
    ensures s != "" && ReadChar(t).Some? && ReadChar(t).value.0 == s[0] && |ReadChar(t).value.1| < |t|
    ensures ReadString(ReadChar(t).value.1) == Some((s[1..], rest)) && (LowerCase(t) ==> LowerCase(ReadChar(t).value.1))
  {
  }

  lemma {:induction false} Written(s: string, rest: string)
    requires s != ""
    ensures Escape(s) + "\"" + rest == EscapeChar(s[0]) + (Escape(s[1..]) + "\"" + rest)
  {
  }

  /** The bytes are canonical: no literal that reads as s is shorter than the one
      written, and of that length it is the only one with lower-case digits. */
  lemma {:induction false} StringCanonical(s: string, t: string, rest: string)
    requires ReadString(t) == Some((s, rest))
    ensures |t| >= |Escape(s) + "\"" + rest|
    ensures |t| == |Escape(s) + "\"" + rest| && LowerCase(t) ==> t == Escape(s) + "\"" + rest
    ensures LowerCase(Escape(s) + "\"" + rest)
    decreases |t|
  {
    WrittenLowerCase(s, rest);
    if t[0] == '"' {
      assert t == "\"" + t[1..];
    } else {
      ReadOn(s, t, rest);
      CharShortest(t);
      StringCanonical(s[1..], ReadChar(t).value.1, rest);
      Written(s, rest);
    }
  }

  lemma {:induction false} WrittenLowerCase(s: string, rest: string)
    ensures LowerCase(Escape(s) + "\"" + rest)
  {
    if s != "" {
      var tail := Escape(s[1..]) + "\"" + rest;
      Written(s, rest);
      CharReads(s[0], tail);
      CharLowerCase(s[0]);
      WrittenLowerCase(s[1..], rest);
      LowerFirst(EscapeChar(s[0]), tail);
    }
  }

  lemma {:induction false} CharLowerCase(c: char)
    ensures |EscapeChar(c)| == 6 || |EscapeChar(c)| <= 2
    ensures |EscapeChar(c)| == 2 ==> EscapeChar(c)[1] != 'u'
    ensures forall k :: 2 <= k < |EscapeChar(c)| ==> !('A' <= EscapeChar(c)[k] <= 'F')
    ensures |EscapeChar(c)| == 1 ==> EscapeChar(c)[0] != '\\'
  {
  }

  lemma {:induction false} LowerFirst(e: string, tail: string)
    requires e != "" && e[0] != '"' && (|e| == 6 || |e| <= 2) && (|e| == 2 ==> e[1] != 'u') && (|e| == 1 ==> e[0] != '\\')
    requires forall k :: 2 <= k < |e| ==> !('A' <= e[k] <= 'F')
    requires ReadChar(e + tail).Some? && ReadChar(e + tail).value.1 == tail && LowerCase(tail)
    ensures LowerCase(e + tail)
  {
    var t := e + tail;
    assert forall k :: 0 <= k < |e| ==> t[k] == e[k];
  }

  // ---- the record --------------------------------------------------------

  type Field = (string, string)

  function FieldText(f: Field): string {
    f.0 + ": " + (if f.0 in UNQUOTED then f.1 else JsonString(f.1))
  }

  // Lines joined by a single LF, with one LF at the end.
  function FieldsText(fields: seq<Field>): string {
    if fields == [] then "" else FieldText(fields[0]) + "\n" + FieldsText(fields[1..])
  }

  function FieldsOf(m: Manifest, sourceCommit: string, metadataCommit: string): (r: seq<Field>)
  {
    [("version", m.version), ("released", m.released), ("source_tag", m.sourceTag), ("source_commit", sourceCommit),
     ("metadata_commit", metadataCommit), ("title", m.title), ("title_zh", m.titleZh), ("summary", m.summary),
     ("summary_zh", m.summaryZh), ("scope", m.scope), ("scope_zh", m.scopeZh),
     ("source_url", SOURCE_URL_BASE + "/" + m.sourceTag + "/CHANGELOG.md")]
  }

  function Render(m: Manifest, sourceCommit: string, metadataCommit: string): string {
    "---\n" + FieldsText(FieldsOf(m, sourceCommit, metadataCommit)) + "---\n"
  }

  // COMMIT_RE
  predicate IsCommit(s: string) {
    |s| == 40 && forall k :: 0 <= k < |s| ==> '0' <= s[k] <= '9' || 'a' <= s[k] <= 'f'
  }

  // ---- reading a record --------------------------------------------------

  function Expect(prefix: string, t: string): Option<string> {
    if prefix <= t then Some(t[|prefix|..]) else None
  }

  function ReadLine(t: string): Option<(string, string)> {
    if t == "" then None
    else if t[0] == '\n' then Some(("", t[1..]))
    else
      var rest := ReadLine(t[1..]);
      if rest.None? then None else Some(([t[0]] + rest.value.0, rest.value.1))
  }

  function ReadQuoted(t: string): Option<(string, string)> {
    var inner := Expect("\"", t);
    if inner.None? then None
    else
      var read := ReadString(inner.value);
      if read.None? then None
      else
        var rest := Expect("\n", read.value.1);
        if rest.None? then None else Some((read.value.0, rest.value))
  }

  function ReadField(key: string, t: string): Option<(string, string)> {
    var value := Expect(key + ": ", t);
    if value.None? then None
    else if key in UNQUOTED then ReadLine(value.value)
    else ReadQuoted(value.value)
  }

  function ReadFields(keys: seq<string>, t: string): Option<(seq<string>, string)> {
    if keys == [] then Some(([], t))
    else
      var first := ReadField(keys[0], t);
      if first.None? then None
      else
        var rest := ReadFields(keys[1..], first.value.1);
        if rest.None? then None else Some(([first.value.0] + rest.value.0, rest.value.1))
  }

  /** A record read back: the manifest and the two commit ids. */
  function Parse(t: string): Option<(Manifest, string, string)> {
    var body := Expect("---\n", t);
    if body.None? then None
    else
      var fields := ReadFields(FIELD_ORDER, body.value);
      if fields.None? || fields.value.1 != "---\n" then None else ManifestOf(fields.value.0)
  }

  function ManifestOf(v: seq<string>): Option<(Manifest, string, string)> {
    if |v| != 12 || v[11] != SOURCE_URL_BASE + "/" + v[2] + "/CHANGELOG.md" then None
    else Some((Manifest(v[0], v[1], v[2], v[5], v[6], v[7], v[8], v[9], v[10]), v[3], v[4]))
  }

  lemma {:induction false} ExpectReads(prefix: string, rest: string)
    ensures Expect(prefix, prefix + rest) == Some(rest)
  {
    assert (prefix + rest)[|prefix|..] == rest;
  }

  lemma {:induction false} LineReads(s: string, rest: string)
    requires forall k :: 0 <= k < |s| ==> s[k] != '\n'
    ensures ReadLine(s + "\n" + rest) == Some((s, rest))
  {
    var t := s + "\n" + rest;
    if s == "" {
      assert t[1..] == rest;
    } else {
      assert t[1..] == s[1..] + "\n" + rest;
      LineReads(s[1..], rest);
      assert s == [s[0]] + s[1..];
    }
  }

  ghost predicate Readable(f: Field) {
    f.0 in UNQUOTED ==> forall k :: 0 <= k < |f.1| ==> f.1[k] != '\n'
  }

  lemma {:induction false} QuotedReads(v: string, rest: string)
    ensures ReadQuoted(JsonString(v) + "\n" + rest) == Some((v, rest))
  {
    var inner := Escape(v) + "\"" + ("\n" + rest);
    assert JsonString(v) + "\n" + rest == "\"" + inner;
    ExpectReads("\"", inner);
    StringReads(v, "\n" + rest);
    ExpectReads("\n", rest);
  }

  lemma {:induction false} FieldReads(f: Field, rest: string)
    requires Readable(f)
    ensures ReadField(f.0, FieldText(f) + "\n" + rest) == Some((f.1, rest))
  {
    var value := (if f.0 in UNQUOTED then f.1 else JsonString(f.1)) + "\n" + rest;
    assert FieldText(f) + "\n" + rest == (f.0 + ": ") + value;
    ExpectReads(f.0 + ": ", value);
    if f.0 in UNQUOTED { LineReads(f.1, rest); } else { QuotedReads(f.1, rest); }
  }

  function Keys(fields: seq<Field>): (r: seq<string>)
    ensures |r| == |fields|
  {
    seq(|fields|, i requires 0 <= i < |fields| => fields[i].0)
  }

  function Values(fields: seq<Field>): (r: seq<string>)
    ensures |r| == |fields|
  {
    seq(|fields|, i requires 0 <= i < |fields| => fields[i].1)
  }

  lemma {:induction false} FirstField(fields: seq<Field>, rest: string)
    requires fields != []
    ensures FieldsText(fields) + rest == FieldText(fields[0]) + "\n" + (FieldsText(fields[1..]) + rest)
  {
    var line, more := FieldText(fields[0]) + "\n", FieldsText(fields[1..]);
    assert FieldsText(fields) == line + more;
    assert (line + more) + rest == line + (more + rest);
  }

  lemma {:induction false} ReadFieldsStep(keys: seq<string>, t: string, value: string, tail: string, values: seq<string>, rest: string)
    requires keys != [] && ReadField(keys[0], t) == Some((value, tail)) && ReadFields(keys[1..], tail) == Some((values, rest))
    ensures ReadFields(keys, t) == Some(([value] + values, rest))
  {
  }

  lemma {:induction false} TailLists(fields: seq<Field>)
    requires fields != []
    ensures Keys(fields) != [] && Keys(fields)[0] == fields[0].0 && Keys(fields)[1..] == Keys(fields[1..])
    ensures Values(fields) == [fields[0].1] + Values(fields[1..])
  {
  }

  lemma {:induction false} FieldsReadFrom(fields: seq<Field>, rest: string, t: string)
    requires forall f :: f in fields ==> Readable(f)
    requires t == FieldsText(fields) + rest
    ensures ReadFields(Keys(fields), t) == Some((Values(fields), rest))
  {
    if fields == [] {
      assert t == rest;
    } else {
      var tail := FieldsText(fields[1..]) + rest;
      FirstField(fields, rest);
      FieldReads(fields[0], tail);
      FieldsReadFrom(fields[1..], rest, tail);
      TailLists(fields);
      ReadFieldsStep(Keys(fields), t, fields[0].1, tail, Values(fields[1..]), rest);
    }
  }

  lemma {:induction false} FieldsAreManifest(m: Manifest, sourceCommit: string, metadataCommit: string)
    ensures Keys(FieldsOf(m, sourceCommit, metadataCommit)) == FIELD_ORDER
    ensures ManifestOf(Values(FieldsOf(m, sourceCommit, metadataCommit))) == Some((m, sourceCommit, metadataCommit))
  {
  }

  lemma {:induction false} FieldsReadable(m: Manifest, sourceCommit: string, metadataCommit: string)
    requires IsCommit(sourceCommit) && IsCommit(metadataCommit)
    ensures forall f :: f in FieldsOf(m, sourceCommit, metadataCommit) ==> Readable(f)
  {
  }

  // "\n".join(lines) + "\n"
  function Lines(lines: seq<string>): string {
    if lines == [] then "" else lines[0] + "\n" + Lines(lines[1..])
  }

  lemma {:induction false} LinesAdd(a: seq<string>, last: string)
    ensures Lines(a + [last]) == Lines(a) + last + "\n"
  {
    if a == [] {
      assert [last][1..] == [] && a + [last] == [last];
    } else {
      LinesAdd(a[1..], last);
      assert (a + [last])[1..] == a[1..] + [last];
    }
  }

  lemma {:induction false} FieldsLines(fields: seq<Field>, lines: seq<string>)
    requires |lines| == |fields| && forall i :: 0 <= i < |lines| ==> lines[i] == FieldText(fields[i])
    ensures FieldsText(fields) == Lines(lines)
  {
    if fields != [] { FieldsLines(fields[1..], lines[1..]); }
  }

  function Line(key: string, value: string): string {
    key + ": " + value
  }

  ghost function RecordLines(m: Manifest, sourceCommit: string, metadataCommit: string): seq<string> {
    [Line("version", JsonString(m.version)),
     Line("released", JsonString(m.released)),
     Line("source_tag", JsonString(m.sourceTag)),
     Line("source_commit", sourceCommit),
     Line("metadata_commit", metadataCommit),
     Line("title", JsonString(m.title)),
     Line("title_zh", JsonString(m.titleZh)),
     Line("summary", JsonString(m.summary)),
     Line("summary_zh", JsonString(m.summaryZh)),
     Line("scope", JsonString(m.scope)),
     Line("scope_zh", JsonString(m.scopeZh)),
     Line("source_url", JsonString("https://code.hyprial.com/HyprialOS/harness-bridge/src/tag/" + m.sourceTag + "/CHANGELOG.md"))]
  }

  lemma {:induction false} SourceUrl(tag: string)
    ensures SOURCE_URL_BASE + "/" + tag + "/CHANGELOG.md" == "https://code.hyprial.com/HyprialOS/harness-bridge/src/tag/" + tag + "/CHANGELOG.md"
  {
    assert SOURCE_URL_BASE + "/" == "https://code.hyprial.com/HyprialOS/harness-bridge/src/tag/";
  }

  lemma {:induction false} FieldLine(m: Manifest, s: string, d: string, i: nat)
    requires i < 12
    ensures FieldText(FieldsOf(m, s, d)[i]) == RecordLines(m, s, d)[i]
  {
    SourceUrl(m.sourceTag);
  }

  lemma {:induction false} FramedText(lines: seq<string>)
    ensures Lines(["---"] + lines + ["---"]) == "---\n" + Lines(lines) + "---\n"
  {
    var framed := ["---"] + lines;
    LinesAdd(framed, "---");
    assert framed[1..] == lines;
    assert "---" + "\n" == "---\n";
  }

  lemma {:induction false} FieldsAreRecordLines(m: Manifest, sourceCommit: string, metadataCommit: string)
    ensures FieldsText(FieldsOf(m, sourceCommit, metadataCommit)) == Lines(RecordLines(m, sourceCommit, metadataCommit))
  {
    var fields, lines := FieldsOf(m, sourceCommit, metadataCommit), RecordLines(m, sourceCommit, metadataCommit);
    forall i: nat | i < 12
      ensures lines[i] == FieldText(fields[i])
    {
      FieldLine(m, sourceCommit, metadataCommit, i);
    }
    FieldsLines(fields, lines);
  }

  /** The record, line for line: twelve keys in their order between two rulers, a
      JSON literal for each value but the two commit ids. */
  lemma {:induction false} RecordText(m: Manifest, sourceCommit: string, metadataCommit: string)
    ensures Render(m, sourceCommit, metadataCommit) == Lines(["---"] + RecordLines(m, sourceCommit, metadataCommit) + ["---"])
  {
    FieldsAreRecordLines(m, sourceCommit, metadataCommit);
    FramedText(RecordLines(m, sourceCommit, metadataCommit));
  }

  /** For every manifest and any two commit ids the rendered record reads back to
      the same manifest and ids. */
  lemma {:induction false} RecordRoundTrip(m: Manifest, sourceCommit: string, metadataCommit: string)
    requires IsCommit(sourceCommit) && IsCommit(metadataCommit)
    ensures Parse(Render(m, sourceCommit, metadataCommit)) == Some((m, sourceCommit, metadataCommit))
  {
    var fields := FieldsOf(m, sourceCommit, metadataCommit);
    var text := FieldsText(fields) + "---\n";
    assert Render(m, sourceCommit, metadataCommit) == "---\n" + text;
    ExpectReads("---\n", text);
    FieldsReadable(m, sourceCommit, metadataCommit);
    FieldsReadFrom(fields, "---\n", text);
    FieldsAreManifest(m, sourceCommit, metadataCommit);
  }

  /** Rendering is injective: two releases with the same record are the same. */
  lemma {:induction false} RenderInjective(m: Manifest, s: string, d: string, m': Manifest, s': string, d': string)
    requires IsCommit(s) && IsCommit(d) && IsCommit(s') && IsCommit(d')
    requires Render(m, s, d) == Render(m', s', d')
    ensures m == m' && s == s' && d == d'
  {
    RecordRoundTrip(m, s, d);
    RecordRoundTrip(m', s', d');
  }

  // ---- one line a field --------------------------------------------------

  function LineFeeds(s: string): nat {
    if s == "" then 0 else (if s[0] == '\n' then 1 else 0) + LineFeeds(s[1..])
  }

  lemma {:induction false} LineFeedsAdd(a: string, b: string)
    ensures LineFeeds(a + b) == LineFeeds(a) + LineFeeds(b)
  {
    if a == "" { assert a + b == b; } else {
      assert (a + b)[1..] == a[1..] + b;
      LineFeedsAdd(a[1..], b);
    }
  }

  lemma {:induction false} NoLineFeeds(s: string)
    requires forall k :: 0 <= k < |s| ==> s[k] != '\n'
    ensures LineFeeds(s) == 0
  {
    if s != "" { NoLineFeeds(s[1..]); }
  }

  lemma {:induction false} EscapedIsOneLine(s: string)
    ensures LineFeeds(Escape(s)) == 0
  {
    if s != "" {
      EscapedIsOneLine(s[1..]);
      NoLineFeeds(EscapeChar(s[0]));
      LineFeedsAdd(EscapeChar(s[0]), Escape(s[1..]));
    }
  }

  lemma {:induction false} FieldIsOneLine(f: Field)
    requires Readable(f) && forall k :: 0 <= k < |f.0| ==> f.0[k] != '\n'
    ensures LineFeeds(FieldText(f) + "\n") == 1
  {
    var head := f.0 + ": ";
    NoLineFeeds(head);
    if f.0 in UNQUOTED {
      NoLineFeeds(f.1);
      LineFeedsAdd(head, f.1);
    } else {
      EscapedIsOneLine(f.1);
      NoLineFeeds("\"");
      LineFeedsAdd("\"", Escape(f.1));
      LineFeedsAdd("\"" + Escape(f.1), "\"");
      LineFeedsAdd(head, JsonString(f.1));
    }
    assert LineFeeds("\n") == 1;
    LineFeedsAdd(FieldText(f), "\n");
  }

  lemma {:induction false} FieldsAreLines(fields: seq<Field>)
    requires forall f :: f in fields ==> Readable(f) && forall k :: 0 <= k < |f.0| ==> f.0[k] != '\n'
    ensures LineFeeds(FieldsText(fields)) == |fields|
  {
    if fields != [] {
      FieldIsOneLine(fields[0]);
      FieldsAreLines(fields[1..]);
      LineFeedsAdd(FieldText(fields[0]) + "\n", FieldsText(fields[1..]));
    }
  }

  lemma {:induction false} FramedLines(fields: seq<Field>)
    requires LineFeeds(FieldsText(fields)) == |fields|
    ensures LineFeeds("---\n" + FieldsText(fields) + "---\n") == |fields| + 2
  {
    RulerIsOneLine();
    LineFeedsAdd("---\n", FieldsText(fields));
    LineFeedsAdd("---\n" + FieldsText(fields), "---\n");
  }

  lemma {:induction false} KeysAreOneLine(m: Manifest, sourceCommit: string, metadataCommit: string, f: Field)
    requires f in FieldsOf(m, sourceCommit, metadataCommit)
    ensures forall k :: 0 <= k < |f.0| ==> f.0[k] != '\n'
  {
  }

  /** A record is fourteen lines, whatever its values contain: two rulers and
      one line for each of the twelve keys. */
  lemma {:induction false} RecordIsFourteenLines(m: Manifest, sourceCommit: string, metadataCommit: string)
    requires IsCommit(sourceCommit) && IsCommit(metadataCommit)
    ensures LineFeeds(Render(m, sourceCommit, metadataCommit)) == 14
  {
    var fields := FieldsOf(m, sourceCommit, metadataCommit);
    FieldsReadable(m, sourceCommit, metadataCommit);
    forall f | f in fields
      ensures forall k :: 0 <= k < |f.0| ==> f.0[k] != '\n'
    {
      KeysAreOneLine(m, sourceCommit, metadataCommit, f);
    }
    FieldsAreLines(fields);
    FramedLines(fields);
  }

  lemma {:induction false} RulerIsOneLine()
    ensures LineFeeds("---\n") == 1
  {
    NoLineFeeds("---");
    assert LineFeeds("\n") == 1;
    LineFeedsAdd("---", "\n");
    assert "---" + "\n" == "---\n";
  }
}
