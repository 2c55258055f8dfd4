/** JSON strings as `json.dumps(..., ensure_ascii=False)` writes them, and a reader for strings
    after section 7 of RFC 8259. */
module Json {
  import opened Outcomes

  function HexDigit(d: nat): (c: char)
    requires d < 16
  {
    if d < 10 then ('0' as int + d) as char else ('a' as int + d - 10) as char
  }

  function Escape(c: char): (e: string)
    ensures 1 <= |e| <= 6
    ensures '\n' !in e
  {
    if c == '"' then "\\\""
    else if c == '\\' then "\\\\"
    else if c == '\n' then "\\n"
    else if c == '\r' then "\\r"
    else if c == '\t' then "\\t"
    else if c == '\U{8}' then "\\b"
    else if c == '\U{c}' then "\\f"
    else if c < ' ' then "\\u00" + [HexDigit(c as int / 16), HexDigit(c as int % 16)]
    else [c]
  }

  function EscapeAll(s: string): string {
    if s == "" then "" else Escape(s[0]) + EscapeAll(s[1..])
  }

  // ----- reading

  function HexValue(c: char): Option<nat> {
    if '0' <= c <= '9' then Some(c as int - '0' as int)
    else if 'a' <= c <= 'f' then Some(c as int - 'a' as int + 10)
    else if 'A' <= c <= 'F' then Some(c as int - 'A' as int + 10)
    else None
  }

  /** The code unit spelt by the first four characters. */
  function CodeUnit(t: string): (u: Option<nat>)
    ensures u.Some? ==> u.value < 0x10000 && |t| >= 4
  {
    if |t| < 4 then None else
      match (HexValue(t[0]), HexValue(t[1]), HexValue(t[2]), HexValue(t[3]))
      case (Some(a), Some(b), Some(c), Some(d)) =>
        if a < 16 && b < 16 && c < 16 && d < 16 then Some(((a * 16 + b) * 16 + c) * 16 + d) else None
      case _ => None
  }

  /** What an escape sequence stands for and what follows it; the backslash is already read. */
  function ReadEscape(t: string): (r: Option<(char, string)>)
    ensures r.Some? ==> |r.value.1| < |t|
  {
    if t == "" then None
    else match t[0]
      case '"' => Some(('"', t[1..]))
      case '\\' => Some(('\\', t[1..]))
      case '/' => Some(('/', t[1..]))
      case 'b' => Some(('\U{8}', t[1..]))
      case 'f' => Some(('\U{c}', t[1..]))
      case 'n' => Some(('\n', t[1..]))
      case 'r' => Some(('\r', t[1..]))
      case 't' => Some(('\t', t[1..]))
      case 'u' => ReadUnicodeEscape(t[1..])
      case _ => None
  }

  function ReadUnicodeEscape(t: string): (r: Option<(char, string)>)
    ensures r.Some? ==> |r.value.1| < |t|
  {
    match CodeUnit(t)
    case None => None
    case Some(u) =>
      if u < 0xD800 || 0xE000 <= u then Some((u as char, t[4..]))
      else if u < 0xDC00 && |t| >= 10 && t[4] == '\\' && t[5] == 'u' then
        // a surrogate pair
        match CodeUnit(t[6..])
        case Some(v) =>
          if 0xDC00 <= v < 0xE000 then Some(((0x10000 + (u - 0xD800) * 0x400 + (v - 0xDC00)) as char, t[10..]))
          else None
        case None => None
      else None
  }

  /** The content of a string whose opening quote is already read, and what follows it. */
  function ReadString(t: string): (r: Option<(string, string)>)
    ensures r.Some? ==> |r.value.1| < |t|
    decreases |t|
  {
    if t == "" then None
    else if t[0] == '"' then Some(("", t[1..]))
    else if t[0] == '\\' then
      match ReadEscape(t[1..])
      case None => None
      case Some((c, rest)) => Prepend(c, ReadString(rest))
    else if t[0] < ' ' then None
    else Prepend(t[0], ReadString(t[1..]))
  }

  function Prepend(c: char, r: Option<(string, string)>): (r': Option<(string, string)>)
    ensures r'.Some? <==> r.Some?
    ensures r'.Some? ==> r'.value.1 == r.value.1
  {
    match r
    case None => None
    case Some((s, rest)) => Some(([c] + s, rest))
  }

  /** A control character without a short form is spelt by its code, and read from it. */
  lemma ReadsCode(c: char, t: string)
    requires c < ' ' && |Escape(c)| == 6
    ensures ReadEscape(Escape(c)[1..] + t) == Some((c, t))
  {
    var w := Escape(c)[2..] + t;
    assert (Escape(c)[1..] + t)[1..] == w;
    assert w[0] == '0' && w[1] == '0' && w[2] == HexDigit(c as int / 16) && w[3] == HexDigit(c as int % 16);
    assert HexValue('0') == Some(0);
    assert w[4..] == t;
    assert CodeUnit(w) == Some(c as int);
  }

  /** One escaped character, whatever it is, reads back as itself. */
  lemma ReadsEscaped(c: char, t: string)
    ensures ReadString(Escape(c) + t) == Prepend(c, ReadString(t))
  {
    var e := Escape(c);
    var u := e + t;
    if e == [c] {
      assert u[1..] == t;
    } else if |e| == 2 {
      assert u[1..][1..] == t;
    } else {
      assert u[1..] == e[1..] + t;
      ReadsCode(c, t);
    }
  }

  /** Reading what was written gives the text back, whatever it holds and whatever follows. */
  lemma {:induction false} ReadsBack(s: string, rest: string)
    ensures ReadString(EscapeAll(s) + "\"" + rest) == Some((s, rest))
  {
    if s == "" {
      assert EscapeAll(s) + "\"" + rest == "\"" + rest;
      assert ("\"" + rest)[1..] == rest;
    } else {
      var t := EscapeAll(s[1..]) + "\"" + rest;
      ReadsBack(s[1..], rest);
      ReadsEscaped(s[0], t);
      assert EscapeAll(s) + "\"" + rest == Escape(s[0]) + t;
      assert [s[0]] + s[1..] == s;
    }
  }

  lemma {:induction false} EscapedHasNoNewline(s: string)
    ensures '\n' !in EscapeAll(s)
  {
    if s != "" { EscapedHasNoNewline(s[1..]); }
  }

  // ----- lengths

  /** `len` of the escaped text. */
  function EscapedLength(s: string): (n: nat)
    ensures n >= |s|
  {
    if s == "" then 0 else |Escape(s[0])| + EscapedLength(s[1..])
  }

  lemma {:induction false} EscapedLengthIs(s: string)
    ensures |EscapeAll(s)| == EscapedLength(s)
  {
    if s != "" { EscapedLengthIs(s[1..]); }
  }

  lemma {:induction false} EscapedLengthAppend(s: string, c: char)
    ensures EscapedLength(s + [c]) == EscapedLength(s) + |Escape(c)|
  {
    if s == "" {
      assert s + [c] == [c];
    } else {
      EscapedLengthAppend(s[1..], c);
      assert (s + [c])[1..] == s[1..] + [c];
    }
  }

  // ----- one line of the context

  datatype Record = Record(source: string, kind: string, chunkId: string, content: string)

  function JsonLine(r: Record): string {
    "{\"source\":\"" + EscapeAll(r.source) + "\"" + (
      ",\"kind\":\"" + EscapeAll(r.kind) + "\"" + (
        ",\"chunk_id\":\"" + EscapeAll(r.chunkId) + "\"" + (
          ",\"content\":\"" + EscapeAll(r.content) + "\"" + "}")))
  }

  /** Reads `prefix` and then a string. */
  function ReadField(t: string, prefix: string): Option<(string, string)> {
    if prefix <= t then ReadString(t[|prefix|..]) else None
  }

  function ParseLine(line: string): Option<Record> {
    match ReadField(line, "{\"source\":\"")
    case None => None
    case Some((source, t1)) =>
      match ReadField(t1, ",\"kind\":\"")
      case None => None
      case Some((kind, t2)) =>
        match ReadField(t2, ",\"chunk_id\":\"")
        case None => None
        case Some((chunkId, t3)) =>
          match ReadField(t3, ",\"content\":\"")
          case None => None
          case Some((content, t4)) => if t4 == "}" then Some(Record(source, kind, chunkId, content)) else None
  }

  lemma ReadsField(prefix: string, s: string, rest: string)
    ensures ReadField(prefix + EscapeAll(s) + "\"" + rest, prefix) == Some((s, rest))
  {
    var t := prefix + EscapeAll(s) + "\"" + rest;
    assert t[|prefix|..] == EscapeAll(s) + "\"" + rest;
    ReadsBack(s, rest);
  }

  lemma LineReadsBack(r: Record)
    ensures ParseLine(JsonLine(r)) == Some(r)
  {
    var t4 := "}";
    var t3 := ",\"content\":\"" + EscapeAll(r.content) + "\"" + t4;
    var t2 := ",\"chunk_id\":\"" + EscapeAll(r.chunkId) + "\"" + t3;
    var t1 := ",\"kind\":\"" + EscapeAll(r.kind) + "\"" + t2;
    ReadsField("{\"source\":\"", r.source, t1);
    ReadsField(",\"kind\":\"", r.kind, t2);
    ReadsField(",\"chunk_id\":\"", r.chunkId, t3);
    ReadsField(",\"content\":\"", r.content, t4);
  }

  lemma LineHasNoNewline(r: Record)
    ensures '\n' !in JsonLine(r)
  {
    EscapedHasNoNewline(r.source);
    EscapedHasNoNewline(r.kind);
    EscapedHasNoNewline(r.chunkId);
    EscapedHasNoNewline(r.content);
  }

  lemma LineLength(r: Record)
    ensures |JsonLine(r)| == 50 + |EscapeAll(r.source)| + |EscapeAll(r.kind)| + |EscapeAll(r.chunkId)| + |EscapeAll(r.content)|
  {
  }

  // ----- lines joined by newlines

  /** `"\n".join(lines)` */
  function Join(lines: seq<string>): string {
    if lines == [] then ""
    else if |lines| == 1 then lines[0]
    else lines[0] + "\n" + Join(lines[1..])
  }

  /** `text.split("\n")` */
  function Split(text: string): (lines: seq<string>)
    ensures lines != []
  {
    if text == "" then [""]
    else if text[0] == '\n' then [""] + Split(text[1..])
    else var rest := Split(text[1..]); [[text[0]] + rest[0]] + rest[1..]
  }

  lemma {:induction false} SplitLine(line: string, rest: string)
    requires '\n' !in line
    ensures Split(line) == [line]
    ensures Split(line + "\n" + rest) == [line] + Split(rest)
  {
    if line == "" {
      assert line + "\n" + rest == "\n" + rest;
      assert ("\n" + rest)[1..] == rest;
    } else {
      SplitLine(line[1..], rest);
      assert (line + "\n" + rest)[1..] == line[1..] + "\n" + rest;
      assert [line[0]] + line[1..] == line;
    }
  }

  lemma {:induction false} SplitsBack(lines: seq<string>)
    requires lines != [] && forall k :: 0 <= k < |lines| ==> '\n' !in lines[k]
    ensures Split(Join(lines)) == lines
  {
    if |lines| == 1 {
      SplitLine(lines[0], "");
    } else {
      SplitsBack(lines[1..]);
      SplitLine(lines[0], Join(lines[1..]));
      assert [lines[0]] + lines[1..] == lines;
    }
  }

  lemma {:induction false} JoinMore(lines: seq<string>, line: string)
    ensures Join(lines + [line]) == if lines == [] then line else Join(lines) + "\n" + line
  {
    if |lines| > 0 {
      assert (lines + [line])[1..] == lines[1..] + [line];
      JoinMore(lines[1..], line);
      if |lines| == 1 { assert lines[1..] == []; }
    }
  }
}
