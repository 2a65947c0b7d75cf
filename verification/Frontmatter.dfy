/** The metadata at the head of a wiki page: printing and parsing it. The JSON text of a value is
opaque: printing writes it, parsing gives it back. */
module Frontmatter {
  import opened Options
  import opened Text

  /** A metadata entry; one without a value is not printed. */
  datatype Field = Field(key: string, json: Option<string>)

  type Meta = seq<(string, string)>

  /** A line boundary, as `splitlines` sees it. */
  predicate IsBreak(c: char) {
    var p := c as int;
    10 <= p <= 13 || 28 <= p <= 30 || p == 0x85 || p == 0x2028 || p == 0x2029
  }

  predicate Unbroken(s: string) {
    forall i :: 0 <= i < |s| ==> !IsBreak(s[i])
  }

  /** The lines of s; the line that begins at `from` is being read at i. */
  function SplitLines(s: string, from: nat, i: nat): seq<string>
    requires from <= i <= |s|
    decreases |s| - i
  {
    if i == |s| then (if from == i then [] else [s[from..]])
    else if IsBreak(s[i]) then
      var next := if s[i] == '\r' && i + 1 < |s| && s[i + 1] == '\n' then i + 2 else i + 1;
      [s[from..i]] + SplitLines(s, next, next)
    else SplitLines(s, from, i + 1)
  }

  function Joined(lines: seq<string>): string {
    if lines == [] then ""
    else if |lines| == 1 then lines[0]
    else Joined(lines[..|lines| - 1]) + "\n" + lines[|lines| - 1]
  }

  // ----- Printing

  function Printed(fields: seq<Field>): Meta {
    if fields == [] then []
    else
      var before, f := Printed(fields[..|fields| - 1]), fields[|fields| - 1];
      if f.json.Some? then before + [(f.key, f.json.value)] else before
  }

  function Line(entry: (string, string)): string {
    entry.0 + ": " + entry.1
  }

  function Lines(meta: Meta): seq<string> {
    if meta == [] then [] else Lines(meta[..|meta| - 1]) + [Line(meta[|meta| - 1])]
  }

  function Print(fields: seq<Field>): string {
    Joined(["---"] + Lines(Printed(fields)) + ["---"]) + "\n\n"
  }

  method PrintFrontmatter(fields: seq<Field>) returns (head: string)
    ensures head == Print(fields)
  {
    var lines := ["---"];
    for i := 0 to |fields|
      invariant lines == ["---"] + Lines(Printed(fields[..i]))
    {
      assert fields[..i + 1][..i] == fields[..i] && fields[..i + 1][i] == fields[i];
      if fields[i].json.Some? {
        ghost var before, entry := Printed(fields[..i]), (fields[i].key, fields[i].json.value);
        assert (before + [entry])[..|before|] == before;
        lines := lines + [fields[i].key + ": " + fields[i].json.value];
      }
    }
    assert fields[..|fields|] == fields;
    lines := lines + ["---"];
    head := Joined(lines) + "\n\n";
  }

  // ----- Parsing

  /** A later entry with a known key takes the place of the earlier one. */
  function Put(meta: Meta, key: string, value: string): Meta {
    if meta == [] then [(key, value)]
    else if meta[0].0 == key then [(key, value)] + meta[1..]
    else [meta[0]] + Put(meta[1..], key, value)
  }

  function ParsedLine(meta: Meta, line: string): Meta {
    var colon := Find(line, ":", 0);
    if colon == -1 || Trim(line[..colon]) == "" then meta else Put(meta, Trim(line[..colon]), Trim(line[colon + 1..]))
  }

  function Parsed(lines: seq<string>): Meta {
    if lines == [] then [] else ParsedLine(Parsed(lines[..|lines| - 1]), lines[|lines| - 1])
  }

  function Parse(content: string): (Meta, string) {
    var end := Find(content, "\n---", 4);
    if !OccursAt(content, "---\n", 0) || end == -1 then ([], content)
    else
      (Parsed(SplitLines(Trim(content[4..end]), 0, 0)), BodyFrom(content, end + 4))
  }

  /** What follows the line in which the metadata ends. */
  function BodyFrom(content: string, from: nat): string {
    var after := Find(content, "\n", from);
    if after != -1 then content[after + 1..] else ""
  }

  method ParseFrontmatter(content: string) returns (meta: Meta, body: string)
    ensures (meta, body) == Parse(content)
  {
    meta := [];
    if !OccursAt(content, "---\n", 0) {
      return meta, content;
    }
    var end := Find(content, "\n---", 4);
    if end == -1 {
      return meta, content;
    }
    body := BodyFrom(content, end + 4);
    meta := ParseLines(SplitLines(Trim(content[4..end]), 0, 0));
  }

  method ParseLines(lines: seq<string>) returns (meta: Meta)
    ensures meta == Parsed(lines)
  {
    meta := [];
    for i := 0 to |lines|
      invariant meta == Parsed(lines[..i])
    {
      assert lines[..i + 1][..i] == lines[..i] && lines[..i + 1][i] == lines[i];
      var colon := Find(lines[i], ":", 0);
      if colon == -1 {
        continue;
      }
      var key := Trim(lines[i][..colon]);
      if key == "" {
        continue;
      }
      meta := Put(meta, key, Trim(lines[i][colon + 1..]));
    }
    assert lines[..|lines|] == lines;
  }

  // ----- What is parsed has no line boundary

  predicate ValuesUnbroken(meta: Meta) {
    forall i :: 0 <= i < |meta| ==> Unbroken(meta[i].1)
  }

  lemma {:induction false} SplitUnbroken(s: string, from: nat, i: nat)
    requires from <= i <= |s| && Unbroken(s[from..i])
    ensures forall k :: 0 <= k < |SplitLines(s, from, i)| ==> Unbroken(SplitLines(s, from, i)[k])
    decreases |s| - i
  {
    if i == |s| {
      assert s[from..] == s[from..i];
    } else if IsBreak(s[i]) {
      var next := if s[i] == '\r' && i + 1 < |s| && s[i + 1] == '\n' then i + 2 else i + 1;
      SplitUnbroken(s, next, next);
    } else {
      assert s[from..i + 1] == s[from..i] + [s[i]];
      SplitUnbroken(s, from, i + 1);
    }
  }

  lemma {:induction false} PutUnbroken(meta: Meta, key: string, value: string)
    requires ValuesUnbroken(meta) && Unbroken(value)
    ensures ValuesUnbroken(Put(meta, key, value))
    decreases |meta|
  {
    if meta != [] && meta[0].0 != key {
      PutUnbroken(meta[1..], key, value);
    }
  }

  lemma LineUnbroken(meta: Meta, line: string)
    requires ValuesUnbroken(meta) && Unbroken(line)
    ensures ValuesUnbroken(ParsedLine(meta, line))
  {
    var colon := Find(line, ":", 0);
    if colon != -1 {
      PutUnbroken(meta, Trim(line[..colon]), Trim(line[colon + 1..]));
    }
  }

  lemma {:induction false} ParsedUnbroken(lines: seq<string>)
    requires forall k :: 0 <= k < |lines| ==> Unbroken(lines[k])
    ensures ValuesUnbroken(Parsed(lines))
  {
    if lines != [] {
      ParsedUnbroken(lines[..|lines| - 1]);
      LineUnbroken(Parsed(lines[..|lines| - 1]), lines[|lines| - 1]);
    }
  }

  lemma ParseUnbroken(content: string)
    ensures ValuesUnbroken(Parse(content).0)
  {
    var end := Find(content, "\n---", 4);
    if OccursAt(content, "---\n", 0) && end != -1 {
      var raw := Trim(content[4..end]);
      SplitUnbroken(raw, 0, 0);
      ParsedUnbroken(SplitLines(raw, 0, 0));
    }
  }

  // ----- The round trip

  predicate Stripped(s: string) {
    s != "" && !IsSpace(s[0]) && !IsSpace(s[|s| - 1])
  }

  predicate Dashes(s: string) {
    |s| >= 3 && s[0] == '-' && s[1] == '-' && s[2] == '-'
  }

  predicate GoodEntry(entry: (string, string)) {
    Stripped(entry.0) && ':' !in entry.0 && Unbroken(entry.0) && Stripped(entry.1)
  }

  /** Keys are distinct, trimmed, of one line and without a colon, and only the first may begin with
  three dashes; no JSON text is empty or begins or ends with white space. */
  predicate GoodMeta(meta: Meta) {
    && meta != []
    && (forall i :: 0 <= i < |meta| ==> GoodEntry(meta[i]))
    && (forall i :: 0 < i < |meta| ==> !Dashes(meta[i].0))
    && (forall i, j :: 0 <= i < j < |meta| ==> meta[i].0 != meta[j].0)
  }

  lemma {:induction false} JoinedCons(x: string, lines: seq<string>)
    requires lines != []
    ensures Joined([x] + lines) == x + "\n" + Joined(lines)
  {
    var n := |lines| - 1;
    var all := [x] + lines;
    assert all[..|all| - 1] == [x] + lines[..n];
    if n == 0 {
      assert lines[..0] == [] && Joined([x]) == x;
    } else {
      JoinedCons(x, lines[..n]);
    }
  }

  lemma JoinedSnoc(lines: seq<string>, x: string)
    requires lines != []
    ensures Joined(lines + [x]) == Joined(lines) + "\n" + x
  {
    assert (lines + [x])[..|lines|] == lines;
  }

  lemma {:induction false} LinesAre(meta: Meta)
    ensures |Lines(meta)| == |meta| && forall i :: 0 <= i < |meta| ==> Lines(meta)[i] == Line(meta[i])
  {
    if meta != [] {
      LinesAre(meta[..|meta| - 1]);
    }
  }

  /** The end of the metadata is found behind the last line, not before. */
  predicate DashLineAt(s: string, k: int) {
    0 <= k && k + 4 <= |s| && s[k] == '\n' && s[k + 1] == '-' && s[k + 2] == '-' && s[k + 3] == '-'
  }

  lemma DashLineIs(s: string, k: int)
    ensures OccursAt(s, "\n---", k) <==> DashLineAt(s, k)
  {
    var p := "\n---";
    if 0 <= k && k + 4 <= |s| {
      var w := s[k..k + 4];
      assert w[0] == s[k] && w[1] == s[k + 1] && w[2] == s[k + 2] && w[3] == s[k + 3];
      assert DashLineAt(s, k) ==> w == p;
    }
  }

  predicate Plain(line: string) {
    line != "" && '\n' !in line
  }

  lemma {:induction false} NoDashLine(lines: seq<string>, k: int)
    requires forall i :: 0 <= i < |lines| ==> Plain(lines[i])
    requires forall i :: 0 < i < |lines| ==> !Dashes(lines[i])
    ensures !DashLineAt(Joined(lines), k)
  {
    if |lines| > 1 {
      var n := |lines| - 1;
      var init, last := Joined(lines[..n]), lines[n];
      NoDashLine(lines[..n], k);
      var s := init + "\n" + last;
      assert s[|init|] == '\n';
      if k == |init| && k + 4 <= |s| {
        assert s[k + 1] == last[0];
        assert |last| >= 3 ==> s[k + 2] == last[1] && s[k + 3] == last[2];
      } else if |init| < k < |s| {
        assert s[k] == last[k - |init| - 1];
      }
    }
  }

  lemma EndFound(core: string, rest: string)
    requires forall k :: !DashLineAt(core, k)
    ensures Find("---\n" + core + "\n---" + rest, "\n---", 4) == 4 + |core|
  {
    var s := "---\n" + core + "\n---" + rest;
    var end := 4 + |core|;
    assert DashLineAt(s, end) && s[end] == '\n';
    DashLineIs(s, end);
    forall j | 4 <= j < end
      ensures !OccursAt(s, "\n---", j)
    {
      DashLineIs(s, j);
      assert !DashLineAt(core, j - 4);
      assert forall i :: 4 <= i < end ==> s[i] == core[i - 4];
    }
    FindIs(s, "\n---", 4, end);
  }

  lemma TrimStripped(s: string)
    requires Stripped(s)
    ensures Trim(s) == s
  {
  }

  lemma SliceShift(s: string, d: nat, a: nat, b: nat)
    requires a <= b && d + b <= |s|
    ensures s[d..][a..b] == s[d + a..d + b]
  {
  }

  /** How a text is split from d on depends only on what stands there. */
  lemma {:induction false} SplitShift(s: string, d: nat, from: nat, i: nat)
    requires from <= i && d + i <= |s|
    ensures SplitLines(s, d + from, d + i) == SplitLines(s[d..], from, i)
    decreases |s| - i
  {
    if d + i == |s| {
      SliceShift(s, d, from, i);
    } else if IsBreak(s[d + i]) {
      var next := if s[d + i] == '\r' && d + i + 1 < |s| && s[d + i + 1] == '\n' then i + 2 else i + 1;
      SplitShift(s, d, next, next);
      SliceShift(s, d, from, i);
    } else {
      SplitShift(s, d, from, i + 1);
    }
  }

  lemma {:induction false} SplitScan(s: string, i: nat, k: nat)
    requires i <= k <= |s| && forall j :: i <= j < k ==> !IsBreak(s[j])
    ensures SplitLines(s, 0, i) == SplitLines(s, 0, k)
    decreases k - i
  {
    if i < k {
      SplitScan(s, i + 1, k);
    }
  }

  lemma SplitFirst(x: string, rest: string)
    requires Unbroken(x)
    ensures SplitLines(x + "\n" + rest, 0, 0) == [x] + SplitLines(rest, 0, 0)
  {
    var s := x + "\n" + rest;
    SplitScan(s, 0, |x|);
    assert s[|x|] == '\n' && s[0..|x|] == x;
    assert s[|x| + 1..] == rest;
    SplitShift(s, |x| + 1, 0, 0);
  }

  /** Splitting undoes joining, for unbroken, non-empty lines. */
  lemma {:induction false} SplitJoined(lines: seq<string>)
    requires lines != [] && forall i :: 0 <= i < |lines| ==> Unbroken(lines[i]) && lines[i] != ""
    ensures SplitLines(Joined(lines), 0, 0) == lines
  {
    if |lines| == 1 {
      SplitScan(lines[0], 0, |lines[0]|);
      assert lines[0][0..] == lines[0];
    } else {
      SplitJoined(lines[1..]);
      assert lines == [lines[0]] + lines[1..];
      JoinedCons(lines[0], lines[1..]);
      SplitFirst(lines[0], Joined(lines[1..]));
    }
  }

  lemma {:induction false} PutNew(meta: Meta, key: string, value: string)
    requires forall i :: 0 <= i < |meta| ==> meta[i].0 != key
    ensures Put(meta, key, value) == meta + [(key, value)]
  {
    if meta != [] {
      PutNew(meta[1..], key, value);
    }
  }

  lemma ColonFound(key: string, rest: string)
    requires ':' !in key
    ensures Find(key + ":" + rest, ":", 0) == |key|
  {
    var s := key + ":" + rest;
    assert s[|key|..|key| + 1] == ":";
    assert OccursAt(s, ":", |key|);
    forall j | 0 <= j < |key|
      ensures !OccursAt(s, ":", j)
    {
      assert s[j..j + 1][0] == key[j];
    }
    FindIs(s, ":", 0, |key|);
  }

  lemma TrimSpaced(s: string)
    requires Stripped(s)
    ensures Trim(" " + s) == s
  {
    var t := " " + s;
    assert t[0] == ' ' && t[1] == s[0] && t[1..] == s;
    assert Lead(t, 0) == Lead(t, 1) == 1;
    assert TrimLeft(t) == s;
  }

  lemma LineParsed(meta: Meta, entry: (string, string))
    requires GoodEntry(entry) && forall i :: 0 <= i < |meta| ==> meta[i].0 != entry.0
    ensures ParsedLine(meta, Line(entry)) == meta + [entry]
  {
    var (key, json) := entry;
    var line := Line(entry);
    assert line == key + ":" + (" " + json);
    ColonFound(key, " " + json);
    assert line[..|key|] == key && line[|key| + 1..] == " " + json;
    TrimStripped(key);
    TrimSpaced(json);
    PutNew(meta, key, json);
  }

  lemma {:induction false} LinesParsed(meta: Meta)
    requires forall i :: 0 <= i < |meta| ==> GoodEntry(meta[i])
    requires forall i, j :: 0 <= i < j < |meta| ==> meta[i].0 != meta[j].0
    ensures Parsed(Lines(meta)) == meta
  {
    if meta != [] {
      var init, last := meta[..|meta| - 1], meta[|meta| - 1];
      LinesParsed(init);
      ParsedSnoc(Lines(init), Line(last));
      LineParsed(init, last);
      assert meta == init + [last];
    }
  }

  lemma ParsedSnoc(lines: seq<string>, line: string)
    ensures Parsed(lines + [line]) == ParsedLine(Parsed(lines), line)
  {
    assert (lines + [line])[..|lines|] == lines;
  }

  /** The printed lines as one text. */
  function Core(meta: Meta): string {
    Joined(Lines(meta))
  }

  lemma PrintIs(fields: seq<Field>, body: string)
    requires Printed(fields) != []
    ensures Print(fields) + body == "---\n" + Core(Printed(fields)) + "\n---" + ("\n" + ("\n" + body))
  {
    var lines := Lines(Printed(fields));
    LinesAre(Printed(fields));
    JoinedCons("---", lines);
    JoinedSnoc(["---"] + lines, "---");
    Regroup(Core(Printed(fields)), body);
  }

  lemma Regroup(core: string, body: string)
    ensures ("---" + "\n" + core) + "\n" + "---" + "\n\n" + body == "---\n" + core + "\n---" + ("\n" + ("\n" + body))
  {
  }

  lemma LinesGood(meta: Meta, i: nat)
    requires GoodMeta(meta) && ValuesUnbroken(meta) && i < |meta|
    ensures |Lines(meta)| == |meta|
    ensures Plain(Lines(meta)[i]) && Unbroken(Lines(meta)[i]) && Stripped(Lines(meta)[i]) && (i > 0 ==> !Dashes(Lines(meta)[i]))
  {
    LinesAre(meta);
    LineGood(meta[i]);
  }

  lemma LineGood(entry: (string, string))
    requires GoodEntry(entry) && Unbroken(entry.1)
    ensures var line := Line(entry); Plain(line) && Unbroken(line) && Stripped(line) && (Dashes(line) ==> Dashes(entry.0))
  {
    var (key, json) := entry;
    var line := Line(entry);
    assert line[|key|] == ':';
    assert forall i :: 0 <= i < |line| ==>
      line[i] == if i < |key| then key[i] else if i == |key| then ':' else if i == |key| + 1 then ' ' else json[i - |key| - 2];
  }

  lemma {:induction false} CoreStripped(lines: seq<string>)
    requires lines != [] && forall i :: 0 <= i < |lines| ==> Stripped(lines[i])
    ensures Stripped(Joined(lines)) && lines[0] != "" && Joined(lines)[0] == lines[0][0]
  {
    if |lines| > 1 {
      CoreStripped(lines[..|lines| - 1]);
    }
  }

  /** What parsing does with a page whose metadata ends at `end`, followed by a newline. */
  lemma ParseParts(s: string, end: nat)
    requires OccursAt(s, "---\n", 0) && Find(s, "\n---", 4) == end && end + 4 < |s| && s[end + 4] == '\n'
    ensures Parse(s) == (Parsed(SplitLines(Trim(s[4..end]), 0, 0)), s[end + 5..])
  {
    assert s[end + 4..end + 5] == "\n";
    assert OccursAt(s, "\n", end + 4);
    FindIs(s, "\n", end + 4, end + 4);
  }

  lemma CoreParsed(meta: Meta)
    requires GoodMeta(meta) && ValuesUnbroken(meta)
    ensures Parsed(SplitLines(Trim(Core(meta)), 0, 0)) == meta
    ensures forall k :: !DashLineAt(Core(meta), k)
  {
    forall i | 0 <= i < |meta|
      ensures |Lines(meta)| == |meta|
      ensures Plain(Lines(meta)[i]) && Unbroken(Lines(meta)[i]) && Stripped(Lines(meta)[i]) && (i > 0 ==> !Dashes(Lines(meta)[i]))
    {
      LinesGood(meta, i);
    }
    LinesAre(meta);
    CoreStripped(Lines(meta));
    TrimStripped(Core(meta));
    SplitJoined(Lines(meta));
    LinesParsed(meta);
    forall k
      ensures !DashLineAt(Core(meta), k)
    {
      NoDashLine(Lines(meta), k);
    }
  }

  /** The pieces of "---", the core, "---" and the rest. */
  lemma Pieces(core: string, rest: string)
    ensures var s := "---\n" + core + "\n---" + rest;
      && s[4..4 + |core|] == core && OccursAt(s, "---\n", 0) && s[8 + |core|..] == rest && |s| == 8 + |core| + |rest|
  {
    var s := "---\n" + core + "\n---" + rest;
    assert s[0..4] == "---\n";
  }

  /** For every body: printing the metadata before it and parsing the page gives back the metadata and
  the body behind one newline, for good metadata whose JSON texts hold no line boundary. */
  lemma PrintThenParse(fields: seq<Field>, body: string)
    requires GoodMeta(Printed(fields)) && ValuesUnbroken(Printed(fields))
    ensures Parse(Print(fields) + body) == (Printed(fields), "\n" + body)
  {
    PrintIs(fields, body);
    CoreParsed(Printed(fields));
    PageParsed(Core(Printed(fields)), body);
  }

  lemma PageParsed(core: string, body: string)
    requires forall k :: !DashLineAt(core, k)
    ensures Parse("---\n" + core + "\n---" + ("\n" + ("\n" + body))) == (Parsed(SplitLines(Trim(core), 0, 0)), "\n" + body)
  {
    var rest := "\n" + ("\n" + body);
    EndFound(core, rest);
    Pieces(core, rest);
    BodyBehind("---\n" + core + "\n---" + rest, 4 + |core|, body);
    ParseParts("---\n" + core + "\n---" + rest, 4 + |core|);
  }

  lemma BodyBehind(s: string, end: nat, body: string)
    requires end + 4 <= |s| && s[end + 4..] == "\n" + ("\n" + body)
    ensures end + 4 < |s| && s[end + 4] == '\n' && s[end + 5..] == "\n" + body
  {
    var rest := s[end + 4..];
    assert s[end + 4] == rest[0] && s[end + 5..] == rest[1..];
  }

  /** The round trip succeeds if and only if no JSON text holds a line boundary. JSON escapes newlines
  but leaves boundaries such as U+0085 and U+2028 as they are. */
  lemma RoundTripIff(fields: seq<Field>, body: string)
    requires GoodMeta(Printed(fields))
    ensures Parse(Print(fields) + body) == (Printed(fields), "\n" + body) <==> ValuesUnbroken(Printed(fields))
  {
    ParseUnbroken(Print(fields) + body);
    if ValuesUnbroken(Printed(fields)) {
      PrintThenParse(fields, body);
    }
  }
}
