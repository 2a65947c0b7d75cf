/** Cutting long texts into overlapping chunks at paragraph and sentence ends. */
module Chunking {
  import opened Text

  // ----- Splitting, as the regular expressions do

  /** The end of the paragraph break that begins at the newline at i: past the last newline of the
  white space after it, or i itself if there is no second newline. */
  function BreakEnd(s: string, i: nat): (e: nat)
    requires i < |s|
    ensures e == i || (i + 2 <= e <= |s| && Blank(s[i + 1..e]))
  {
    LastNewline(s, i, Lead(s, i + 1))
  }

  function LastNewline(s: string, i: nat, k: nat): (e: nat)
    requires i < k <= |s| && forall j :: i < j < k ==> IsSpace(s[j])
    ensures e == i || (i + 2 <= e <= k && s[e - 1] == '\n' && Blank(s[i + 1..e]))
  {
    if k == i + 1 then i else if s[k - 1] == '\n' then k else LastNewline(s, i, k - 1)
  }

  /** Text up to each paragraph break; the piece that begins at `from` is being read at i. */
  function Paragraphs(s: string, from: nat, i: nat): seq<string>
    requires from <= i <= |s|
    decreases |s| - i
  {
    if i == |s| then [s[from..]]
    else if s[i] == '\n' && BreakEnd(s, i) > i then [s[from..i]] + Paragraphs(s, BreakEnd(s, i), BreakEnd(s, i))
    else Paragraphs(s, from, i + 1)
  }

  const SENTENCE_ENDS: set<char> := {'\U{3002}', '\U{FF01}', '\U{FF1F}', '.', '!', '?', '\U{FF1B}', ';', '\n'}

  /** A piece ends behind every sentence end. */
  function Sentences(s: string, from: nat, i: nat): seq<string>
    requires from <= i <= |s|
    decreases |s| - i
  {
    if i == |s| then [s[from..]]
    else if s[i] in SENTENCE_ENDS then [s[from..i + 1]] + Sentences(s, i + 1, i + 1)
    else Sentences(s, from, i + 1)
  }

  // ----- Long paragraphs

  /** What has been put out, and what is being gathered. */
  datatype Gathering = Gathering(out: seq<string>, buf: string)

  function Flush(g: Gathering): seq<string> {
    if g.buf != "" then g.out + [g.buf] else g.out
  }

  function GatherSentence(g: Gathering, s: string, size: nat): Gathering
    requires size > 0
  {
    if s == "" then g
    else if |s| > size then Gathering(Flush(g) + HardCuts(s, size), "")
    else if |g.buf| + |s| > size then Gathering(g.out + [g.buf], s)
    else Gathering(g.out, g.buf + s)
  }

  function GatherSentences(sentences: seq<string>, size: nat): Gathering
    requires size > 0
  {
    if sentences == [] then Gathering([], "")
    else GatherSentence(GatherSentences(sentences[..|sentences| - 1], size), sentences[|sentences| - 1], size)
  }

  function Pieces(para: string, size: nat): seq<string>
    requires size > 0
  {
    Flush(GatherSentences(Sentences(para, 0, 0), size))
  }

  method SplitLong(para: string, size: nat) returns (out: seq<string>)
    requires size > 0
    ensures out == Pieces(para, size)
  {
    var sentences := Sentences(para, 0, 0);
    out := [];
    var buf := "";
    for k := 0 to |sentences|
      invariant Gathering(out, buf) == GatherSentences(sentences[..k], size)
    {
      assert sentences[..k + 1][..k] == sentences[..k] && sentences[..k + 1][k] == sentences[k];
      var s := sentences[k];
      if s == "" {
        continue;
      }
      if |s| > size {
        if buf != "" {
          out := out + [buf];
          buf := "";
        }
        var cuts := Cuts(s, size);
        out := out + cuts;
      } else if |buf| + |s| > size {
        out := out + [buf];
        buf := s;
      } else {
        buf := buf + s;
      }
    }
    assert sentences[..|sentences|] == sentences;
    if buf != "" {
      out := out + [buf];
    }
  }

  lemma {:induction false} SentencesConcat(s: string, from: nat, i: nat)
    requires from <= i <= |s|
    ensures Concat(Sentences(s, from, i)) == s[from..]
    decreases |s| - i
  {
    if i == |s| {
      ConcatOne(s[from..]);
    } else if s[i] in SENTENCE_ENDS {
      SentencesConcat(s, i + 1, i + 1);
      ConcatOne(s[from..i + 1]);
      ConcatAppend([s[from..i + 1]], Sentences(s, i + 1, i + 1));
      assert s[from..] == s[from..i + 1] + s[i + 1..];
    } else {
      SentencesConcat(s, from, i + 1);
    }
  }

  lemma FlushConcat(g: Gathering)
    ensures Concat(Flush(g)) == Content(g)
  {
  }

  predicate Sound(g: Gathering, size: nat) {
    Small(g.out, size) && |g.buf| <= size
  }

  function Content(g: Gathering): string {
    Concat(g.out) + g.buf
  }

  lemma SmallAppend(a: seq<string>, b: seq<string>, size: nat)
    requires Small(a, size) && Small(b, size)
    ensures Small(a + b, size)
  {
  }

  lemma GatherSound(g: Gathering, s: string, size: nat)
    requires size > 0 && Sound(g, size)
    ensures Sound(GatherSentence(g, s, size), size) && Content(GatherSentence(g, s, size)) == Content(g) + s
  {
    if |s| > size {
      FlushConcat(g);
      CutsSmall(s, size);
      HardCutsConcat(s, size);
      ConcatAppend(Flush(g), HardCuts(s, size));
      SmallAppend(Flush(g), HardCuts(s, size), size);
    } else if |g.buf| + |s| > size {
      ConcatOne(g.buf);
      ConcatAppend(g.out, [g.buf]);
    } else {
      assert Concat(g.out) + (g.buf + s) == Concat(g.out) + g.buf + s;
    }
  }

  lemma {:induction false} GatheredSentences(sentences: seq<string>, size: nat)
    requires size > 0
    ensures var g := GatherSentences(sentences, size); Sound(g, size) && Content(g) == Concat(sentences)
  {
    if sentences != [] {
      var n := |sentences| - 1;
      GatheredSentences(sentences[..n], size);
      GatherSound(GatherSentences(sentences[..n], size), sentences[n], size);
    }
  }

  /** Splitting a long paragraph loses nothing: its pieces are non-empty, at most `size` long, and
  together, in order, the paragraph. */
  lemma PiecesSound(para: string, size: nat)
    requires size > 0
    ensures Small(Pieces(para, size), size) && Concat(Pieces(para, size)) == para
  {
    GatheredSentences(Sentences(para, 0, 0), size);
    SentencesConcat(para, 0, 0);
    FlushConcat(GatherSentences(Sentences(para, 0, 0), size));
    assert para[0..] == para;
  }

  // ----- Chunks

  /** The last `overlap` characters. */
  function Tail(s: string, overlap: nat): string {
    if |s| > overlap then s[|s| - overlap..] else s
  }

  function GatherUnit(g: Gathering, unit: string, size: nat, overlap: nat): Gathering {
    if g.buf != "" && |g.buf| + |unit| + 1 > size then
      Gathering(g.out + [g.buf], if overlap > 0 then Tail(g.buf, overlap) + "\n" + unit else unit)
    else
      Gathering(g.out, if g.buf != "" then g.buf + "\n" + unit else unit)
  }

  function GatherUnits(units: seq<string>, size: nat, overlap: nat): Gathering {
    if units == [] then Gathering([], "")
    else GatherUnit(GatherUnits(units[..|units| - 1], size, overlap), units[|units| - 1], size, overlap)
  }

  /** The units of a paragraph: itself, or its pieces if it is too long. */
  function UnitsOf(para: string, size: nat): seq<string>
    requires size > 0
  {
    if |para| <= size then [para] else Pieces(para, size)
  }

  /** The units of all paragraphs that are not blank. */
  function Units(paragraphs: seq<string>, size: nat): seq<string>
    requires size > 0
  {
    if paragraphs == [] then []
    else
      var before, p := Units(paragraphs[..|paragraphs| - 1], size), Trim(paragraphs[|paragraphs| - 1]);
      if p == "" then before else before + UnitsOf(p, size)
  }

  function Chunks(text: string, size: nat, overlap: nat): seq<string>
    requires size > 0
  {
    var t := Trim(text);
    if t == "" then [] else if |t| <= size then [t] else Flush(GatherUnits(Units(Paragraphs(t, 0, 0), size), size, overlap))
  }

  method ChunkText(text: string, size: nat, overlap: nat) returns (chunks: seq<string>)
    requires size > 0
    ensures chunks == Chunks(text, size, overlap)
  {
    var t := Trim(text);
    if t == "" {
      return [];
    }
    if |t| <= size {
      return [t];
    }
    var units := AllUnits(Paragraphs(t, 0, 0), size);
    chunks := [];
    var buf := "";
    for k := 0 to |units|
      invariant Gathering(chunks, buf) == GatherUnits(units[..k], size, overlap)
    {
      assert units[..k + 1][..k] == units[..k] && units[..k + 1][k] == units[k];
      var unit := units[k];
      if buf != "" && |buf| + |unit| + 1 > size {
        chunks := chunks + [buf];
        buf := if overlap > 0 then Tail(buf, overlap) + "\n" + unit else unit;
      } else {
        buf := if buf != "" then buf + "\n" + unit else unit;
      }
    }
    assert units[..|units|] == units;
    if buf != "" {
      chunks := chunks + [buf];
    }
  }

  method AllUnits(paragraphs: seq<string>, size: nat) returns (units: seq<string>)
    requires size > 0
    ensures units == Units(paragraphs, size)
  {
    units := [];
    for k := 0 to |paragraphs|
      invariant units == Units(paragraphs[..k], size)
    {
      assert paragraphs[..k + 1][..k] == paragraphs[..k] && paragraphs[..k + 1][k] == paragraphs[k];
      var para := Trim(paragraphs[k]);
      if para != "" {
        if |para| <= size {
          units := units + [para];
        } else {
          var pieces := SplitLong(para, size);
          units := units + pieces;
        }
      }
    }
    assert paragraphs[..|paragraphs|] == paragraphs;
  }

  // ----- What chunking promises

  lemma {:induction false} UnitsSmall(paragraphs: seq<string>, size: nat)
    requires size > 0
    ensures Small(Units(paragraphs, size), size)
  {
    if paragraphs != [] {
      var n := |paragraphs| - 1;
      UnitsSmall(paragraphs[..n], size);
      PiecesSound(Trim(paragraphs[n]), size);
    }
  }

  /** No chunk is longer than a unit behind the overlap of the chunk before. */
  predicate Bounded(chunks: seq<string>, size: nat, overlap: nat) {
    forall k :: 0 <= k < |chunks| ==> 0 < |chunks[k]| <= size + overlap + 1
  }

  lemma {:induction false} GatheredBounded(units: seq<string>, size: nat, overlap: nat)
    requires Small(units, size)
    ensures var g := GatherUnits(units, size, overlap);
      Bounded(g.out, size, overlap) && |g.buf| <= size + overlap + 1 && (units != [] ==> g.buf != "")
  {
    if units != [] {
      GatheredBounded(units[..|units| - 1], size, overlap);
    }
  }

  /** Every chunk is non-empty and at most size + overlap + 1 characters long. */
  lemma ChunksBounded(text: string, size: nat, overlap: nat)
    requires size > 0
    ensures Bounded(Chunks(text, size, overlap), size, overlap)
  {
    UnitsSmall(Paragraphs(Trim(text), 0, 0), size);
    GatheredBounded(Units(Paragraphs(Trim(text), 0, 0), size), size, overlap);
  }

  /** How much of a chunk repeats the chunk before. */
  function Repeated(before: string, overlap: nat): nat {
    if overlap == 0 then 0 else |Tail(before, overlap)| + 1
  }

  /** The chunks without what each repeats, joined by newlines. */
  function Recovered(chunks: seq<string>, overlap: nat): string {
    if chunks == [] then ""
    else if |chunks| == 1 then chunks[0]
    else
      var n := |chunks| - 1;
      Recovered(chunks[..n], overlap) + "\n" + Dropped(chunks[n], Repeated(chunks[n - 1], overlap))
  }

  function Dropped(s: string, k: nat): string {
    if k <= |s| then s[k..] else ""
  }

  function Joined(units: seq<string>): string {
    if units == [] then ""
    else if |units| == 1 then units[0]
    else Joined(units[..|units| - 1]) + "\n" + units[|units| - 1]
  }

  /** The chunk being gathered begins with what it repeats. */
  predicate Carries(g: Gathering, overlap: nat) {
    g.out != [] ==> Repeated(g.out[|g.out| - 1], overlap) <= |g.buf|
  }

  lemma RecoveredNext(out: seq<string>, buf: string, overlap: nat)
    ensures Recovered(out + [buf], overlap) ==
      if out == [] then buf else Recovered(out, overlap) + "\n" + Dropped(buf, Repeated(out[|out| - 1], overlap))
  {
    assert (out + [buf])[..|out|] == out;
  }

  /** The chunk is put out and the next one begins with its tail. */
  lemma CloseRecovers(out: seq<string>, buf: string, unit: string, overlap: nat)
    ensures var next := if overlap > 0 then Tail(buf, overlap) + "\n" + unit else unit;
      && Repeated(buf, overlap) <= |next|
      && Recovered(out + [buf] + [next], overlap) == Recovered(out + [buf], overlap) + "\n" + unit
  {
    var next := if overlap > 0 then Tail(buf, overlap) + "\n" + unit else unit;
    RecoveredNext(out + [buf], next, overlap);
    assert Dropped(next, Repeated(buf, overlap)) == unit;
  }

  /** The unit still fits into the chunk. */
  lemma ExtendRecovers(out: seq<string>, buf: string, unit: string, overlap: nat)
    requires Carries(Gathering(out, buf), overlap)
    ensures Recovered(out + [buf + "\n" + unit], overlap) == Recovered(out + [buf], overlap) + "\n" + unit
  {
    RecoveredNext(out, buf, overlap);
    RecoveredNext(out, buf + "\n" + unit, overlap);
    if out != [] {
      var k := Repeated(out[|out| - 1], overlap);
      assert Dropped(buf + "\n" + unit, k) == Dropped(buf, k) + "\n" + unit;
      assert Recovered(out, overlap) + "\n" + (Dropped(buf, k) + "\n" + unit)
          == Recovered(out, overlap) + "\n" + Dropped(buf, k) + "\n" + unit;
    }
  }

  lemma GatherRecovers(g: Gathering, unit: string, size: nat, overlap: nat)
    requires g.buf != "" && Carries(g, overlap)
    ensures var e := GatherUnit(g, unit, size, overlap);
      Carries(e, overlap) && Recovered(e.out + [e.buf], overlap) == Recovered(g.out + [g.buf], overlap) + "\n" + unit
  {
    if |g.buf| + |unit| + 1 > size {
      CloseRecovers(g.out, g.buf, unit, overlap);
    } else {
      ExtendRecovers(g.out, g.buf, unit, overlap);
    }
  }

  lemma {:induction false} GatheredRecover(units: seq<string>, size: nat, overlap: nat)
    requires Small(units, size) && units != []
    ensures var g := GatherUnits(units, size, overlap);
      g.buf != "" && Carries(g, overlap) && Recovered(g.out + [g.buf], overlap) == Joined(units)
  {
    var n := |units| - 1;
    if n == 0 {
      assert units[..0] == [];
      RecoveredNext([], units[0], overlap);
    } else {
      GatheredRecover(units[..n], size, overlap);
      GatherRecovers(GatherUnits(units[..n], size, overlap), units[n], size, overlap);
    }
  }

  /** The chunks of a long text, without their overlaps, are its units joined by newlines. */
  lemma {:induction false} ChunksRecoverUnits(text: string, size: nat, overlap: nat)
    requires size > 0 && |Trim(text)| > size
    ensures Recovered(Chunks(text, size, overlap), overlap) == Joined(Units(Paragraphs(Trim(text), 0, 0), size))
  {
    var units := Units(Paragraphs(Trim(text), 0, 0), size);
    UnitsSmall(Paragraphs(Trim(text), 0, 0), size);
    if units != [] {
      GatheredRecover(units, size, overlap);
    }
  }

  // ----- Nothing but white space is lost

  /** The characters that are not white space, in order. */
  function Visible(s: string): string {
    if s == "" then "" else Visible(s[..|s| - 1]) + if IsSpace(s[|s| - 1]) then "" else [s[|s| - 1]]
  }

  lemma {:induction false} VisibleAppend(a: string, b: string)
    ensures Visible(a + b) == Visible(a) + Visible(b)
  {
    if b == "" {
      assert a + b == a;
    } else {
      var n := |b| - 1;
      assert (a + b)[..|a + b| - 1] == a + b[..n];
      VisibleAppend(a, b[..n]);
    }
  }

  lemma {:induction false} VisibleBlank(s: string)
    requires Blank(s)
    ensures Visible(s) == ""
  {
    if s != "" {
      VisibleBlank(s[..|s| - 1]);
    }
  }

  lemma VisibleSplit(s: string, a: nat, b: nat, c: nat)
    requires a <= b <= c <= |s|
    ensures Visible(s[a..c]) == Visible(s[a..b]) + Visible(s[b..c])
  {
    assert s[a..c] == s[a..b] + s[b..c];
    VisibleAppend(s[a..b], s[b..c]);
  }

  lemma VisibleTrimLeft(s: string)
    ensures Visible(TrimLeft(s)) == Visible(s)
  {
    var k := Lead(s, 0);
    VisibleSplit(s, 0, k, |s|);
    VisibleBlank(s[0..k]);
    assert s[0..|s|] == s && s[k..|s|] == s[k..];
  }

  lemma VisibleTrimRight(s: string)
    ensures Visible(TrimRight(s)) == Visible(s)
  {
    var k := Trail(s, |s|);
    VisibleSplit(s, 0, k, |s|);
    VisibleBlank(s[k..|s|]);
    assert s[0..|s|] == s && s[0..k] == s[..k];
  }

  lemma VisibleTrim(s: string)
    ensures Visible(Trim(s)) == Visible(s)
  {
    VisibleTrimLeft(s);
    VisibleTrimRight(TrimLeft(s));
  }

  lemma {:induction false} VisibleJoined(units: seq<string>)
    ensures Visible(Joined(units)) == Visible(Concat(units))
  {
    if |units| == 1 {
      assert Concat(units) == units[0] by {
        assert units[..0] == [];
      }
    } else if units != [] {
      var n := |units| - 1;
      VisibleJoined(units[..n]);
      VisibleAppend(Joined(units[..n]), "\n");
      VisibleAppend(Joined(units[..n]) + "\n", units[n]);
      VisibleAppend(Concat(units[..n]), units[n]);
      VisibleBlank("\n");
    }
  }

  lemma {:induction false} VisibleParagraphs(s: string, from: nat, i: nat)
    requires from <= i <= |s|
    ensures Visible(Concat(Paragraphs(s, from, i))) == Visible(s[from..])
    decreases |s| - i
  {
    if i == |s| {
      ConcatOne(s[from..]);
    } else if s[i] == '\n' && BreakEnd(s, i) > i {
      VisibleBreak(s, from, i);
    } else {
      VisibleParagraphs(s, from, i + 1);
    }
  }

  lemma {:induction false} VisibleBreak(s: string, from: nat, i: nat)
    requires from <= i < |s| && s[i] == '\n' && BreakEnd(s, i) > i
    ensures Visible(Concat([s[from..i]] + Paragraphs(s, BreakEnd(s, i), BreakEnd(s, i)))) == Visible(s[from..])
    decreases |s| - i, 0
  {
    var e := BreakEnd(s, i);
    var rest := Paragraphs(s, e, e);
    VisibleParagraphs(s, e, e);
    ConcatOne(s[from..i]);
    ConcatAppend([s[from..i]], rest);
    VisibleAppend(s[from..i], Concat(rest));
    VisibleWithoutBreak(s, from, i, e);
  }

  /** Leaving out a paragraph break leaves out white space only. */
  lemma VisibleWithoutBreak(s: string, from: nat, i: nat, e: nat)
    requires from <= i < e <= |s| && IsSpace(s[i]) && Blank(s[i + 1..e])
    ensures Visible(s[from..]) == Visible(s[from..i]) + Visible(s[e..])
  {
    assert Blank(s[i..e]) by {
      assert forall j :: i < j < e ==> s[j] == s[i + 1..e][j - i - 1];
    }
    VisibleBlank(s[i..e]);
    VisibleSplit(s, from, i, |s|);
    VisibleSplit(s, i, e, |s|);
    assert s[from..|s|] == s[from..] && s[e..|s|] == s[e..];
  }

  lemma UnitsOfConcat(para: string, size: nat)
    requires size > 0
    ensures Concat(UnitsOf(para, size)) == para
  {
    if |para| <= size {
      ConcatOne(para);
    } else {
      PiecesSound(para, size);
    }
  }

  lemma {:induction false} VisibleUnits(paragraphs: seq<string>, size: nat)
    requires size > 0
    ensures Visible(Concat(Units(paragraphs, size))) == Visible(Concat(paragraphs))
  {
    if paragraphs != [] {
      var n := |paragraphs| - 1;
      var p := Trim(paragraphs[n]);
      VisibleUnits(paragraphs[..n], size);
      VisibleTrim(paragraphs[n]);
      VisibleAppend(Concat(paragraphs[..n]), paragraphs[n]);
      if p != "" {
        UnitsOfConcat(p, size);
        ConcatAppend(Units(paragraphs[..n], size), UnitsOf(p, size));
        VisibleAppend(Concat(Units(paragraphs[..n], size)), p);
      }
    }
  }

  /** For every text, size and overlap: stripping from each chunk what it repeats of the one before
  and joining the rest gives back the text up to white space. */
  lemma ChunksLoseNothing(text: string, size: nat, overlap: nat)
    requires size > 0
    ensures Visible(Recovered(Chunks(text, size, overlap), overlap)) == Visible(text)
  {
    var t := Trim(text);
    VisibleTrim(text);
    if |t| > size {
      ChunksRecoverUnits(text, size, overlap);
      VisibleJoined(Units(Paragraphs(t, 0, 0), size));
      VisibleUnits(Paragraphs(t, 0, 0), size);
      VisibleParagraphs(t, 0, 0);
      assert t[0..] == t;
    }
  }
}
