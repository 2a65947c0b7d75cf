/** Wiki pages: replacing the generated block without touching the user's text. */
module Wiki {
  import opened Text

  const BLOCK_START := "<!-- CENTAUR_AI_SUMMARY_START -->"
  const BLOCK_END := "<!-- CENTAUR_AI_SUMMARY_END -->"

  // ----- The generated block

  function Block(generated: string): string {
    BLOCK_START + "\n" + Trim(generated) + "\n" + BLOCK_END
  }

  /** Both markers occur, and the first end marker comes after the first start marker. */
  predicate Marked(s: string) {
    Find(s, BLOCK_START, 0) != -1 && Find(s, BLOCK_END, 0) > Find(s, BLOCK_START, 0)
  }

  function Before(s: string): string {
    if Marked(s) then s[..Find(s, BLOCK_START, 0)] else s
  }

  function After(s: string): string {
    if Marked(s) then s[Find(s, BLOCK_END, 0) + |BLOCK_END|..] else "\n"
  }

  function ReplaceBlock(existing: string, generated: string): string {
    TrimRight(Before(existing)) + "\n\n" + Block(generated) + After(existing)
  }

  method ReplaceAiBlock(existing: string, generated: string) returns (r: string)
    ensures r == ReplaceBlock(existing, generated)
  {
    var block := BLOCK_START + "\n" + Trim(generated) + "\n" + BLOCK_END;
    var start, end := Find(existing, BLOCK_START, 0), Find(existing, BLOCK_END, 0);
    if start != -1 && end != -1 && end > start {
      return TrimRight(existing[..start]) + "\n\n" + block + existing[end + |BLOCK_END|..];
    }
    return TrimRight(existing) + "\n\n" + block + "\n";
  }

  ghost predicate Contains(s: string, p: string) {
    exists k :: OccursAt(s, p, k)
  }

  predicate OneLine(p: string) {
    p != "" && '\n' !in p
  }

  /** An occurrence of a one-line text lies on one side of a newline. */
  lemma OccursBeside(a: string, b: string, p: string, k: int)
    requires OneLine(p)
    ensures OccursAt(a + "\n" + b, p, k) <==> OccursAt(a, p, k) || OccursAt(b, p, k - |a| - 1)
  {
    var s := a + "\n" + b;
    assert s[|a|] == '\n';
    if 0 <= k && k + |p| <= |a| {
      assert s[k..k + |p|] == a[k..k + |p|];
    } else if |a| < k && k + |p| <= |s| {
      assert s[k..k + |p|] == b[k - |a| - 1..k - |a| - 1 + |p|];
    } else if 0 <= k <= |a| && k + |p| <= |s| {
      assert s[k..k + |p|][|a| - k] == '\n';
    }
  }

  lemma ContainsBeside(a: string, b: string, p: string)
    requires OneLine(p)
    ensures Contains(a + "\n" + b, p) <==> Contains(a, p) || Contains(b, p)
  {
    if Contains(a + "\n" + b, p) {
      var k :| OccursAt(a + "\n" + b, p, k);
      OccursBeside(a, b, p, k);
    }
    if Contains(a, p) {
      var k :| OccursAt(a, p, k);
      OccursBeside(a, b, p, k);
    }
    if Contains(b, p) {
      var k :| OccursAt(b, p, k);
      OccursBeside(a, b, p, k + |a| + 1);
      assert OccursAt(a + "\n" + b, p, k + |a| + 1);
    }
  }

  /** Behind a text without p, the first p is found where a line begins with it. */
  lemma FindBehind(a: string, p: string, rest: string)
    requires OneLine(p) && !Contains(a, p)
    ensures Find(a + "\n" + p + rest, p, 0) == |a| + 1
  {
    var s := a + "\n" + p + rest;
    assert s == a + "\n" + (p + rest);
    assert (p + rest)[..|p|] == p;
    OccursBeside(a, p + rest, p, |a| + 1);
    forall j | 0 <= j < |a| + 1
      ensures !OccursAt(s, p, j)
    {
      OccursBeside(a, p + rest, p, j);
    }
    FindIs(s, p, 0, |a| + 1);
  }

  lemma StartHasNoEnd()
    ensures !Contains(BLOCK_START, BLOCK_END) && OneLine(BLOCK_START) && OneLine(BLOCK_END)
  {
    forall k
      ensures !OccursAt(BLOCK_START, BLOCK_END, k)
    {
      if 0 <= k <= |BLOCK_START| - |BLOCK_END| {
        assert BLOCK_START[k..k + |BLOCK_END|][24] == BLOCK_START[k + 24];
        assert BLOCK_END[24] == 'E';
      }
    }
  }

  predicate MarkerFree(s: string) {
    Find(s, BLOCK_START, 0) == -1 && Find(s, BLOCK_END, 0) == -1
  }

  /** A page with a generated block between markers p and q, its parts named. */
  function PageOf(p: string, q: string, head: string, t: string, tail: string): string {
    head + "\n\n" + (p + "\n" + t + "\n" + q) + tail
  }

  function Page(head: string, t: string, tail: string): string {
    PageOf(BLOCK_START, BLOCK_END, head, t, tail)
  }

  lemma EmptyContainsNothing(p: string)
    requires p != ""
    ensures !Contains("", p)
  {
  }

  lemma FirstMarker(p: string, q: string, head: string, t: string, tail: string)
    requires OneLine(p) && !Contains(head, p)
    ensures Find(PageOf(p, q, head, t, tail), p, 0) == |head| + 2
  {
    EmptyContainsNothing(p);
    ContainsBeside(head, "", p);
    var a := head + "\n" + "";
    var rest := "\n" + t + "\n" + q + tail;
    FindBehind(a, p, rest);
    assert PageOf(p, q, head, t, tail) == a + "\n" + p + rest;
  }

  lemma SecondMarker(p: string, q: string, head: string, t: string, tail: string)
    requires OneLine(q) && !Contains(head, q) && !Contains(p, q) && !Contains(t, q)
    ensures Find(PageOf(p, q, head, t, tail), q, 0) == |head| + |p| + |t| + 4
  {
    EmptyContainsNothing(q);
    ContainsBeside(head, "", q);
    ContainsBeside(head + "\n" + "", p, q);
    ContainsBeside(head + "\n" + "" + "\n" + p, t, q);
    var a := head + "\n" + "" + "\n" + p + "\n" + t;
    FindBehind(a, q, tail);
    assert PageOf(p, q, head, t, tail) == a + "\n" + q + tail;
  }

  lemma StartFound(head: string, t: string, tail: string)
    requires !Contains(head, BLOCK_START)
    ensures Find(Page(head, t, tail), BLOCK_START, 0) == |head| + 2
  {
    StartHasNoEnd();
    FirstMarker(BLOCK_START, BLOCK_END, head, t, tail);
  }

  lemma EndFound(head: string, t: string, tail: string)
    requires !Contains(head, BLOCK_END) && !Contains(t, BLOCK_END)
    ensures Find(Page(head, t, tail), BLOCK_END, 0) == |head| + |BLOCK_START| + |t| + 4
  {
    StartHasNoEnd();
    SecondMarker(BLOCK_START, BLOCK_END, head, t, tail);
  }

  lemma TrimRightAgain(s: string)
    ensures TrimRight(TrimRight(s) + "\n\n") == TrimRight(s)
  {
    var head := TrimRight(s);
    var t := head + "\n\n";
    assert t[|t| - 1] == '\n' && t[|t| - 2] == '\n';
    assert Trail(t, |t|) <= |head|;
    assert forall j :: 0 <= j < |head| ==> t[j] == head[j];
    if |head| > 0 {
      assert !IsSpace(t[|head| - 1]);
    }
  }

  /** What a page with a block is taken apart into. */
  lemma PageParts(head: string, t: string, tail: string)
    requires !Contains(head, BLOCK_START) && !Contains(head, BLOCK_END) && !Contains(t, BLOCK_END)
    ensures var y := Page(head, t, tail); Marked(y) && Before(y) == head + "\n\n" && After(y) == tail
  {
    StartFound(head, t, tail);
    EndFound(head, t, tail);
    var y := Page(head, t, tail);
    assert y[..|head| + 2] == head + "\n\n";
    assert y[|head| + |BLOCK_START| + |t| + 4 + |BLOCK_END|..] == tail;
  }

  /** Texts that agree on their first n characters have the same occurrences there. */
  lemma SameOccurrences(a: string, b: string, p: string, n: nat, k: int)
    requires n <= |a| && n <= |b| && a[..n] == b[..n] && 0 <= k && k + |p| <= n
    ensures OccursAt(a, p, k) <==> OccursAt(b, p, k)
  {
    assert a[k..k + |p|] == a[..n][k..k + |p|] && b[k..k + |p|] == b[..n][k..k + |p|];
  }

  /** Nothing before the first occurrence of p contains p. */
  lemma PrefixFree(s: string, p: string, n: nat)
    requires n <= |s| && p != "" && (Find(s, p, 0) == -1 || n < Find(s, p, 0) + |p|)
    ensures !Contains(s[..n], p)
  {
    forall k
      ensures !OccursAt(s[..n], p, k)
    {
      if 0 <= k && k + |p| <= n {
        SameOccurrences(s[..n], s, p, n, k);
      }
    }
  }

  /** With the markers in order, or none, the text before the block has no marker. */
  lemma HeadFree(s: string)
    requires Marked(s) || MarkerFree(s)
    ensures var head := TrimRight(Before(s)); !Contains(head, BLOCK_START) && !Contains(head, BLOCK_END)
  {
    var n := Trail(Before(s), |Before(s)|);
    assert TrimRight(Before(s)) == s[..n];
    PrefixFree(s, BLOCK_START, n);
    PrefixFree(s, BLOCK_END, n);
  }

  /** With markers in order, or none: what stands before the block is kept up to white space at its
  end, what stands after it is kept, and the page has the new block. */
  lemma {:induction false} OutsideKept(s: string, g: string)
    requires (Marked(s) || MarkerFree(s)) && !Contains(Trim(g), BLOCK_END)
    ensures var y := ReplaceBlock(s, g);
      Marked(y) && TrimRight(Before(y)) == TrimRight(Before(s)) && After(y) == After(s)
  {
    HeadFree(s);
    PageParts(TrimRight(Before(s)), Trim(g), After(s));
    TrimRightAgain(Before(s));
  }

  lemma StablePage(s: string, g1: string, g2: string)
    requires (Marked(s) || MarkerFree(s)) && !Contains(Trim(g1), BLOCK_END)
    ensures ReplaceBlock(ReplaceBlock(s, g1), g2) == ReplaceBlock(s, g2)
  {
    OutsideKept(s, g1);
  }

  // ----- Markers out of order

  /** White space at the end holds no part of a text that ends otherwise. */
  lemma KeptOccurrence(s: string, p: string, k: nat)
    requires OccursAt(s, p, k) && p != "" && !IsSpace(p[|p| - 1])
    ensures OccursAt(TrimRight(s), p, k)
  {
    var n := Trail(s, |s|);
    assert s[k..k + |p|][|p| - 1] == s[k + |p| - 1];
    assert k + |p| <= n;
    assert s[..n][k..k + |p|] == s[k..k + |p|];
  }

  lemma FindKept(s: string, p: string, rest: string)
    requires p != "" && !IsSpace(p[|p| - 1]) && Find(s, p, 0) != -1
    ensures Find(TrimRight(s) + rest, p, 0) == Find(s, p, 0) && Find(s, p, 0) + |p| <= |TrimRight(s)|
  {
    var k := Find(s, p, 0);
    var y := TrimRight(s) + rest;
    KeptOccurrence(s, p, k);
    var n := |TrimRight(s)|;
    assert y[..n] == s[..n];
    SameOccurrences(y, s, p, n, k);
    forall j | 0 <= j < k
      ensures !OccursAt(y, p, j)
    {
      SameOccurrences(y, s, p, n, j);
    }
    FindIs(y, p, 0, k);
  }

  lemma MarkersEnd()
    ensures BLOCK_START != "" && !IsSpace(BLOCK_START[|BLOCK_START| - 1])
    ensures BLOCK_END != "" && !IsSpace(BLOCK_END[|BLOCK_END| - 1])
  {
    assert BLOCK_START[|BLOCK_START| - 1] == '>' && BLOCK_END[|BLOCK_END| - 1] == '>';
  }

  /** A start marker without an end marker: the text between it and the new block is lost next time. */
  lemma {:induction false} UnstableStartOnly(s: string, g1: string, g2: string)
    requires !Contains(Trim(g1), BLOCK_END) && Find(s, BLOCK_START, 0) != -1 && Find(s, BLOCK_END, 0) == -1
    ensures |ReplaceBlock(ReplaceBlock(s, g1), g2)| < |ReplaceBlock(s, g2)|
  {
    MarkersEnd();
    var head, y := TrimRight(s), ReplaceBlock(s, g1);
    var rest := "\n\n" + Block(g1) + "\n";
    assert y == head + rest && y == Page(head, Trim(g1), "\n");
    FindKept(s, BLOCK_START, rest);
    PrefixFree(s, BLOCK_END, |head|);
    EndFound(head, Trim(g1), "\n");
    assert After(y) == "\n" && |Before(y)| < |head|;
  }

  lemma StillUnmarked(s: string, g1: string)
    requires Find(s, BLOCK_END, 0) != -1 && !Marked(s)
    ensures !Marked(ReplaceBlock(s, g1))
  {
    MarkersEnd();
    var head, y := TrimRight(s), ReplaceBlock(s, g1);
    var rest := "\n\n" + Block(g1) + "\n";
    assert y == head + rest;
    FindKept(s, BLOCK_END, rest);
    if Find(s, BLOCK_START, 0) != -1 {
      FindKept(s, BLOCK_START, rest);
    } else {
      PrefixFree(s, BLOCK_START, |head|);
      StartFound(head, Trim(g1), "\n");
      assert y == Page(head, Trim(g1), "\n");
    }
  }

  lemma BlockStays(head: string, g: string)
    ensures |TrimRight(head + "\n\n" + Block(g) + "\n")| > |head|
  {
    MarkersEnd();
    var y := head + "\n\n" + Block(g) + "\n";
    assert y[|y| - 2] == Block(g)[|Block(g)| - 1] == BLOCK_END[|BLOCK_END| - 1];
  }

  /** An end marker with no start marker before it: every replacement adds another block. */
  lemma {:induction false} UnstableEndFirst(s: string, g1: string, g2: string)
    requires Find(s, BLOCK_END, 0) != -1 && !Marked(s)
    ensures |ReplaceBlock(ReplaceBlock(s, g1), g2)| > |ReplaceBlock(s, g2)|
  {
    StillUnmarked(s, g1);
    BlockStays(TrimRight(s), g1);
  }

  /** Replacing the block is stable (replacing with g1 and then g2 is replacing with g2) if and only if
  the page has its markers in order or none at all, for every g1 without an end marker. */
  lemma {:induction false} StableIff(s: string, g1: string, g2: string)
    requires !Contains(Trim(g1), BLOCK_END)
    ensures ReplaceBlock(ReplaceBlock(s, g1), g2) == ReplaceBlock(s, g2) <==> Marked(s) || MarkerFree(s)
  {
    if Marked(s) || MarkerFree(s) {
      StablePage(s, g1, g2);
    } else if Find(s, BLOCK_END, 0) == -1 {
      UnstableStartOnly(s, g1, g2);
    } else {
      UnstableEndFirst(s, g1, g2);
    }
  }
}
