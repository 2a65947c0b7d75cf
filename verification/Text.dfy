/** White space, trimming and search on texts, as Python's `str` does them. */
module Text {

  /** `str.isspace` for one character. */
  predicate IsSpace(c: char) {
    var p := c as int;
    || 9 <= p <= 13 || 28 <= p <= 32 || p == 0x85 || p == 0xA0 || p == 0x1680
    || 0x2000 <= p <= 0x200A || p == 0x2028 || p == 0x2029 || p == 0x202F || p == 0x205F || p == 0x3000
  }

  /** The text has no character that `strip` would keep. */
  predicate Blank(s: string) {
    forall i :: 0 <= i < |s| ==> IsSpace(s[i])
  }

  /** The first position from i on that is not white space, or the end. */
  function Lead(s: string, i: nat): (k: nat)
    requires i <= |s|
    ensures i <= k <= |s| && (k < |s| ==> !IsSpace(s[k]))
    ensures forall j :: i <= j < k ==> IsSpace(s[j])
    decreases |s| - i
  {
    if i == |s| || !IsSpace(s[i]) then i else Lead(s, i + 1)
  }

  /** The end of s[..i] without the white space at its end. */
  function Trail(s: string, i: nat): (k: nat)
    requires i <= |s|
    ensures k <= i && (k > 0 ==> !IsSpace(s[k - 1]))
    ensures forall j :: k <= j < i ==> IsSpace(s[j])
  {
    if i == 0 || !IsSpace(s[i - 1]) then i else Trail(s, i - 1)
  }

  function TrimLeft(s: string): string {
    s[Lead(s, 0)..]
  }

  function TrimRight(s: string): string {
    s[..Trail(s, |s|)]
  }

  function Trim(s: string): string {
    TrimRight(TrimLeft(s))
  }

  /** p stands at position k of s. */
  predicate OccursAt(s: string, p: string, k: int) {
    0 <= k <= |s| - |p| && s[k..k + |p|] == p
  }

  /** The first position of p in s at or after `from`, or -1. */
  function Find(s: string, p: string, from: nat): (k: int)
    ensures k == -1 || (from <= k && OccursAt(s, p, k))
    ensures forall j :: from <= j && (k == -1 || j < k) ==> !OccursAt(s, p, j)
    decreases |s| - from
  {
    if from + |p| > |s| then -1
    else if OccursAt(s, p, from) then from
    else if from == |s| then -1
    else Find(s, p, from + 1)
  }

  lemma FindIs(s: string, p: string, from: nat, k: nat)
    requires from <= k && OccursAt(s, p, k) && forall j :: from <= j < k ==> !OccursAt(s, p, j)
    ensures Find(s, p, from) == k
  {
  }

  // ----- Pieces

  function Concat(pieces: seq<string>): string {
    if pieces == [] then "" else Concat(pieces[..|pieces| - 1]) + pieces[|pieces| - 1]
  }

  function HardCuts(s: string, size: nat): (r: seq<string>)
    requires size > 0
    ensures forall p :: p in r ==> 0 < |p| <= size
    decreases |s|
  {
    if s == "" then [] else if |s| <= size then [s] else [s[..size]] + HardCuts(s[size..], size)
  }

  /** `for i in range(0, len(s), size)` */
  method Cuts(s: string, size: nat) returns (out: seq<string>)
    requires size > 0
    ensures out == HardCuts(s, size)
  {
    out := [];
    var i := 0;
    while i < |s|
      invariant i >= 0
      invariant HardCuts(s, size) == if i < |s| then out + HardCuts(s[i..], size) else out
    {
      if i + size < |s| {
        NextCut(s, i, size);
        out := out + [s[i..i + size]];
      } else {
        out := out + [s[i..]];
      }
      i := i + size;
    }
  }

  lemma NextCut(s: string, i: nat, size: nat)
    requires size > 0 && i + size < |s|
    ensures HardCuts(s[i..], size) == [s[i..i + size]] + HardCuts(s[i + size..], size)
  {
    var rest := s[i..];
    assert rest[..size] == s[i..i + size] && rest[size..] == s[i + size..];
  }

  lemma {:induction false} ConcatAppend(a: seq<string>, b: seq<string>)
    ensures Concat(a + b) == Concat(a) + Concat(b)
  {
    if b == [] {
      assert a + b == a;
    } else {
      var n := |b| - 1;
      assert (a + b)[..|a + b| - 1] == a + b[..n];
      ConcatAppend(a, b[..n]);
    }
  }

  lemma ConcatOne(s: string)
    ensures Concat([s]) == s
  {
    assert [s][..0] == [];
  }

  lemma {:induction false} HardCutsConcat(s: string, size: nat)
    requires size > 0
    ensures Concat(HardCuts(s, size)) == s
    decreases |s|
  {
    if |s| > size {
      HardCutsConcat(s[size..], size);
      ConcatOne(s[..size]);
      ConcatAppend([s[..size]], HardCuts(s[size..], size));
      assert s == s[..size] + s[size..];
    } else if s != "" {
      ConcatOne(s);
    }
  }

  predicate Small(pieces: seq<string>, size: nat) {
    forall k :: 0 <= k < |pieces| ==> 0 < |pieces[k]| <= size
  }

  lemma CutsSmall(s: string, size: nat)
    requires size > 0
    ensures Small(HardCuts(s, size), size)
  {
    var cuts := HardCuts(s, size);
    assert forall k :: 0 <= k < |cuts| ==> cuts[k] in cuts;
  }
}
