/** The check `sorted(indexes) == list(range(n))`, by which the index tells that the records of a
source carry the numbers 0..n-1 without gap or repetition. */
module Indexes {

  function Range(n: nat): (r: seq<int>)
    ensures |r| == n && forall i :: 0 <= i < n ==> r[i] == i
  {
    if n == 0 then [] else Range(n - 1) + [n - 1]
  }

  predicate Ascending(s: seq<int>) {
    forall i, j :: 0 <= i < j < |s| ==> s[i] <= s[j]
  }

  /** x inserted into an ascending sequence. */
  function Inserted(s: seq<int>, x: int): (r: seq<int>)
    requires Ascending(s)
    ensures |r| == |s| + 1 && r[0] == (if s != [] && s[0] < x then s[0] else x)
    ensures Ascending(r)
    ensures multiset(r) == multiset(s) + multiset{x}
  {
    if s == [] || x <= s[0] then [x] + s
    else
      var rest := Inserted(s[1..], x);
      assert s == [s[0]] + s[1..];
      [s[0]] + rest
  }

  /** What `sorted` returns. */
  method Sorted(s: seq<int>) returns (r: seq<int>)
    ensures Ascending(r) && multiset(r) == multiset(s)
  {
    r := [];
    for i := 0 to |s|
      invariant Ascending(r) && multiset(r) == multiset(s[..i])
    {
      r := Inserted(r, s[i]);
      assert s[..i + 1] == s[..i] + [s[i]];
    }
    assert s[..|s|] == s;
  }

  function Init(s: seq<int>): seq<int>
    requires s != []
  {
    s[..|s| - 1]
  }

  function Last(s: seq<int>): int
    requires s != []
  {
    s[|s| - 1]
  }

  lemma InitLast(s: seq<int>)
    requires s != []
    ensures s == Init(s) + [Last(s)]
    ensures multiset(Init(s)) == multiset(s) - multiset{Last(s)}
  {
    assert s == Init(s) + [Last(s)];
  }

  lemma LastIsLargest(s: seq<int>, x: int)
    requires Ascending(s) && x in multiset(s)
    ensures s != [] && x <= Last(s)
  {
    var i :| 0 <= i < |s| && s[i] == x;
  }

  lemma {:induction false} AscendingUnique(a: seq<int>, b: seq<int>)
    requires Ascending(a) && Ascending(b) && |a| == |b| && multiset(a) == multiset(b)
    ensures a == b
  {
    if a != [] {
      SameLast(a, b);
      InitLast(a);
      InitLast(b);
      AscendingUnique(Init(a), Init(b));
    }
  }

  lemma SameLast(a: seq<int>, b: seq<int>)
    requires Ascending(a) && Ascending(b) && a != [] && b != [] && multiset(a) == multiset(b)
    ensures Last(a) == Last(b)
  {
    assert Last(a) in multiset(a) && Last(b) in multiset(b);
    LastIsLargest(b, Last(a));
    LastIsLargest(a, Last(b));
  }

  /** Every number below |s| occurs in s. */
  predicate Covers(s: seq<int>) {
    forall k :: 0 <= k < |s| ==> k in s
  }

  lemma {:induction false} RangeWithin(s: seq<int>, n: nat)
    requires forall k :: 0 <= k < n ==> k in s
    ensures multiset(Range(n)) <= multiset(s)
  {
    if n > 0 {
      RangeWithin(s, n - 1);
      assert n - 1 !in multiset(Range(n - 1));
      assert n - 1 in s;
    }
  }

  lemma SubsetSize<T>(a: set<T>, b: set<T>)
    requires a <= b
    ensures |a| <= |b|
  {
    assert b == a + (b - a);
  }

  lemma SameSizeMultiset(a: multiset<int>, b: multiset<int>)
    requires a <= b && |a| == |b|
    ensures a == b
  {
    assert b == a + (b - a);
    assert |b - a| == 0;
  }

  lemma CoveringPermutes(s: seq<int>)
    requires Covers(s)
    ensures multiset(s) == multiset(Range(|s|))
  {
    RangeWithin(s, |s|);
    SameSizeMultiset(multiset(Range(|s|)), multiset(s));
  }

  lemma PermutationCovers(s: seq<int>)
    requires multiset(s) == multiset(Range(|s|))
    ensures Covers(s)
  {
    forall k | 0 <= k < |s|
      ensures k in s
    {
      assert Range(|s|)[k] in multiset(Range(|s|));
      assert k in multiset(s);
    }
  }

  /** The loop's check is exactly that every number below the length occurs. */
  method IsRange(s: seq<int>) returns (ok: bool)
    ensures ok <==> Covers(s)
  {
    var r := Sorted(s);
    assert |r| == |multiset(r)| && |s| == |multiset(s)|;
    if r == Range(|s|) {
      PermutationCovers(s);
    } else if Covers(s) {
      CoveringPermutes(s);
      AscendingUnique(r, Range(|s|));
    }
    ok := r == Range(|s|);
  }

  lemma OccursTwice(s: seq<int>, i: nat, j: nat)
    requires i < j < |s| && s[i] == s[j]
    ensures multiset(s)[s[i]] >= 2
  {
    assert s == s[..j] + [s[j]] + s[j + 1..];
    assert s[i] in s[..j];
  }

  lemma {:induction false} RangeOnce(n: nat, k: int)
    ensures multiset(Range(n))[k] <= 1
    ensures multiset(Range(n))[k] == 1 <==> 0 <= k < n
  {
    if n > 0 {
      RangeOnce(n - 1, k);
    }
  }

  /** Covering by as many numbers as there are leaves no repetition and nothing out of range. */
  lemma CoversMeansDistinct(s: seq<int>)
    requires Covers(s)
    ensures forall i, j :: 0 <= i < j < |s| ==> s[i] != s[j]
    ensures forall i :: 0 <= i < |s| ==> 0 <= s[i] < |s|
  {
    CoveringPermutes(s);
    forall i, j | 0 <= i < j < |s|
      ensures s[i] != s[j]
    {
      RangeOnce(|s|, s[i]);
      if s[i] == s[j] {
        OccursTwice(s, i, j);
      }
    }
    forall i | 0 <= i < |s|
      ensures 0 <= s[i] < |s|
    {
      assert s[i] in multiset(s);
      RangeOnce(|s|, s[i]);
    }
  }
}
