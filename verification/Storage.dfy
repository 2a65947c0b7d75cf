/** Records of the vector index, their identifiers, and the outcomes a storage call may have.

A Chroma collection is a finite map from record id to record. A storage call either returns,
having done what it was asked, or raises, having done any part of it. An `add` that returns is
not trusted either: it may have stored any part of its batch, which is why the writer verifies.
*/
module Storage {

  type Source = string
  type Vector = seq<real>

  datatype Kind = Text | Image

  /** The three writers of the vector store; each has its own id format. */
  datatype Writer = Chunks | Frames | Picture

  /** A record id in structured form; `Render` is the text stored. Legacy ids predate generations. */
  datatype Id =
    | ChunkId(source: Source, gen: nat, index: nat)
    | FrameId(source: Source, gen: nat, index: nat)
    | PictureId(source: Source, gen: nat)
    | LegacyId(text: string)

  /** One stored vector with the metadata the protocol reads. Generation 0 marks legacy records. */
  datatype Record = Record(writer: Writer, source: Source, gen: nat, index: nat, count: nat,
                           hash: string, document: string, vector: Vector)

  type Collection = map<Id, Record>

  /** The id a writer gives to its i-th record of generation g. */
  function RecordId(w: Writer, s: Source, g: nat, i: nat): Id {
    match w
    case Chunks => ChunkId(s, g, i)
    case Frames => FrameId(s, g, i)
    case Picture => PictureId(s, g)
  }

  function IdOf(r: Record): Id {
    RecordId(r.writer, r.source, r.gen, r.index)
  }

  // ----- Ids as text

  function Digit(n: nat): (c: char)
    requires n < 10
    ensures '0' <= c <= '9'
  {
    ['0', '1', '2', '3', '4', '5', '6', '7', '8', '9'][n]
  }

  predicate IsDigits(s: string) {
    forall i :: 0 <= i < |s| ==> '0' <= s[i] <= '9'
  }

  function Decimal(n: nat): (s: string)
    ensures |s| > 0 && IsDigits(s)
  {
    if n < 10 then [Digit(n)] else Decimal(n / 10) + [Digit(n % 10)]
  }

  /** The stored text of an id. */
  function Render(id: Id): string {
    match id
    case ChunkId(s, g, i) => s + "::g" + Decimal(g) + "::" + Decimal(i)
    case FrameId(s, g, i) => s + "::g" + Decimal(g) + "::frame::" + Decimal(i)
    case PictureId(s, g) => s + "::g" + Decimal(g)
    case LegacyId(t) => t
  }

  lemma {:induction false} DecimalInjective(m: nat, n: nat)
    ensures m != n ==> Decimal(m) != Decimal(n)
    decreases m
  {
    var s, t := Decimal(m), Decimal(n);
    LastDigit(m);
    LastDigit(n);
    if m >= 10 && n >= 10 && s == t {
      DecimalInjective(m / 10, n / 10);
      DigitInjective(m % 10, n % 10);
    }
  }

  lemma LastDigit(n: nat)
    ensures Decimal(n)[|Decimal(n)| - 1] == Digit(n % 10)
    ensures n >= 10 ==> Decimal(n)[..|Decimal(n)| - 1] == Decimal(n / 10)
    ensures n < 10 <==> |Decimal(n)| == 1
  {
  }

  lemma DigitInjective(m: nat, n: nat)
    requires m < 10 && n < 10 && Digit(m) == Digit(n)
    ensures m == n
  {
  }

  predicate EndsInText(a: string) {
    |a| > 0 && !('0' <= a[|a| - 1] <= '9')
  }

  lemma ShorterSuffixDiffers(a: string, d: string, b: string, e: string)
    requires IsDigits(e) && EndsInText(a) && |d| < |e|
    ensures a + d != b + e
  {
    var k := |a| - 1;
    assert (a + d)[k] == a[k];
    if |a + d| == |b + e| {
      assert (b + e)[k] == e[k - |b|];
    }
  }

  /** A text that ends in a non-digit followed by digits splits in one way only. */
  lemma DigitSuffixUnique(a: string, d: string, b: string, e: string)
    requires IsDigits(d) && IsDigits(e) && EndsInText(a) && EndsInText(b)
    requires a + d == b + e
    ensures a == b && d == e
  {
    if |d| < |e| {
      ShorterSuffixDiffers(a, d, b, e);
    } else if |e| < |d| {
      ShorterSuffixDiffers(b, e, a, d);
    } else {
      assert (a + d)[..|a|] == a && (b + e)[..|b|] == b;
      assert (a + d)[|a|..] == d && (b + e)[|b|..] == e;
    }
  }

  /** What stands before the last run of digits of a stamped id. */
  function Stem(id: Id): string
    requires !id.LegacyId?
  {
    match id
    case ChunkId(s, g, _) => s + "::g" + Decimal(g) + "::"
    case FrameId(s, g, _) => s + "::g" + Decimal(g) + "::frame::"
    case PictureId(s, _) => s + "::g"
  }

  function Suffix(id: Id): string
    requires !id.LegacyId?
  {
    match id
    case ChunkId(_, _, i) => Decimal(i)
    case FrameId(_, _, i) => Decimal(i)
    case PictureId(_, g) => Decimal(g)
  }

  lemma StemSuffix(id: Id)
    requires !id.LegacyId?
    ensures Render(id) == Stem(id) + Suffix(id)
    ensures IsDigits(Suffix(id)) && EndsInText(Stem(id))
    ensures Stem(id)[|Stem(id)| - 1] == if id.PictureId? then 'g' else ':'
  {
    var a := Stem(id);
    match id
    case ChunkId(_, _, _) => assert a[|a| - 1] == ':';
    case FrameId(_, _, _) => assert a[|a| - 1] == ':';
    case PictureId(_, _) => assert a[|a| - 1] == 'g';
  }

  lemma SourceAndGenerationInjective(s: Source, g: nat, t: Source, h: nat)
    requires s + "::g" + Decimal(g) == t + "::g" + Decimal(h)
    ensures s == t && g == h
  {
    assert (s + "::g")[|s| + 2] == 'g' && (t + "::g")[|t| + 2] == 'g';
    DigitSuffixUnique(s + "::g", Decimal(g), t + "::g", Decimal(h));
    assert (s + "::g")[..|s|] == s && (t + "::g")[..|t|] == t;
    DecimalInjective(g, h);
  }

  /** Different stamped ids have different texts, whatever characters the source paths contain:
  the texts of writers, sources, generations and indexes never collide. */
  lemma RenderInjective(x: Id, y: Id)
    requires !x.LegacyId? && !y.LegacyId? && Render(x) == Render(y)
    ensures x == y
  {
    StemSuffix(x);
    StemSuffix(y);
    var a, b := Stem(x), Stem(y);
    DigitSuffixUnique(a, Suffix(x), b, Suffix(y));
    assert a[|a| - 1] == b[|b| - 1];
    match x {
      case PictureId(s, g) =>
        assert a[..|a| - 3] == s && b[..|b| - 3] == y.source;
        DecimalInjective(g, y.gen);
      case ChunkId(s, g, i) =>
        if y.FrameId? {
          ChunkStemIsNoFrameStem(s, g, i, y.source, y.gen, y.index);
        } else {
          assert a[..|a| - 2] == s + "::g" + Decimal(g) && b[..|b| - 2] == y.source + "::g" + Decimal(y.gen);
          SourceAndGenerationInjective(s, g, y.source, y.gen);
          DecimalInjective(i, y.index);
        }
      case FrameId(s, g, i) =>
        if y.ChunkId? {
          ChunkStemIsNoFrameStem(y.source, y.gen, y.index, s, g, i);
        } else {
          assert a[..|a| - 9] == s + "::g" + Decimal(g) && b[..|b| - 9] == y.source + "::g" + Decimal(y.gen);
          SourceAndGenerationInjective(s, g, y.source, y.gen);
          DecimalInjective(i, y.index);
        }
    }
  }

  lemma ChunkStemIsNoFrameStem(s: Source, g: nat, i: nat, t: Source, h: nat, j: nat)
    ensures Stem(ChunkId(s, g, i)) != Stem(FrameId(t, h, j))
  {
    var a, b := Stem(ChunkId(s, g, i)), Stem(FrameId(t, h, j));
    assert b[|b| - 3] == 'e';
    assert a[|a| - 3] == Decimal(g)[|Decimal(g)| - 1];
  }
}
