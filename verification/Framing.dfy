/** Commands cut into numbered, checksummed frames and put together again. */
module Framing {
  import opened Options
  import opened Text

  const COMMAND_MAX_TOTAL_FRAMES: nat := 64

  datatype Frame = Frame(seqNo: int, total: int, payload: string, crc: int)

  // ----- Bytes as the platform reads them

  function HexDigit(c: char): (d: Option<nat>)
    ensures d.Some? ==> d.value < 16
  {
    if '0' <= c <= '9' then Some(c as nat - '0' as nat)
    else if 'a' <= c <= 'f' then Some(c as nat - 'a' as nat + 10)
    else if 'A' <= c <= 'F' then Some(c as nat - 'A' as nat + 10)
    else None
  }

  /** What number parsing skips at the front. */
  predicate IsBlankChar(c: char) {
    var p := c as int;
    || 9 <= p <= 13 || p == 32 || p == 0xA0 || p == 0x1680 || 0x2000 <= p <= 0x200A
    || p == 0x2028 || p == 0x2029 || p == 0x202F || p == 0x205F || p == 0x3000 || p == 0xFEFF
  }

  function Negated(d: Option<nat>): Option<int> {
    if d.Some? then Some(-(d.value as int)) else None
  }

  function AsInt(d: Option<nat>): Option<int> {
    if d.Some? then Some(d.value as int) else None
  }

  /** `parseInt(pair, 16)`: more than two hexadecimal digits is accepted, such as a sign, a blank before
  a digit, or a digit before anything but the x of a prefix. */
  function ParseByte(c: char, d: char): Option<int> {
    if IsBlankChar(c) || c == '+' then AsInt(HexDigit(d))
    else if c == '-' then Negated(HexDigit(d))
    else if HexDigit(c).None? || (c == '0' && (d == 'x' || d == 'X')) then None
    else if HexDigit(d).None? then AsInt(HexDigit(c))
    else Some(16 * HexDigit(c).value + HexDigit(d).value)
  }

  predicate Even(s: string) {
    |s| % 2 == 0
  }

  /** The i-th pair of characters as a number. */
  function ByteAt(hex: string, i: nat): Option<int>
    requires 2 * i + 1 < |hex|
  {
    ParseByte(hex[2 * i], hex[2 * i + 1])
  }

  function Added(a: Option<int>, b: Option<int>): Option<int> {
    if a.Some? && b.Some? then Some(a.value + b.value) else None
  }

  /** The sum of the first k bytes, if they are all read as numbers. */
  function Sum(hex: string, k: nat): Option<int>
    requires 2 * k <= |hex|
  {
    if k == 0 then Some(0) else Added(Sum(hex, k - 1), ByteAt(hex, k - 1))
  }

  /** The checksum is the sum modulo 256. */
  function Crc(hex: string): (crc: Option<nat>)
    requires Even(hex)
    ensures crc.Some? ==> crc.value < 256
  {
    Reduced(Sum(hex, |hex| / 2))
  }

  function Reduced(sum: Option<int>): (crc: Option<nat>)
    ensures crc.Some? ==> crc.value < 256
  {
    if sum.Some? then Some(sum.value % 256) else None
  }

  /** The running total is cut to eight bits after every byte. */
  method Crc8Hex(hex: string) returns (crc: Option<nat>)
    requires Even(hex)
    ensures crc == Crc(hex)
  {
    var total: nat := 0;
    var i := 0;
    ghost var k := 0;
    while i < |hex|
      invariant i == 2 * k <= |hex| && Sum(hex, k).Some? && Reduced(Sum(hex, k)) == Some(total)
    {
      var byte := ParseByte(hex[i], hex[i + 1]);
      i, k := i + 2, k + 1;
      if byte.None? {
        SumStaysNone(hex, k, |hex| / 2);
        return None;
      }
      ModAdd(Sum(hex, k - 1).value, byte.value);
      total := (total + byte.value) % 256;
    }
    return Some(total);
  }

  lemma ModAdd(sum: int, byte: int)
    ensures (sum % 256 + byte) % 256 == (sum + byte) % 256
  {
  }

  lemma {:induction false} SumStaysNone(hex: string, k: nat, n: nat)
    requires k <= n && 2 * n <= |hex| && Sum(hex, k).None?
    ensures Sum(hex, n).None?
  {
    if k < n {
      SumStaysNone(hex, k, n - 1);
    }
  }

  lemma AddedAgain(a: Option<int>, b: Option<int>, byte: Option<int>)
    ensures Added(Added(a, b), byte) == Added(a, Added(b, byte)) && Added(a, Some(0)) == a
  {
  }

  /** From byte m on, s holds the bytes of b. */
  predicate Holds(s: string, b: string, m: nat, k: nat) {
    2 * (m + k) <= |s| && 2 * k <= |b| && forall i :: 2 * m <= i < 2 * (m + k) ==> s[i] == b[i - 2 * m]
  }

  lemma {:induction false} SumBehind(s: string, b: string, m: nat, k: nat)
    requires Holds(s, b, m, k)
    ensures Sum(s, m + k) == Added(Sum(s, m), Sum(b, k))
  {
    if k == 0 {
      AddedAgain(Sum(s, m), Some(0), None);
    } else {
      SumBehind(s, b, m, k - 1);
      assert ByteAt(s, m + k - 1) == ByteAt(b, k - 1);
      AddedAgain(Sum(s, m), Sum(b, k - 1), ByteAt(b, k - 1));
    }
  }

  lemma CrcAppend(a: string, b: string)
    requires Even(a) && Even(b)
    ensures Even(a + b) && Sum(a + b, |a + b| / 2) == Added(Sum(a, |a| / 2), Sum(b, |b| / 2))
  {
    var m, k := |a| / 2, |b| / 2;
    Doubled(|a|);
    Doubled(|b|);
    HalfOf(|a + b|, m + k);
    SumBoth(a, b, m, k);
  }

  lemma Doubled(n: nat)
    requires n % 2 == 0
    ensures n == 2 * (n / 2)
  {
  }

  lemma HalfOf(n: nat, m: nat)
    requires n == 2 * m
    ensures n % 2 == 0 && n / 2 == m
  {
  }

  lemma SumBoth(a: string, b: string, m: nat, k: nat)
    requires |a| == 2 * m && |b| == 2 * k
    ensures Sum(a + b, m + k) == Added(Sum(a, m), Sum(b, k))
  {
    HoldsBehind(a, b, m, k);
    SumFront(a + b, a, m);
    SumBehind(a + b, b, m, k);
  }

  /** The sum of the first bytes depends on nothing behind them. */
  lemma {:induction false} SumFront(s: string, a: string, m: nat)
    requires 2 * m <= |s| && 2 * m <= |a| && forall i :: 0 <= i < 2 * m ==> s[i] == a[i]
    ensures Sum(s, m) == Sum(a, m)
  {
    if m > 0 {
      SumFront(s, a, m - 1);
    }
  }

  lemma HoldsBehind(a: string, b: string, m: nat, k: nat)
    requires |a| == 2 * m && |b| == 2 * k
    ensures Holds(a + b, b, m, k)
  {
  }

  // ----- Framing

  predicate Framable(hex: string, chunkSize: nat) {
    hex != "" && Even(hex) && chunkSize > 0 && chunkSize % 2 == 0 && Crc(hex).Some?
  }

  lemma {:induction false} CutsCheck(hex: string, size: nat)
    requires Even(hex) && size > 0 && size % 2 == 0 && Crc(hex).Some?
    ensures forall k :: 0 <= k < |HardCuts(hex, size)| ==> Even(HardCuts(hex, size)[k]) && Crc(HardCuts(hex, size)[k]).Some?
    decreases |hex|
  {
    if |hex| > size {
      CrcAppend(hex[..size], hex[size..]);
      assert hex == hex[..size] + hex[size..];
      CutsCheck(hex[size..], size);
    }
  }

  function FrameOf(chunks: seq<string>, k: nat): Frame
    requires k < |chunks| && Even(chunks[k]) && Crc(chunks[k]).Some?
  {
    Frame(k, |chunks|, chunks[k], Crc(chunks[k]).value)
  }

  /** The frames of a command. */
  ghost predicate FramesOf(hex: string, chunkSize: nat, frames: seq<Frame>)
    requires Framable(hex, chunkSize)
  {
    var chunks := HardCuts(hex, chunkSize);
    CutsCheck(hex, chunkSize);
    |frames| == |chunks| && forall k :: 0 <= k < |chunks| ==> frames[k] == FrameOf(chunks, k)
  }

  /** `None` when the command is rejected. */
  method FrameCommand(hex: string, chunkSize: nat, maxTotal: nat) returns (frames: Option<seq<Frame>>)
    ensures frames.Some? <==> Framable(hex, chunkSize) && |HardCuts(hex, chunkSize)| <= maxTotal
    ensures frames.Some? ==> FramesOf(hex, chunkSize, frames.value)
  {
    if hex == "" || |hex| % 2 != 0 || chunkSize == 0 || chunkSize % 2 != 0 {
      return None;
    }
    var sum := Crc8Hex(hex);
    if sum.None? {
      return None;
    }
    var chunks := Cuts(hex, chunkSize);
    if |chunks| > maxTotal {
      return None;
    }
    CutsCheck(hex, chunkSize);
    var out: seq<Frame> := [];
    for k := 0 to |chunks|
      invariant |out| == k && forall j :: 0 <= j < k ==> out[j] == FrameOf(chunks, j)
    {
      var crc := Crc8Hex(chunks[k]);
      out := out + [Frame(k, |chunks|, chunks[k], crc.value)];
    }
    return Some(out);
  }

  // ----- Assembling

  predicate Checks(f: Frame, total: int) {
    f.total == total && 0 <= f.seqNo < total && Even(f.payload) && Crc(f.payload).Some? && Crc(f.payload).value == f.crc
  }

  /** The payload last given for a number. */
  function Latest(frames: seq<Frame>, k: int): Option<string> {
    if frames == [] then None
    else if frames[|frames| - 1].seqNo == k then Some(frames[|frames| - 1].payload)
    else Latest(frames[..|frames| - 1], k)
  }

  predicate Complete(frames: seq<Frame>) {
    && frames != [] && 0 < frames[0].total <= COMMAND_MAX_TOTAL_FRAMES
    && (forall i :: 0 <= i < |frames| ==> Checks(frames[i], frames[0].total))
    && (forall k :: 0 <= k < frames[0].total ==> Latest(frames, k).Some?)
  }

  /** The filed payload, or nothing. */
  function PayloadAt(frames: seq<Frame>, k: int): string {
    if Latest(frames, k).Some? then Latest(frames, k).value else ""
  }

  /** The first n filed payloads. */
  function Payloads(frames: seq<Frame>, n: nat): (r: seq<string>)
    ensures |r| == n && forall k :: 0 <= k < n ==> r[k] == PayloadAt(frames, k)
  {
    if n == 0 then [] else Payloads(frames, n - 1) + [PayloadAt(frames, n - 1)]
  }

  /** Checks the frames one after the other and files their payloads by number. */
  method Collect(frames: seq<Frame>, total: nat, ordered: array<Option<string>>) returns (ok: bool)
    requires ordered.Length == total && forall k :: 0 <= k < total ==> ordered[k] == None
    modifies ordered
    ensures ok <==> forall i :: 0 <= i < |frames| ==> Checks(frames[i], total)
    ensures ok ==> forall k :: 0 <= k < total ==> ordered[k] == Latest(frames, k)
  {
    for i := 0 to |frames|
      invariant forall j :: 0 <= j < i ==> Checks(frames[j], total)
      invariant forall k :: 0 <= k < total ==> ordered[k] == Latest(frames[..i], k)
    {
      assert frames[..i + 1][..i] == frames[..i] && frames[..i + 1][i] == frames[i];
      var f := frames[i];
      if f.total != total || f.seqNo < 0 || f.seqNo >= total || |f.payload| % 2 != 0 {
        return false;
      }
      var crc := Crc8Hex(f.payload);
      if crc.None? || crc.value != f.crc {
        return false;
      }
      ordered[f.seqNo] := Some(f.payload);
    }
    assert frames[..|frames|] == frames;
    return true;
  }

  method AssembleFrames(frames: seq<Frame>) returns (hex: Option<string>)
    ensures hex == if Complete(frames) then Some(Concat(Payloads(frames, frames[0].total))) else None
  {
    if frames == [] || frames[0].total <= 0 || frames[0].total > COMMAND_MAX_TOTAL_FRAMES {
      return None;
    }
    var total := frames[0].total;
    var ordered := new Option<string>[total](_ => None);
    var ok := Collect(frames, total, ordered);
    if !ok {
      return None;
    }
    hex := Join(frames, ordered);
  }

  /** The filed payloads one after the other, unless one is missing. */
  method Join(ghost frames: seq<Frame>, ordered: array<Option<string>>) returns (hex: Option<string>)
    requires forall k :: 0 <= k < ordered.Length ==> ordered[k] == Latest(frames, k)
    ensures hex.Some? <==> forall k :: 0 <= k < ordered.Length ==> Latest(frames, k).Some?
    ensures hex.Some? ==> hex.value == Concat(Payloads(frames, ordered.Length))
  {
    var values: seq<string> := [];
    for k := 0 to ordered.Length
      invariant forall j :: 0 <= j < k ==> Latest(frames, j).Some?
      invariant values == Payloads(frames, k)
    {
      if ordered[k].None? {
        assert Latest(frames, k).None?;
        return None;
      }
      values := values + [ordered[k].value];
    }
    return Some(Concat(values));
  }

  // ----- Round trip

  /** Only frames of the command are delivered. */
  predicate Delivered(frames: seq<Frame>, sent: seq<Frame>) {
    forall i :: 0 <= i < |frames| ==> frames[i] in sent
  }

  predicate HasNumber(frames: seq<Frame>, k: int) {
    exists i :: 0 <= i < |frames| && frames[i].seqNo == k
  }

  lemma {:induction false} LatestIs(frames: seq<Frame>, k: int)
    ensures Latest(frames, k).Some? <==> HasNumber(frames, k)
    ensures Latest(frames, k).Some? ==> exists i :: 0 <= i < |frames| && frames[i].seqNo == k && frames[i].payload == Latest(frames, k).value
  {
    if frames != [] {
      var n := |frames| - 1;
      LatestIs(frames[..n], k);
      if frames[n].seqNo == k {
        assert HasNumber(frames, k);
      } else if HasNumber(frames[..n], k) {
        var i :| 0 <= i < n && frames[..n][i].seqNo == k && frames[..n][i].payload == Latest(frames[..n], k).value;
        assert frames[i].seqNo == k;
      }
    }
  }

  lemma DeliveredChecks(hex: string, chunkSize: nat, sent: seq<Frame>, f: Frame)
    requires Framable(hex, chunkSize) && FramesOf(hex, chunkSize, sent) && f in sent
    ensures Checks(f, |sent|) && sent[f.seqNo] == f && f.payload == HardCuts(hex, chunkSize)[f.seqNo]
  {
    CutsCheck(hex, chunkSize);
    var k :| 0 <= k < |sent| && sent[k] == f;
  }

  lemma DeliveredLatest(hex: string, chunkSize: nat, sent: seq<Frame>, frames: seq<Frame>, k: nat)
    requires Framable(hex, chunkSize) && FramesOf(hex, chunkSize, sent) && Delivered(frames, sent) && k < |sent|
    ensures Latest(frames, k).Some? <==> sent[k] in frames
    ensures Latest(frames, k).Some? ==> Latest(frames, k).value == HardCuts(hex, chunkSize)[k]
  {
    LatestIs(frames, k);
    forall i | 0 <= i < |frames|
      ensures frames[i].seqNo == k ==> frames[i] == sent[k] && frames[i].payload == HardCuts(hex, chunkSize)[k]
    {
      DeliveredChecks(hex, chunkSize, sent, frames[i]);
    }
    if sent[k] in frames {
      var i :| 0 <= i < |frames| && frames[i] == sent[k];
      assert frames[i].seqNo == k;
    }
  }

  /** Frames of one command, delivered in any order and any number of times: they assemble, to exactly
  the command, if and only if none is missing, for every command of at most 64 frames. */
  lemma {:induction false} AssemblesIffAllDelivered(hex: string, chunkSize: nat, sent: seq<Frame>, frames: seq<Frame>)
    requires Framable(hex, chunkSize) && FramesOf(hex, chunkSize, sent) && Delivered(frames, sent)
    ensures Complete(frames) <==> |sent| <= COMMAND_MAX_TOTAL_FRAMES && AllDelivered(frames, sent)
    ensures Complete(frames) ==> Concat(Payloads(frames, frames[0].total)) == hex
  {
    forall i | 0 <= i < |frames|
      ensures Checks(frames[i], |sent|)
    {
      DeliveredChecks(hex, chunkSize, sent, frames[i]);
    }
    forall k: nat | k < |sent|
      ensures Latest(frames, k).Some? <==> sent[k] in frames
      ensures Latest(frames, k).Some? ==> Latest(frames, k).value == HardCuts(hex, chunkSize)[k]
    {
      DeliveredLatest(hex, chunkSize, sent, frames, k);
    }
    assert sent[0] in frames ==> frames != [];
    if Complete(frames) {
      assert frames[0].total == |sent|;
      assert Payloads(frames, |sent|) == HardCuts(hex, chunkSize);
      HardCutsConcat(hex, chunkSize);
    }
  }

  predicate AllDelivered(frames: seq<Frame>, sent: seq<Frame>) {
    forall k :: 0 <= k < |sent| ==> sent[k] in frames
  }

  // ----- Damage

  /** The byte at position k replaced by the pair c, d. */
  function Changed(s: string, k: nat, c: char, d: char): string
    requires 2 * k + 2 <= |s|
  {
    s[2 * k := c][2 * k + 1 := d]
  }

  /** Byte k of t is byte k of s plus delta; the other bytes are the same. */
  ghost predicate Differs(s: string, t: string, n: nat, k: nat, delta: int) {
    && 2 * n <= |s| && 2 * n <= |t|
    && forall i: nat :: i < n ==> if i == k then ByteAt(t, i) == Added(ByteAt(s, i), Some(delta)) else ByteAt(t, i) == ByteAt(s, i)
  }

  lemma {:induction false} SumDiffers(s: string, t: string, n: nat, k: nat, delta: int)
    requires Differs(s, t, n, k, delta)
    ensures Sum(t, n) == if k < n then Added(Sum(s, n), Some(delta)) else Sum(s, n)
  {
    if n > 0 {
      SumDiffers(s, t, n - 1, k, delta);
    }
  }

  lemma {:induction false} SumParts(s: string, n: nat, k: nat)
    requires k < n && 2 * n <= |s| && Sum(s, n).Some?
    ensures ByteAt(s, k).Some?
  {
    if k < n - 1 {
      SumParts(s, n - 1, k);
    }
  }

  lemma ChangedByte(s: string, k: nat, c: char, d: char)
    requires 2 * k + 2 <= |s| && ByteAt(s, k).Some? && ParseByte(c, d).Some?
    ensures Differs(s, Changed(s, k, c, d), |s| / 2, k, ParseByte(c, d).value - ByteAt(s, k).value)
  {
    var t := Changed(s, k, c, d);
    assert ByteAt(t, k) == ParseByte(c, d);
    forall i: nat | i < |s| / 2 && i != k
      ensures ByteAt(t, i) == ByteAt(s, i)
    {
      assert t[2 * i] == s[2 * i] && t[2 * i + 1] == s[2 * i + 1];
    }
  }

  /** A change of one byte to a pair that is still read as a number goes unnoticed if and only if the
  value is the same modulo 256. */
  lemma ChangeUnnoticedIff(f: Frame, total: int, k: nat, c: char, d: char)
    requires Checks(f, total) && 2 * k + 2 <= |f.payload| && ParseByte(c, d).Some?
    ensures ByteAt(f.payload, k).Some?
    ensures Checks(f.(payload := Changed(f.payload, k, c, d)), total) <==>
      (ParseByte(c, d).value - ByteAt(f.payload, k).value) % 256 == 0
  {
    var s := f.payload;
    SumParts(s, |s| / 2, k);
    ChangedByte(s, k, c, d);
    var delta := ParseByte(c, d).value - ByteAt(s, k).value;
    SumDiffers(s, Changed(s, k, c, d), |s| / 2, k, delta);
    SameResidue(Sum(s, |s| / 2).value, delta);
  }

  lemma SameResidue(x: int, delta: int)
    ensures (x + delta) % 256 == x % 256 <==> delta % 256 == 0
  {
  }

  /** Between bytes of two hexadecimal digits the same value modulo 256 means the same byte, so every
  change from one to another is noticed. */
  lemma {:induction false} HexBytesDiffer(c: char, d: char, e: char, g: char)
    requires HexDigit(c).Some? && HexDigit(d).Some? && HexDigit(e).Some? && HexDigit(g).Some?
    ensures ParseByte(c, d).Some? && ParseByte(e, g).Some?
    ensures (ParseByte(e, g).value - ParseByte(c, d).value) % 256 == 0 <==> ParseByte(e, g) == ParseByte(c, d)
  {
    HexByte(c, d);
    HexByte(e, g);
    SmallResidue(ParseByte(e, g).value - ParseByte(c, d).value);
  }

  lemma HexByte(c: char, d: char)
    requires HexDigit(c).Some? && HexDigit(d).Some?
    ensures ParseByte(c, d) == Some(16 * HexDigit(c).value + HexDigit(d).value)
  {
  }

  lemma SmallResidue(delta: int)
    requires -256 < delta < 256
    ensures delta % 256 == 0 <==> delta == 0
  {
  }

  predicate HexPair(c: char, d: char) {
    HexDigit(c).Some? && HexDigit(d).Some?
  }

  /** Frame i with the byte at position k of its payload replaced by c, d. */
  function Damaged(frames: seq<Frame>, i: nat, k: nat, c: char, d: char): seq<Frame>
    requires i < |frames| && 2 * k + 2 <= |frames[i].payload|
  {
    frames[i := frames[i].(payload := Changed(frames[i].payload, k, c, d))]
  }

  lemma HexByteNoticed(f: Frame, total: int, k: nat, c: char, d: char)
    requires Checks(f, total) && 2 * k + 2 <= |f.payload|
    requires HexPair(f.payload[2 * k], f.payload[2 * k + 1]) && HexPair(c, d)
    requires ParseByte(c, d) != ByteAt(f.payload, k)
    ensures !Checks(f.(payload := Changed(f.payload, k, c, d)), total)
  {
    HexBytesDiffer(f.payload[2 * k], f.payload[2 * k + 1], c, d);
    ChangeUnnoticedIff(f, total, k, c, d);
  }

  /** Of a delivery of frames of one command, in any order and multiplicity, one frame whose byte of two
  hexadecimal digits is changed to a different such byte makes assembling fail, whatever else was delivered. */
  lemma {:induction false} DamagedDeliveryRejected(hex: string, chunkSize: nat, sent: seq<Frame>, frames: seq<Frame>,
                                                   i: nat, k: nat, c: char, d: char)
    requires Framable(hex, chunkSize) && FramesOf(hex, chunkSize, sent) && Delivered(frames, sent)
    requires i < |frames| && 2 * k + 2 <= |frames[i].payload|
    requires HexPair(frames[i].payload[2 * k], frames[i].payload[2 * k + 1]) && HexPair(c, d)
    requires ParseByte(c, d) != ByteAt(frames[i].payload, k)
    ensures !Complete(Damaged(frames, i, k, c, d))
  {
    DeliveredChecks(hex, chunkSize, sent, frames[i]);
    DeliveredChecks(hex, chunkSize, sent, frames[0]);
    HexByteNoticed(frames[i], |sent|, k, c, d);
    var damaged := Damaged(frames, i, k, c, d);
    assert damaged[0].total == |sent| && !Checks(damaged[i], |sent|);
  }

  // ----- Checksums

  function SumOf(frames: seq<Frame>): int {
    if frames == [] then 0 else SumOf(frames[..|frames| - 1]) + frames[|frames| - 1].crc
  }

  predicate Sums(chunk: string, crc: int) {
    Even(chunk) && Crc(chunk).Some? && Crc(chunk).value == crc
  }

  lemma SumsAppend(a: string, sum: int, b: string, crc: int)
    requires Sums(a, sum % 256) && Sums(b, crc)
    ensures Sums(a + b, (sum + crc) % 256)
  {
    CrcAppend(a, b);
    ModSum(Sum(a, |a| / 2).value, Sum(b, |b| / 2).value, sum, crc);
  }

  lemma ModSum(x: int, y: int, sum: int, crc: int)
    requires x % 256 == sum % 256 && y % 256 == crc
    ensures (x + y) % 256 == (sum + crc) % 256
  {
  }

  ghost predicate AllSum(chunks: seq<string>, frames: seq<Frame>) {
    |frames| == |chunks| && forall k :: 0 <= k < |chunks| ==> Sums(chunks[k], frames[k].crc)
  }

  lemma AllSumInit(chunks: seq<string>, frames: seq<Frame>)
    requires AllSum(chunks, frames) && chunks != []
    ensures AllSum(chunks[..|chunks| - 1], frames[..|chunks| - 1]) && Sums(chunks[|chunks| - 1], frames[|chunks| - 1].crc)
  {
  }

  lemma {:induction false} CrcOfConcat(chunks: seq<string>, frames: seq<Frame>)
    requires AllSum(chunks, frames)
    ensures Sums(Concat(chunks), SumOf(frames) % 256)
  {
    if chunks != [] {
      AllSumInit(chunks, frames);
      var n := |chunks| - 1;
      CrcOfConcat(chunks[..n], frames[..n]);
      SumsAppend(Concat(chunks[..n]), SumOf(frames[..n]), chunks[n], frames[n].crc);
    }
  }

  /** The checksums of a command's frames sum, modulo 256, to the command's. */
  lemma ChecksumsSum(hex: string, chunkSize: nat, sent: seq<Frame>)
    requires Framable(hex, chunkSize) && FramesOf(hex, chunkSize, sent)
    ensures SumOf(sent) % 256 == Crc(hex).value
  {
    CutsCheck(hex, chunkSize);
    var chunks := HardCuts(hex, chunkSize);
    forall k | 0 <= k < |chunks|
      ensures Sums(chunks[k], sent[k].crc)
    {
      assert sent[k] == FrameOf(chunks, k);
    }
    CrcOfConcat(chunks, sent);
    HardCutsConcat(hex, chunkSize);
  }
}
