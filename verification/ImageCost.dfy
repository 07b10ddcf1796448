/** The vision token cost of an image, and the JPEG header walk (src/imageCost.ts), over exact rationals. */
module ImageCost {
  import opened Text

  const PATCH := 28
  const MAX_EDGE := 2576
  const MAX_TOKENS := 4784

  /** Patches along an edge: pixels over 28, rounded up. */
  function Patches(px: nat): nat {
    (px + PATCH - 1) / PATCH
  }

  function Tokens(w: nat, h: nat): nat {
    Patches(w) * Patches(h)
  }

  predicate Fits(w: nat, h: nat) {
    Patches(w) * PATCH <= MAX_EDGE && Patches(h) * PATCH <= MAX_EDGE && Tokens(w, h) <= MAX_TOKENS
  }

  /** The rational n/d to the nearest integer, an exact half to the even one. */
  function RoundHalfEven(n: nat, d: nat): (r: nat)
    requires d > 0
    ensures n / d <= r <= n / d + 1
  {
    var f, rem := n / d, n % d;
    if 2 * rem > d then f + 1 else if 2 * rem < d then f else if f % 2 == 0 then f else f + 1
  }

  /** The short edge that goes with a long edge of `l`. */
  function ShortFor(long: nat, short: nat, l: nat): (s: nat)
    requires long > 0
    ensures s >= 1
  {
    var r := RoundHalfEven(l * short, long);
    if r < 1 then 1 else r
  }

  // ---------------------------------------------------------------------------------------------
  // Rounding
  // ---------------------------------------------------------------------------------------------

  lemma MulMonotone(a: nat, b: nat, c: nat)
    requires a <= b
    ensures a * c <= b * c
  {
  }

  /** The quotient is the one multiple of `d` at or below `n` with the next above it. */
  lemma QuotientIs(n: nat, q: nat, d: nat)
    requires d > 0 && q * d <= n < (q + 1) * d
    ensures n / d == q
  {
    var r := n / d;
    assert n == r * d + n % d;
    assert r < q ==> (r + 1) * d <= q * d;
    assert r > q ==> (q + 1) * d <= r * d;
  }

  lemma DivModMonotone(n: nat, m: nat, d: nat)
    requires d > 0 && n <= m
    ensures n / d < m / d || (n / d == m / d && n % d <= m % d)
  {
    assert n == n / d * d + n % d && m == m / d * d + m % d;
    if n / d > m / d {
      MulMonotone(m / d + 1, n / d, d);
    }
  }

  lemma RoundMonotone(n: nat, m: nat, d: nat)
    requires d > 0 && n <= m
    ensures RoundHalfEven(n, d) <= RoundHalfEven(m, d)
  {
    DivModMonotone(n, m, d);
  }

  /** Rounding is off by at most a half. */
  lemma RoundIsNearest(n: nat, d: nat)
    requires d > 0
    ensures 2 * n - d <= 2 * (RoundHalfEven(n, d) * d) <= 2 * n + d
  {
    var f := n / d;
    assert n == f * d + n % d;
    assert (f + 1) * d == f * d + d;
  }

  lemma RoundExact(k: nat, d: nat)
    requires d > 0
    ensures RoundHalfEven(k * d, d) == k
  {
    assert (k + 1) * d == k * d + d;
    QuotientIs(k * d, k, d);
    assert k * d == k * d / d * d + k * d % d;
  }

  // ---------------------------------------------------------------------------------------------
  // Fitting
  // ---------------------------------------------------------------------------------------------

  lemma PatchesMonotone(a: nat, b: nat)
    requires a <= b
    ensures Patches(a) <= Patches(b)
  {
  }

  lemma ShortMonotone(long: nat, short: nat, l: nat, m: nat)
    requires long > 0 && l <= m
    ensures ShortFor(long, short, l) <= ShortFor(long, short, m)
  {
    MulMonotone(l, m, short);
    RoundMonotone(l * short, m * short, long);
  }

  predicate FitsAt(long: nat, short: nat, l: nat)
    requires long > 0
  {
    Fits(l, ShortFor(long, short, l))
  }

  /** A smaller scale of an image that fits, fits. */
  lemma FitsBelow(long: nat, short: nat, l: nat, m: nat)
    requires long > 0 && l <= m && FitsAt(long, short, m)
    ensures FitsAt(long, short, l)
  {
    var s, t := ShortFor(long, short, l), ShortFor(long, short, m);
    ShortMonotone(long, short, l, m);
    PatchesMonotone(l, m);
    PatchesMonotone(s, t);
    MulMonotone(Patches(l), Patches(m), Patches(s));
    MulMonotone(Patches(s), Patches(t), Patches(m));
  }

  /** A long edge of one pixel is one patch. */
  lemma OneFits(long: nat, short: nat)
    requires 1 <= short <= long
    ensures FitsAt(long, short, 1)
  {
    RoundMonotone(1 * short, 1 * long, long);
    RoundExact(1, long);
  }

  function Long(w: nat, h: nat): nat { if w < h then h else w }
  function Short(w: nat, h: nat): nat { if w < h then w else h }

  /** The largest scale that fits: `l` fits and nothing above it up to the full size does. */
  ghost predicate Largest(w: nat, h: nat, l: nat)
    requires w >= 1 && h >= 1
  {
    && 1 <= l <= Long(w, h) && FitsAt(Long(w, h), Short(w, h), l)
    && forall m :: l < m <= Long(w, h) ==> !FitsAt(Long(w, h), Short(w, h), m)
  }

  method ImageTokenCost(width: nat, height: nat) returns (cost: nat)
    requires width >= 1 && height >= 1
    ensures cost <= MAX_TOKENS
    ensures Fits(width, height) ==> cost == Tokens(width, height)
    ensures !Fits(width, height) ==>
              exists l :: Largest(width, height, l) && cost == Tokens(l, ShortFor(Long(width, height), Short(width, height), l))
  {
    if Fits(width, height) {
      return Tokens(width, height);
    }
    var long, short := Long(width, height), Short(width, height);
    OneFits(long, short);
    var lo, hi := 1, long;
    while lo < hi
      invariant 1 <= lo <= hi <= long && FitsAt(long, short, lo)
      invariant forall m :: hi < m <= long ==> !FitsAt(long, short, m)
    {
      var mid := (lo + hi + 1) / 2;
      if Fits(mid, ShortFor(long, short, mid)) {
        lo := mid;
      } else {
        forall m | mid <= m <= long ensures !FitsAt(long, short, m) {
          if FitsAt(long, short, m) {
            FitsBelow(long, short, mid, m);
          }
        }
        hi := mid - 1;
      }
    }
    assert Largest(width, height, lo);
    cost := Tokens(lo, ShortFor(long, short, lo));
  }

  /** What the search returns, as a relation: there is one cost. */
  ghost predicate IsCost(width: nat, height: nat, cost: nat)
    requires width >= 1 && height >= 1
  {
    if Fits(width, height) then cost == Tokens(width, height)
    else exists l :: Largest(width, height, l) && cost == Tokens(l, ShortFor(Long(width, height), Short(width, height), l))
  }

  lemma LargestIsOne(w: nat, h: nat, l: nat, m: nat)
    requires w >= 1 && h >= 1 && Largest(w, h, l) && Largest(w, h, m)
    ensures l == m
  {
    assert !(l < m) && !(m < l);
  }

  lemma FitsTurned(w: nat, h: nat)
    ensures Tokens(w, h) == Tokens(h, w) && Fits(w, h) == Fits(h, w)
  {
    var p, q := Patches(w), Patches(h);
    assert p * q == q * p;
  }

  /** The cost is one number, the same for the image turned on its side. */
  lemma CostIsSymmetric(w: nat, h: nat, cost: nat, turned: nat)
    requires w >= 1 && h >= 1 && IsCost(w, h, cost) && IsCost(h, w, turned)
    ensures cost == turned
  {
    FitsTurned(w, h);
    if !Fits(w, h) {
      var long, short := Long(w, h), Short(w, h);
      assert long == Long(h, w) && short == Short(h, w);
      var l :| Largest(w, h, l) && cost == Tokens(l, ShortFor(long, short, l));
      var m :| Largest(h, w, m) && turned == Tokens(m, ShortFor(long, short, m));
      LargestTurned(w, h, m);
      LargestIsOne(w, h, l, m);
    }
  }

  lemma LargestTurned(w: nat, h: nat, m: nat)
    requires w >= 1 && h >= 1 && Largest(h, w, m)
    ensures Largest(w, h, m)
  {
  }

  /** The scaled image keeps the aspect to within half a pixel of the short edge, unless that edge is one pixel. */
  lemma AspectKept(long: nat, short: nat, l: nat)
    requires 1 <= short <= long
    ensures var s := ShortFor(long, short, l);
            s == 1 || 2 * (l * short) - long <= 2 * (s * long) <= 2 * (l * short) + long
  {
    RoundIsNearest(l * short, long);
  }

  /** At full size nothing is rounded, and the short edge stays the short one. */
  lemma ShortStaysShort(long: nat, short: nat, l: nat)
    requires 1 <= short <= long && 1 <= l
    ensures ShortFor(long, short, long) == short && ShortFor(long, short, l) <= l
  {
    RoundExact(short, long);
    assert long * short == short * long;
    MulMonotone(short, long, l);
    assert short * l == l * short && long * l == l * long;
    RoundMonotone(l * short, l * long, long);
    RoundExact(l, long);
  }

  // ---------------------------------------------------------------------------------------------
  // The JPEG walk
  // ---------------------------------------------------------------------------------------------

  newtype Byte = x: int | 0 <= x < 256

  datatype Size = Size(width: nat, height: nat)

  /** Markers without a length: RSTn, TEM and SOI (table B.1 of ITU-T T.81). */
  predicate Standalone(m: Byte) {
    0xd0 <= m <= 0xd7 || m == 0x01 || m == 0xd8
  }

  /** EOI, and SOS before any frame header. */
  predicate Ends(m: Byte) {
    m == 0xd9 || m == 0xda
  }

  /** Start of frame: every SOFn but DHT, JPG and DAC. */
  predicate IsFrame(m: Byte) {
    0xc0 <= m <= 0xcf && m != 0xc4 && m != 0xc8 && m != 0xcc
  }

  function Word(b: seq<Byte>, i: int): nat
    requires 0 <= i && i + 2 <= |b|
  {
    b[i] as int * 256 + b[i + 1] as int
  }

  /** Past the fill bytes. */
  function SkipFill(b: seq<Byte>, i: int): (k: int)
    requires 0 <= i <= |b|
    ensures i <= k <= |b|
    ensures i < |b| && b[i] == 0xff ==> i < k
    decreases |b| - i
  {
    if i < |b| && b[i] == 0xff then SkipFill(b, i + 1) else i
  }

  /** The size in the first frame header at or after the marker at `i`. */
  function JpegFrom(b: seq<Byte>, i: int): Option<Size>
    requires 0 <= i
    decreases |b| - i
  {
    if i >= |b| || b[i] != 0xff then None
    else
      var k := SkipFill(b, i);
      if k >= |b| then None
      else if Standalone(b[k]) then JpegFrom(b, k + 1)
      else if Ends(b[k]) || k + 3 > |b| then None
      else if IsFrame(b[k]) then
        if k + 8 > |b| then None else Some(Size(Word(b, k + 6), Word(b, k + 4)))
      else JpegFrom(b, k + 1 + Word(b, k + 1))
  }

  method Jpeg(b: seq<Byte>) returns (size: Option<Size>)
    ensures size == JpegFrom(b, 2)
  {
    var i := 2;
    while i < |b|
      invariant 2 <= i && JpegFrom(b, 2) == JpegFrom(b, i)
      decreases |b| - i
    {
      if b[i] != 0xff {
        return None;
      }
      ghost var start := i;
      while i < |b| && b[i] == 0xff
        invariant start <= i <= |b| && SkipFill(b, start) == SkipFill(b, i)
        invariant b[start] == 0xff && (i > start || i < |b|)
      {
        i := i + 1;
      }
      if i >= |b| {
        return None;
      }
      var marker := b[i];
      i := i + 1;
      if Standalone(marker) {
        continue;
      }
      if Ends(marker) || i + 2 > |b| {
        return None;
      }
      if IsFrame(marker) {
        return if i + 7 > |b| then None else Some(Size(Word(b, i + 5), Word(b, i + 3)));
      }
      i := i + Word(b, i);
    }
    size := None;
  }

  /** A segment before the frame header: `fill` extra 0xff bytes, a marker, and a body if the marker has a length. */
  datatype Segment = Segment(fill: nat, marker: Byte, body: seq<Byte>)

  predicate WellFormed(s: Segment) {
    && s.marker != 0xff && !Ends(s.marker) && !IsFrame(s.marker)
    && if Standalone(s.marker) then s.body == [] else |s.body| + 2 < 0x10000
  }

  function Fill(n: nat): (f: seq<Byte>)
    ensures |f| == n && forall i :: 0 <= i < n ==> f[i] == 0xff
  {
    seq(n, _ => 0xff as Byte)
  }

  function WordBytes(n: nat): seq<Byte>
    requires n < 0x10000
  {
    [(n / 256) as Byte, (n % 256) as Byte]
  }

  function Encode(s: Segment): seq<Byte>
    requires WellFormed(s)
  {
    Fill(s.fill + 1) + [s.marker]
    + if Standalone(s.marker) then [] else WordBytes(|s.body| + 2) + s.body
  }

  function EncodeAll(segments: seq<Segment>): seq<Byte>
    requires forall i :: 0 <= i < |segments| ==> WellFormed(segments[i])
  {
    if segments == [] then [] else Encode(segments[0]) + EncodeAll(segments[1..])
  }

  /** A frame header up to its sizes. */
  function FrameHeader(fill: nat, marker: Byte, length: nat, precision: Byte, size: Size): seq<Byte>
    requires length < 0x10000 && size.width < 0x10000 && size.height < 0x10000
  {
    Fill(fill + 1) + [marker] + WordBytes(length) + [precision] + WordBytes(size.height) + WordBytes(size.width)
  }

  lemma {:induction false} FillSkips(b: seq<Byte>, i: int, n: nat)
    requires 0 <= i && i + n < |b| && (forall j :: i <= j < i + n ==> b[j] == 0xff) && b[i + n] != 0xff
    ensures SkipFill(b, i) == i + n
    decreases n
  {
    if n > 0 {
      FillSkips(b, i + 1, n - 1);
    }
  }

  lemma SegmentSteps(b: seq<Byte>, i: int, s: Segment)
    requires WellFormed(s) && 0 <= i <= |b| && Encode(s) <= b[i..]
    ensures JpegFrom(b, i) == JpegFrom(b, i + |Encode(s)|)
  {
    var n, e := s.fill + 1, Encode(s);
    assert forall j :: 0 <= j < |e| ==> b[i + j] == b[i..][j] == e[j];
    assert forall j :: i <= j < i + n ==> b[j] == e[j - i] == 0xff;
    assert e[n] == s.marker && b[i] == 0xff;
    FillSkips(b, i, n);
    if !Standalone(s.marker) {
      var len := |s.body| + 2;
      assert e[n + 1] == WordBytes(len)[0] && e[n + 2] == WordBytes(len)[1];
      assert b[i + n + 1] == e[n + 1] && b[i + n + 2] == e[n + 2];
      assert len / 256 * 256 + len % 256 == len;
    }
  }

  /** Over any well-formed segments the walk steps as a whole. */
  lemma {:induction false} SegmentsStep(b: seq<Byte>, i: int, segments: seq<Segment>, end: int)
    requires forall k :: 0 <= k < |segments| ==> WellFormed(segments[k])
    requires 0 <= i <= |b| && EncodeAll(segments) <= b[i..] && end == i + |EncodeAll(segments)|
    ensures JpegFrom(b, i) == JpegFrom(b, end)
    decreases |segments|
  {
    if segments != [] {
      var head, rest := Encode(segments[0]), EncodeAll(segments[1..]);
      PrefixApart(b, i, head, rest);
      SegmentSteps(b, i, segments[0]);
      SegmentsStep(b, i + |head|, segments[1..], end);
    }
  }

  lemma PrefixApart(b: seq<Byte>, i: int, head: seq<Byte>, rest: seq<Byte>)
    requires 0 <= i <= |b| && head + rest <= b[i..]
    ensures head <= b[i..] && i + |head| <= |b| && rest <= b[i + |head|..]
  {
    assert b[i..][..|head|] == head && b[i..][|head|..|head| + |rest|] == rest;
    assert b[i + |head|..] == b[i..][|head|..];
  }

  /** The walk finds the size in the frame header behind any well-formed segments, whatever follows. */
  lemma WalkFinds(b: seq<Byte>, i: int, segments: seq<Segment>, fill: nat, marker: Byte, length: nat,
                  precision: Byte, size: Size)
    requires forall k :: 0 <= k < |segments| ==> WellFormed(segments[k])
    requires IsFrame(marker) && length < 0x10000 && size.width < 0x10000 && size.height < 0x10000
    requires 0 <= i <= |b| && EncodeAll(segments) <= b[i..]
    requires FrameHeader(fill, marker, length, precision, size) <= b[i..][|EncodeAll(segments)|..]
    ensures JpegFrom(b, i) == Some(size)
  {
    var end := i + |EncodeAll(segments)|;
    FrameBehind(b, i, end - i, fill, marker, length, precision, size);
    FoundThrough(b, i, segments, end, size);
  }

  lemma FoundThrough(b: seq<Byte>, i: int, segments: seq<Segment>, end: int, size: Size)
    requires forall k :: 0 <= k < |segments| ==> WellFormed(segments[k])
    requires 0 <= i <= |b| && EncodeAll(segments) <= b[i..] && end == i + |EncodeAll(segments)|
    requires JpegFrom(b, end) == Some(size)
    ensures JpegFrom(b, i) == Some(size)
  {
    SegmentsStep(b, i, segments, end);
  }

  lemma FrameBehind(b: seq<Byte>, i: int, n: int, fill: nat, marker: Byte, length: nat, precision: Byte, size: Size)
    requires IsFrame(marker) && length < 0x10000 && size.width < 0x10000 && size.height < 0x10000
    requires 0 <= i && 0 <= n && i + n <= |b| && FrameHeader(fill, marker, length, precision, size) <= b[i..][n..]
    ensures JpegFrom(b, i + n) == Some(size)
  {
    assert b[i + n..] == b[i..][n..];
    FrameReads(b, i + n, fill, marker, length, precision, size);
  }

  lemma FrameReads(b: seq<Byte>, i: int, fill: nat, marker: Byte, length: nat, precision: Byte, size: Size)
    requires IsFrame(marker) && length < 0x10000 && size.width < 0x10000 && size.height < 0x10000
    requires 0 <= i <= |b| && FrameHeader(fill, marker, length, precision, size) <= b[i..]
    ensures JpegFrom(b, i) == Some(size)
  {
    var n, e := fill + 1, FrameHeader(fill, marker, length, precision, size);
    assert forall j :: 0 <= j < |e| ==> b[i + j] == b[i..][j] == e[j];
    assert forall j :: i <= j < i + n ==> b[j] == e[j - i] == 0xff;
    assert e[n] == marker;
    FillSkips(b, i, n);
    assert b[i + n + 4] == e[n + 4] == WordBytes(size.height)[0] && b[i + n + 5] == e[n + 5] == WordBytes(size.height)[1];
    assert b[i + n + 6] == e[n + 6] == WordBytes(size.width)[0] && b[i + n + 7] == e[n + 7] == WordBytes(size.width)[1];
  }
}
