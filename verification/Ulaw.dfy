/** G.711 mu-law, decoded by the table of section 3 of ITU-T G.711 scaled to 16 bits and encoded
    to the nearest decoded level. */
module Ulaw {
  type Byte = b: int | 0 <= b < 256

  function Pow2(n: nat): (r: nat)
    ensures r > 0
  {
    if n == 0 then 1 else 2 * Pow2(n - 1)
  }

  // ---- the decode table ----

  /** `a << e`. */
  function Shifted(a: int, e: nat): int { a * Pow2(e) }

  /** The magnitude of the seven low bits of an inverted byte: exponent times sixteen plus mantissa. */
  function Magnitude(m: nat): int {
    Shifted(8 * (m % 16) + 132, m / 16) - 132
  }

  /** The seven low bits of the inverted byte; inverting is subtracting from 255. */
  function Bits(b: Byte): (m: nat)
    ensures m < 128
  {
    if b < 128 then 127 - b else 255 - b
  }

  /** The level byte b stands for: its high bit, inverted, is the sign. */
  function Decode(b: Byte): int {
    if b < 128 then -Magnitude(Bits(b)) else Magnitude(Bits(b))
  }

  method BuildDecodeTable() returns (table: array<int>)
    ensures fresh(table) && table.Length == 256
    ensures forall b: Byte :: table[b] == Decode(b)
  {
    table := new int[256](_ => 0);
    for i := 0 to 256
      invariant forall b: Byte :: b < i ==> table[b] == Decode(b)
    {
      var u := 255 - i;
      var sign := u / 128;
      var exponent := (u / 16) % 8;
      var mantissa := u % 16;
      var magnitude := Shifted(mantissa * 8 + 132, exponent) - 132;
      SplitByte(u);
      assert Bits(i) == u % 128;
      table[i] := if sign != 0 then -magnitude else magnitude;
    }
  }

  lemma SplitByte(u: int)
    requires 0 <= u < 256
    ensures (u / 16) % 8 == (u % 128) / 16 && (u % 128) % 16 == u % 16
    ensures u % 128 == if u >= 128 then u - 128 else u
  {
    var b := u / 128;
    assert u % 128 == u - 128 * b;
    assert u / 16 == 8 * b + (u - 128 * b) / 16;
  }

  /** Shifts by up to seven, without the multiplication. */
  lemma Shifts(a: int)
    ensures Shifted(a, 0) == a && Shifted(a, 1) == 2 * a && Shifted(a, 2) == 4 * a && Shifted(a, 3) == 8 * a
    ensures Shifted(a, 4) == 16 * a && Shifted(a, 5) == 32 * a && Shifted(a, 6) == 64 * a && Shifted(a, 7) == 128 * a
  {
    assert Pow2(1) == 2 && Pow2(2) == 4 && Pow2(3) == 8;
    assert Pow2(4) == 16 && Pow2(5) == 32 && Pow2(6) == 64 && Pow2(7) == 128;
  }

  /** The magnitudes, one exponent at a time. */
  lemma MagnitudeAt(e: nat, k: nat)
    requires e < 8 && k < 16
    ensures Magnitude(16 * e + k) == Shifted(8 * k + 132, e) - 132
  {
    assert (16 * e + k) / 16 == e && (16 * e + k) % 16 == k;
  }

  lemma MagnitudesIncrease(m: nat)
    requires m < 127
    ensures 0 <= Magnitude(m) < Magnitude(m + 1) <= 32124
  {
    var e, k := m / 16, m % 16;
    MagnitudeAt(e, k);
    Shifts(8 * k + 132);
    Shifts(8 * k + 140);
    Shifts(132);
    if k < 15 { MagnitudeAt(e, k + 1); } else { MagnitudeAt(e + 1, 0); }
  }

  lemma {:induction false} MagnitudesAreOrdered(m: nat, n: nat)
    requires m < n < 128
    ensures 0 <= Magnitude(m) < Magnitude(n) <= 32124
    decreases n - m
  {
    MagnitudesIncrease(n - 1);
    if m < n - 1 { MagnitudesAreOrdered(m, n - 1); }
  }

  /** The bit operations of the table's construction, as the arithmetic used above. */
  lemma BitsOfAByte(u: bv8)
    ensures (u & 0x80 != 0) <==> u as int >= 128
    ensures ((u >> 4) & 0x07) as int == (u as int / 16) % 8
    ensures (u & 0x0F) as int == u as int % 16
  {
    ShiftedNibble(u);
    LowNibble(u);
  }

  lemma ShiftedNibble(u: bv8)
    ensures ((u >> 4) & 0x07) as int == (u as int / 16) % 8
  {
  }

  lemma LowNibble(u: bv8)
    ensures (u & 0x0F) as int == u as int % 16
  {
  }

  /** Only the two zeros share a level. */
  lemma DecodeIsInjectiveButForZero(a: Byte, b: Byte)
    ensures Decode(a) == Decode(b) <==> a == b || (a in {0x7F, 0xFF} && b in {0x7F, 0xFF})
  {
    Zero();
    Sizes(Bits(a), Bits(b));
  }

  /** Magnitudes order as their bits do, and only that of zero is zero. */
  lemma Sizes(m: nat, n: nat)
    requires m < 128 && n < 128
    ensures (m < n <==> Magnitude(m) < Magnitude(n)) && (m == n <==> Magnitude(m) == Magnitude(n))
    ensures 0 <= Magnitude(m) <= 32124 && (m == 0 <==> Magnitude(m) == 0)
    ensures 0 <= Magnitude(n) <= 32124 && (n == 0 <==> Magnitude(n) == 0)
  {
    Zero();
    if m < n { MagnitudesAreOrdered(m, n); }
    if n < m { MagnitudesAreOrdered(n, m); }
    if m > 0 { MagnitudesAreOrdered(0, m); }
    if n > 0 { MagnitudesAreOrdered(0, n); }
  }

  lemma Zero()
    ensures Magnitude(0) == 0 && Decode(0x7F) == 0 && Decode(0xFF) == 0
  {
    MagnitudeAt(0, 0);
    Shifts(132);
  }

  // ---- the encoder ----

  predicate IsSorted(levels: seq<int>) { forall i, j :: 0 <= i < j < |levels| ==> levels[i] <= levels[j] }

  /** The sorted levels and, for each, a byte that decodes to it: what sorting the table and
      arg-sorting it produce, whichever of the two zeros comes first. */
  ghost predicate IsSortedTable(levels: seq<int>, toByte: seq<Byte>) {
    && |levels| == |toByte| == 256
    && IsSorted(levels)
    && (forall i :: 0 <= i < 256 ==> levels[i] == Decode(toByte[i]))
    && (forall b: Byte :: b in toByte)
  }

  /** The first index in [lo, hi] whose level is at least s. */
  function SearchSorted(levels: seq<int>, s: int, lo: nat, hi: nat): (r: nat)
    requires lo <= hi <= |levels|
    requires IsSorted(levels)
    requires forall i :: 0 <= i < lo ==> levels[i] < s
    requires forall i :: hi <= i < |levels| ==> s <= levels[i]
    ensures r <= |levels|
    ensures forall i :: 0 <= i < r ==> levels[i] < s
    ensures forall i :: r <= i < |levels| ==> s <= levels[i]
    decreases hi - lo
  {
    if lo == hi then lo
    else
      var mid := (lo + hi) / 2;
      if levels[mid] < s then SearchSorted(levels, s, mid + 1, hi) else SearchSorted(levels, s, lo, mid)
  }

  function Clip(x: int): int { if x < -32768 then -32768 else if x > 32767 then 32767 else x }

  function Abs(x: int): nat { if x < 0 then -x else x }

  /** Where s belongs among the levels: all those before are less, all the others are not. */
  predicate Belongs(levels: seq<int>, s: int, at: nat) {
    && at <= |levels|
    && (forall i :: 0 <= i < at ==> levels[i] < s)
    && (forall i :: at <= i < |levels| ==> s <= levels[i])
  }

  function Place(levels: seq<int>, s: int): (at: nat)
    requires IsSorted(levels)
    ensures Belongs(levels, s, at)
  {
    SearchSorted(levels, s, 0, |levels|)
  }

  /** The nearer of the two neighbours of a place: the lower of them on a tie. */
  function Nearer(levels: seq<int>, s: int, at: nat): (r: nat)
    requires |levels| == 256 && at <= 256
    ensures r < 256
  {
    var idx := if at > 255 then 255 else at;
    var lo := if idx == 0 then 0 else idx - 1;
    if Abs(s - levels[lo]) <= Abs(s - levels[idx]) then lo else idx
  }

  /** The index of the level chosen for s. */
  function Chosen(levels: seq<int>, s: int): (r: nat)
    requires |levels| == 256 && IsSorted(levels)
    ensures r < 256
  {
    Nearer(levels, s, Place(levels, s))
  }

  ghost function Encode(levels: seq<int>, toByte: seq<Byte>, x: int): Byte
    requires IsSortedTable(levels, toByte)
  {
    var b := toByte[Chosen(levels, Clip(x))];
    if b == 0x7F then 0xFF else b
  }

  ghost function EncodeAll(levels: seq<int>, toByte: seq<Byte>, samples: seq<int>): (r: seq<Byte>)
    requires IsSortedTable(levels, toByte)
    ensures |r| == |samples| && forall i :: 0 <= i < |r| ==> r[i] == Encode(levels, toByte, samples[i])
  {
    seq(|samples|, i requires 0 <= i < |samples| => Encode(levels, toByte, samples[i]))
  }

  function DecodeAll(bytes: seq<Byte>): (r: seq<int>)
    ensures |r| == |bytes| && forall i :: 0 <= i < |r| ==> r[i] == Decode(bytes[i])
  {
    seq(|bytes|, i requires 0 <= i < |bytes| => Decode(bytes[i]))
  }

  /** The bytes from the most negative level up. */
  function Rising(i: nat): Byte
    requires i < 256
  {
    if i < 128 then i else 383 - i
  }

  lemma LevelsRise(i: nat, j: nat)
    requires i < j < 256
    ensures Decode(Rising(i)) <= Decode(Rising(j))
  {
    Zero();
    if j < 128 { MagnitudesAreOrdered(127 - j, 127 - i); }
    else if i >= 128 { MagnitudesAreOrdered(i - 128, j - 128); }
    else {
      if i < 127 { MagnitudesAreOrdered(0, 127 - i); }
      if j > 128 { MagnitudesAreOrdered(0, j - 128); }
    }
  }

  /** There is such a table: bytes 0 to 127 in order, then 255 down to 128. */
  lemma SortedTableExists()
    ensures exists levels, toByte :: IsSortedTable(levels, toByte)
  {
    var toByte: seq<Byte> := seq(256, i requires 0 <= i < 256 => Rising(i));
    var levels := seq(256, i requires 0 <= i < 256 => Decode(toByte[i]));
    forall i, j | 0 <= i < j < 256 ensures levels[i] <= levels[j] {
      LevelsRise(i, j);
    }
    forall b: Byte ensures b in toByte {
      assert toByte[Rising(b)] == b;
    }
    assert IsSortedTable(levels, toByte);
  }

  lemma EncodedLevel(levels: seq<int>, toByte: seq<Byte>, x: int)
    requires IsSortedTable(levels, toByte)
    ensures Decode(Encode(levels, toByte, x)) == levels[Chosen(levels, Clip(x))]
  {
    Zero();
  }

  lemma NearerBeatsBoth(levels: seq<int>, s: int, at: nat)
    requires |levels| == 256 && at <= 256
    ensures at > 0 ==> Abs(levels[Nearer(levels, s, at)] - s) <= Abs(levels[at - 1] - s)
    ensures at < 256 ==> Abs(levels[Nearer(levels, s, at)] - s) <= Abs(levels[at] - s)
    ensures 0 < at < 256 && Abs(levels[at - 1] - s) == Abs(levels[at] - s) ==> Nearer(levels, s, at) == at - 1
  {
  }

  lemma NearestAt(levels: seq<int>, s: int, at: nat, k: nat)
    requires |levels| == 256 && IsSorted(levels) && Belongs(levels, s, at) && k < 256
    ensures AtLeastAsNear(levels[Nearer(levels, s, at)], levels[k], s)
  {
    NearerBeatsBoth(levels, s, at);
    if k < at {
      assert levels[k] <= levels[at - 1] < s;
    } else {
      assert s <= levels[at] <= levels[k];
    }
  }

  /** The value r is as near to s as x, and not above it if just as near. */
  predicate AtLeastAsNear(r: int, x: int, s: int) {
    Abs(r - s) <= Abs(x - s) && (Abs(r - s) == Abs(x - s) ==> r <= x)
  }

  lemma ChosenIsNearest(levels: seq<int>, s: int, k: nat)
    requires |levels| == 256 && IsSorted(levels) && k < 256
    ensures AtLeastAsNear(levels[Chosen(levels, s)], levels[k], s)
  {
    var at := Place(levels, s);
    NearestAt(levels, s, at, k);
  }

  lemma EncodesToTheNearestOfTheClipped(levels: seq<int>, toByte: seq<Byte>, x: int, b: Byte)
    requires IsSortedTable(levels, toByte)
    ensures Abs(Decode(Encode(levels, toByte, x)) - Clip(x)) <= Abs(Decode(b) - Clip(x))
    ensures Abs(Decode(Encode(levels, toByte, x)) - Clip(x)) == Abs(Decode(b) - Clip(x)) ==>
              Decode(Encode(levels, toByte, x)) <= Decode(b)
  {
    EncodedLevel(levels, toByte, x);
    assert b in toByte;
    var k :| 0 <= k < 256 && toByte[k] == b;
    ChosenIsNearest(levels, Clip(x), k);
  }

  /** No byte stands for a level nearer to the sample, whatever integer it is; and of two levels
      equally near, the lower is taken. */
  lemma EncodesToTheNearest(levels: seq<int>, toByte: seq<Byte>, x: int, b: Byte)
    requires IsSortedTable(levels, toByte)
    ensures Abs(Decode(Encode(levels, toByte, x)) - x) <= Abs(Decode(b) - x)
    ensures Abs(Decode(Encode(levels, toByte, x)) - x) == Abs(Decode(b) - x) ==>
              Decode(Encode(levels, toByte, x)) <= Decode(b)
  {
    EncodesToTheNearestOfTheClipped(levels, toByte, x, b);
    LevelsFit(b);
    LevelsFit(Encode(levels, toByte, x));
  }

  /** Of two values, one at least as near to s and the other at least as near to a larger t. */
  lemma NearerOnes(a: int, b: int, s: int, t: int)
    requires s < t && AtLeastAsNear(a, b, s) && AtLeastAsNear(b, a, t)
    ensures a <= b
  {
  }

  lemma ChosenIsMonotone(levels: seq<int>, s: int, t: int)
    requires |levels| == 256 && s <= t && IsSorted(levels)
    ensures levels[Chosen(levels, s)] <= levels[Chosen(levels, t)]
  {
    if s < t {
      var i, j := Chosen(levels, s), Chosen(levels, t);
      ChosenIsNearest(levels, s, j);
      ChosenIsNearest(levels, t, i);
      NearerOnes(levels[i], levels[j], s, t);
    }
  }

  /** Louder in, never quieter out. */
  lemma QuantisationIsMonotone(levels: seq<int>, toByte: seq<Byte>, x: int, y: int)
    requires IsSortedTable(levels, toByte) && x <= y
    ensures Decode(Encode(levels, toByte, x)) <= Decode(Encode(levels, toByte, y))
  {
    EncodedLevel(levels, toByte, x);
    EncodedLevel(levels, toByte, y);
    ChosenIsMonotone(levels, Clip(x), Clip(y));
  }

  /** Rounding down to a multiple of 8 p from 128 p on, then adding half a step. */
  lemma HalfAStep(p: int, q: int, x: int)
    requires 132 * p <= x && 8 * q <= x - 128 * p < 8 * q + 8 * p && (q == 0 || q >= p)
    ensures 34 * Abs(8 * q + 132 * p - x) <= x
  {
  }

  lemma Step(k: nat, e: nat)
    ensures Shifted(8 * k + 132, e) == 8 * (k * Pow2(e)) + 132 * Pow2(e)
    ensures k * Pow2(e) == 0 || k * Pow2(e) >= Pow2(e)
    ensures Shifted(132, e + 1) == 264 * Pow2(e)
  {
    if k > 0 {
      assert k * Pow2(e) == (k - 1) * Pow2(e) + Pow2(e);
    }
  }

  /** In the segment scaled by p = 2^e, from 132 p to 264 p, some level is near x: the nearest
      multiple of 8 p after 132 p, or the next segment's first. */
  lemma NearInSegment(e: nat, p: nat, x: int, k: nat) returns (m: nat)
    requires e < 8 && p == Pow2(e) && 132 * p <= x < 264 * p
    requires 8 * (k * p) <= x - 128 * p < 8 * (k * p) + 8 * p && k <= 16
    requires e == 7 ==> x <= 32900 && p == 128
    ensures m < 128 && 34 * Abs(Magnitude(m) + 132 - x) <= x
  {
    Step(k, e);
    HalfAStep(p, k * p, x);
    if k < 16 {
      MagnitudeAt(e, k);
      m := 16 * e + k;
    } else if e == 7 || x < 258 * p {
      Step(15, e);
      MagnitudeAt(e, 15);
      m := 16 * e + 15;
    } else {
      MagnitudeAt(e + 1, 0);
      m := 16 * e + 16;
    }
  }

  /** Some magnitude is within (s + 132) / 34 of s. */
  lemma NearMagnitude(s: nat) returns (m: nat)
    requires s <= 32768
    ensures m < 128 && 34 * Abs(Magnitude(m) - s) <= s + 132
  {
    var x := s + 132;
    Shifts(1);
    if x < 264 { m := NearInSegment(0, 1, x, (x - 128) / 8); }
    else if x < 528 { m := NearInSegment(1, 2, x, (x - 256) / 16); }
    else if x < 1056 { m := NearInSegment(2, 4, x, (x - 512) / 32); }
    else if x < 2112 { m := NearInSegment(3, 8, x, (x - 1024) / 64); }
    else if x < 4224 { m := NearInSegment(4, 16, x, (x - 2048) / 128); }
    else if x < 8448 { m := NearInSegment(5, 32, x, (x - 4096) / 256); }
    else if x < 16896 { m := NearInSegment(6, 64, x, (x - 8192) / 512); }
    else { m := NearInSegment(7, 128, x, (x - 16384) / 1024); }
  }

  /** The error is at most a thirty-fourth of the biased amplitude. */
  lemma ErrorIsBounded(levels: seq<int>, toByte: seq<Byte>, x: int)
    requires IsSortedTable(levels, toByte)
    ensures var s := if x < -32768 then -32768 else if x > 32767 then 32767 else x;
            34 * Abs(Decode(Encode(levels, toByte, x)) - s) <= Abs(s) + 132
  {
    var s := Clip(x);
    var m := NearMagnitude(Abs(s));
    var b: Byte := if s < 0 then 127 - m else 255 - m;
    assert Bits(b) == m && Abs(Decode(b) - s) == Abs(Magnitude(m) - Abs(s));
    EncodesToTheNearestOfTheClipped(levels, toByte, x, b);
  }

  /** That bound is reached, so no smaller one holds. */
  lemma ErrorBoundIsTight(levels: seq<int>, toByte: seq<Byte>)
    requires IsSortedTable(levels, toByte)
    ensures 34 * Abs(Decode(Encode(levels, toByte, 4)) - 4) == 4 + 132
  {
    var b := Encode(levels, toByte, 4);
    ErrorIsBounded(levels, toByte, 4);
    Sizes(Bits(b), 1);
    assert Magnitude(1) == 8 by {
      MagnitudeAt(0, 1);
      Shifts(140);
    }
  }

  /** Every byte survives decoding and encoding, but that the negative zero becomes the idle byte. */
  lemma ByteRoundTrip(levels: seq<int>, toByte: seq<Byte>, b: Byte)
    requires IsSortedTable(levels, toByte)
    ensures Encode(levels, toByte, Decode(b)) == if b == 0x7F then 0xFF else b
  {
    LevelsFit(b);
    EncodesToTheNearest(levels, toByte, Decode(b), b);
    DecodeIsInjectiveButForZero(Encode(levels, toByte, Decode(b)), b);
  }

  lemma LevelsFit(b: Byte)
    ensures -32124 <= Decode(b) <= 32124
  {
    Sizes(Bits(b), 0);
  }

  /** Whole buffers come back byte for byte, the negative zero as the idle byte. */
  lemma BufferRoundTrip(levels: seq<int>, toByte: seq<Byte>, bytes: seq<Byte>)
    requires IsSortedTable(levels, toByte)
    ensures var again := EncodeAll(levels, toByte, DecodeAll(bytes));
            && |again| == |bytes|
            && forall i :: 0 <= i < |bytes| ==> again[i] == if bytes[i] == 0x7F then 0xFF else bytes[i]
  {
    var again := EncodeAll(levels, toByte, DecodeAll(bytes));
    forall i | 0 <= i < |bytes| ensures again[i] == if bytes[i] == 0x7F then 0xFF else bytes[i] {
      ByteRoundTrip(levels, toByte, bytes[i]);
    }
  }

  /** So the audio is the same after a second trip. */
  lemma AudioRoundTrip(levels: seq<int>, toByte: seq<Byte>, bytes: seq<Byte>)
    requires IsSortedTable(levels, toByte)
    ensures DecodeAll(EncodeAll(levels, toByte, DecodeAll(bytes))) == DecodeAll(bytes)
  {
    var again := EncodeAll(levels, toByte, DecodeAll(bytes));
    BufferRoundTrip(levels, toByte, bytes);
    Zero();
    assert forall i :: 0 <= i < |bytes| ==> Decode(again[i]) == Decode(bytes[i]);
    assert DecodeAll(again) == DecodeAll(bytes);
  }
}
