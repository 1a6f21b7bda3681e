// Geohash: interleaved bisection of longitude and latitude, five bits to a
// character. Coordinates are exact reals; every midpoint is a dyadic multiple of
// 45 degrees, which a float64 holds exactly at the precision the gateway uses.
module Geohash {
  import opened Powers

  // A float64 argument, for the tests the code makes on it.
  datatype Float = NaN | NegInf | PosInf | Finite(value: real)
  {
    predicate Within(lo: real, hi: real) {
      Finite? && lo <= value <= hi
    }

    predicate Less(x: real) {
      NegInf? || (Finite? && value < x)
    }

    predicate Greater(x: real) {
      PosInf? || (Finite? && value > x)
    }
  }

  const ALPHABET: string := "0123456789bcdefghjkmnpqrstuvwxyz"

  // ---------------------------------------------------------------------- cells

  datatype Span = Span(lo: real, hi: real)
  datatype Cell = Cell(lat: Span, lon: Span)

  const WORLD := Cell(Span(-90.0, 90.0), Span(-180.0, 180.0))

  function Mid(s: Span): real {
    (s.lo + s.hi) / 2.0
  }

  function Half(s: Span, upper: bool): Span {
    if upper then Span(Mid(s), s.hi) else Span(s.lo, Mid(s))
  }

  // Half-open, closed at the top edge of the world.
  predicate InSpan(x: real, s: Span, top: real) {
    s.lo <= x && (x < s.hi || (x == s.hi && s.hi == top))
  }

  predicate InCell(lat: real, lon: real, c: Cell) {
    InSpan(lat, c.lat, 90.0) && InSpan(lon, c.lon, 180.0)
  }

  predicate Proper(c: Cell) {
    c.lat.lo < c.lat.hi <= 90.0 && c.lon.lo < c.lon.hi <= 180.0
  }

  // One bit of the hash: even bits halve the longitude, odd ones the latitude.
  function Refine(c: Cell, even: bool, upper: bool): Cell {
    if even then c.(lon := Half(c.lon, upper)) else c.(lat := Half(c.lat, upper))
  }

  predicate UpperHalf(c: Cell, even: bool, lat: real, lon: real) {
    if even then lon >= Mid(c.lon) else lat >= Mid(c.lat)
  }

  // The first n bits of the point, starting in c.
  function Bits(lat: real, lon: real, c: Cell, even: bool, n: nat): (bs: seq<bool>)
    ensures |bs| == n
    decreases n
  {
    if n == 0 then []
    else
      var b := UpperHalf(c, even, lat, lon);
      [b] + Bits(lat, lon, Refine(c, even, b), !even, n - 1)
  }

  // The decoder: the cell a sequence of bits names.
  function CellOf(c: Cell, even: bool, bs: seq<bool>): Cell
    decreases |bs|
  {
    if bs == [] then c else CellOf(Refine(c, even, bs[0]), !even, bs[1..])
  }

  // ----------------------------------------------------------------- characters

  // The code's ch |= 1 << (4 - bit), for the bits that are set.
  function Packed(bs: seq<bool>): bv8
    requires |bs| <= 5
  {
    if bs == [] then 0
    else
      var i := |bs| - 1;
      if bs[i] then Packed(bs[..i]) | (1 << (4 - i)) else Packed(bs[..i])
  }

  // 1 << (4 - bit), as a number.
  function Flag(bit: nat): nat
    requires bit < 5
  {
    [16, 8, 4, 2, 1][bit]
  }

  // The same packing with numbers: each flag is clear when it is set, so |= adds.
  function Sum(bs: seq<bool>): nat
    requires |bs| <= 5
  {
    if bs == [] then 0
    else
      var i := |bs| - 1;
      Sum(bs[..i]) + if bs[i] then Flag(i) else 0
  }

  function Unpacked(i: nat): seq<bool>
    requires i < 32
  {
    [i / 16 % 2 == 1, i / 8 % 2 == 1, i / 4 % 2 == 1, i / 2 % 2 == 1, i % 2 == 1]
  }

  function Value(bs: seq<bool>): nat
    requires |bs| == 5
    ensures Value(bs) < 32
  {
    (if bs[0] then 16 else 0) + (if bs[1] then 8 else 0) + (if bs[2] then 4 else 0)
    + (if bs[3] then 2 else 0) + (if bs[4] then 1 else 0)
  }

  lemma PackedIsValue(bs: seq<bool>)
    requires |bs| == 5
    ensures Packed(bs) as int == Value(bs)
  {
    var b0, b1, b2, b3 := bs[0], bs[1], bs[2], bs[3];
    Prefixes(bs);
    var p1: bv8 := if b0 then 16 else 0;
    var p2: bv8 := if b1 then p1 | 8 else p1;
    var p3: bv8 := if b2 then p2 | 4 else p2;
    var p4: bv8 := if b3 then p3 | 2 else p3;
    assert Packed([b0]) == p1;
    assert Packed([b0, b1]) == p2;
    assert Packed([b0, b1, b2]) == p3;
    assert Packed([b0, b1, b2, b3]) == p4;
  }

  lemma SumIsValue(bs: seq<bool>)
    requires |bs| == 5
    ensures Sum(bs) == Value(bs)
  {
    Prefixes(bs);
    assert Sum([bs[0]]) == (if bs[0] then 16 else 0);
    assert Sum([bs[0], bs[1]]) == (if bs[0] then 16 else 0) + (if bs[1] then 8 else 0);
    assert Sum([bs[0], bs[1], bs[2]]) == Sum([bs[0], bs[1]]) + if bs[2] then 4 else 0;
    assert Sum([bs[0], bs[1], bs[2], bs[3]]) == Sum([bs[0], bs[1], bs[2]]) + if bs[3] then 2 else 0;
  }

  lemma Prefixes(bs: seq<bool>)
    requires |bs| == 5
    ensures bs[..4] == [bs[0], bs[1], bs[2], bs[3]]
    ensures [bs[0], bs[1], bs[2], bs[3]][..3] == [bs[0], bs[1], bs[2]]
    ensures [bs[0], bs[1], bs[2]][..2] == [bs[0], bs[1]]
    ensures [bs[0], bs[1]][..1] == [bs[0]]
    ensures [bs[0]][..0] == []
  {
  }

  // Five bits packed as the code does make the same number as the loop below.
  lemma PackingAgrees(bs: seq<bool>)
    requires |bs| == 5
    ensures Packed(bs) as int == Sum(bs) < 32
  {
    PackedIsValue(bs);
    SumIsValue(bs);
  }

  lemma UnpackedValue(bs: seq<bool>)
    requires |bs| == 5
    ensures Unpacked(Value(bs)) == bs
  {
  }

  lemma ValueUnpacked(i: nat)
    requires i < 32
    ensures Value(Unpacked(i)) == i
  {
  }

  // The letters of a hash: the digits, and the lower-case letters other than a, i,
  // l and o.
  predicate IsLetter(c: char) {
    '0' <= c <= '9' || ('b' <= c <= 'z' && c != 'i' && c != 'l' && c != 'o')
  }

  // How many of them come before c.
  function Rank(c: char): (n: nat)
    requires IsLetter(c)
    ensures n < 32
  {
    if c <= '9' then c as int - '0' as int
    else
      c as int - 'b' as int + 10
      - (if c > 'i' then 1 else 0) - (if c > 'l' then 1 else 0) - (if c > 'o' then 1 else 0)
  }

  lemma RankOrders(b: char, c: char)
    requires IsLetter(b) && IsLetter(c)
    ensures b < c <==> Rank(b) < Rank(c)
  {
  }

  predicate InAlphabet(s: string) {
    forall i | 0 <= i < |s| :: IsLetter(s[i])
  }

  // base32[i]
  function Letter(i: nat): char
    requires i < 32
  {
    ALPHABET[i]
  }

  // The table of the code holds them all, in their order.
  lemma RankOfLetter(i: nat)
    requires i < 32
    ensures IsLetter(Letter(i)) && Rank(Letter(i)) == i
  {
  }

  lemma LetterOfRank(c: char)
    requires IsLetter(c)
    ensures Letter(Rank(c)) == c
  {
    var d := Letter(Rank(c));
    RankOfLetter(Rank(c));
    RankOrders(c, d);
    RankOrders(d, c);
  }

  // Five bits to a character, and back.
  function Chars(bs: seq<bool>): (s: string)
    ensures |s| == |bs| / 5
  {
    if |bs| < 5 then "" else [Letter(Value(bs[..5]))] + Chars(bs[5..])
  }

  function BitsOf(s: string): (bs: seq<bool>)
    requires InAlphabet(s)
    ensures |bs| == 5 * |s|
  {
    if s == "" then [] else Unpacked(Rank(s[0])) + BitsOf(s[1..])
  }

  lemma LetterBits(c: char, t: string)
    requires IsLetter(c) && InAlphabet(t)
    ensures InAlphabet([c] + t) && BitsOf([c] + t) == Unpacked(Rank(c)) + BitsOf(t)
  {
    assert ([c] + t)[1..] == t;
    assert forall i | 0 < i < |[c] + t| :: ([c] + t)[i] == t[i - 1];
  }

  lemma {:induction false} CharsInverse(bs: seq<bool>)
    requires |bs| % 5 == 0
    ensures InAlphabet(Chars(bs)) && BitsOf(Chars(bs)) == bs
  {
    if bs != [] {
      CharsInverse(bs[5..]);
      UnpackedValue(bs[..5]);
      RankOfLetter(Value(bs[..5]));
      LetterBits(Letter(Value(bs[..5])), Chars(bs[5..]));
      assert bs == bs[..5] + bs[5..];
    }
  }

  lemma {:induction false} BitsOfInverse(s: string)
    requires InAlphabet(s)
    ensures Chars(BitsOf(s)) == s
  {
    if s != "" {
      var i := Rank(s[0]);
      BitsOfInverse(s[1..]);
      ValueUnpacked(i);
      LetterOfRank(s[0]);
      assert BitsOf(s)[..5] == Unpacked(i) && BitsOf(s)[5..] == BitsOf(s[1..]);
    }
  }

  lemma {:induction false} CharsAppend(xs: seq<bool>, ys: seq<bool>)
    requires |xs| % 5 == 0
    ensures Chars(xs + ys) == Chars(xs) + Chars(ys)
  {
    if xs == [] {
      assert xs + ys == ys;
    } else {
      assert (xs + ys)[..5] == xs[..5] && (xs + ys)[5..] == xs[5..] + ys;
      CharsAppend(xs[5..], ys);
      var c := [Letter(Value(xs[..5]))];
      assert Chars(xs + ys) == c + (Chars(xs[5..]) + Chars(ys)) == (c + Chars(xs[5..])) + Chars(ys);
    }
  }

  // ---------------------------------------------------------- bisection theorems

  lemma {:induction false} BitsSplit(lat: real, lon: real, c: Cell, even: bool, m: nat, n: nat)
    ensures var bs := Bits(lat, lon, c, even, m);
            Bits(lat, lon, c, even, m + n) ==
            bs + Bits(lat, lon, CellOf(c, even, bs), even == (m % 2 == 0), n)
    decreases m
  {
    if m > 0 {
      var b := UpperHalf(c, even, lat, lon);
      var rest := Bits(lat, lon, Refine(c, even, b), !even, m - 1);
      BitsSplit(lat, lon, Refine(c, even, b), !even, m - 1, n);
      assert Bits(lat, lon, c, even, m) == [b] + rest;
      assert ([b] + rest)[1..] == rest;
    }
  }

  lemma {:induction false} CellSplit(c: Cell, even: bool, xs: seq<bool>, ys: seq<bool>)
    ensures CellOf(c, even, xs + ys) == CellOf(CellOf(c, even, xs), even == (|xs| % 2 == 0), ys)
    decreases |xs|
  {
    if xs == [] {
      assert xs + ys == ys;
    } else {
      assert (xs + ys)[1..] == xs[1..] + ys;
      CellSplit(Refine(c, even, xs[0]), !even, xs[1..], ys);
    }
  }

  lemma {:induction false} RefineInside(lat: real, lon: real, c: Cell, even: bool, bs: seq<bool>)
    requires Proper(c)
    ensures Proper(CellOf(c, even, bs))
    ensures InCell(lat, lon, CellOf(c, even, bs)) ==> InCell(lat, lon, c)
    decreases |bs|
  {
    if bs != [] {
      RefineInside(lat, lon, Refine(c, even, bs[0]), !even, bs[1..]);
    }
  }

  // c is where bisecting the world towards the point has got to after bs.
  ghost predicate Tracks(lat: real, lon: real, bs: seq<bool>, c: Cell) {
    bs == Bits(lat, lon, WORLD, true, |bs|) && c == CellOf(WORLD, true, bs)
  }

  // A point lies in the cell its bits name.
  lemma {:induction false} PointInItsCell(lat: real, lon: real, c: Cell, even: bool, n: nat)
    requires Proper(c) && InCell(lat, lon, c)
    ensures InCell(lat, lon, CellOf(c, even, Bits(lat, lon, c, even, n)))
    decreases n
  {
    if n > 0 {
      var b := UpperHalf(c, even, lat, lon);
      var bs := Bits(lat, lon, c, even, n);
      assert bs[0] == b && bs[1..] == Bits(lat, lon, Refine(c, even, b), !even, n - 1);
      PointInItsCell(lat, lon, Refine(c, even, b), !even, n - 1);
    }
  }

  // Only the points of a cell have its bits.
  lemma {:induction false} CellFixesBits(lat: real, lon: real, c: Cell, even: bool, bs: seq<bool>)
    requires Proper(c) && InCell(lat, lon, CellOf(c, even, bs))
    ensures Bits(lat, lon, c, even, |bs|) == bs
    decreases |bs|
  {
    if bs != [] {
      RefineInside(lat, lon, Refine(c, even, bs[0]), !even, bs[1..]);
      CellFixesBits(lat, lon, Refine(c, even, bs[0]), !even, bs[1..]);
      assert UpperHalf(c, even, lat, lon) == bs[0];
    }
  }

  // ------------------------------------------------------------------ the hash

  predicate OnEarth(lat: real, lon: real) {
    -90.0 <= lat <= 90.0 && -180.0 <= lon <= 180.0
  }

  function Hash(lat: real, lon: real, precision: nat): (s: string)
    ensures |s| == precision
  {
    Chars(Bits(lat, lon, WORLD, true, 5 * precision))
  }

  // The cell a hash names.
  function Decode(s: string): Cell
    requires InAlphabet(s)
  {
    CellOf(WORLD, true, BitsOf(s))
  }

  // Every point lies in the cell its hash names; the points with that hash are
  // exactly the points of the cell.
  lemma HashNamesCell(lat: real, lon: real, lat': real, lon': real, precision: nat)
    requires OnEarth(lat, lon) && OnEarth(lat', lon')
    ensures InAlphabet(Hash(lat, lon, precision))
    ensures InCell(lat, lon, Decode(Hash(lat, lon, precision)))
    ensures Hash(lat', lon', precision) == Hash(lat, lon, precision)
            <==> InCell(lat', lon', Decode(Hash(lat, lon, precision)))
  {
    var bs := Bits(lat, lon, WORLD, true, 5 * precision);
    var bs' := Bits(lat', lon', WORLD, true, 5 * precision);
    CharsInverse(bs);
    CharsInverse(bs');
    PointInItsCell(lat, lon, WORLD, true, 5 * precision);
    PointInItsCell(lat', lon', WORLD, true, 5 * precision);
    if InCell(lat', lon', CellOf(WORLD, true, bs)) {
      CellFixesBits(lat', lon', WORLD, true, bs);
    }
  }

  lemma CentreInside(c: Cell)
    requires Proper(c)
    ensures InCell(Mid(c.lat), Mid(c.lon), c)
  {
  }

  // The centre of a cell has the bits that name the cell.
  lemma CentreBits(w: Cell, even: bool, bs: seq<bool>)
    requires Proper(w)
    ensures var c := CellOf(w, even, bs);
            InCell(Mid(c.lat), Mid(c.lon), w) && Bits(Mid(c.lat), Mid(c.lon), w, even, |bs|) == bs
  {
    var c := CellOf(w, even, bs);
    RefineInside(Mid(c.lat), Mid(c.lon), w, even, bs);
    CentreInside(c);
    CellFixesBits(Mid(c.lat), Mid(c.lon), w, even, bs);
  }

  lemma World()
    ensures Proper(WORLD)
    ensures forall lat: real, lon: real :: InCell(lat, lon, WORLD) <==> OnEarth(lat, lon)
  {
  }

  // Every string over the alphabet is the hash of the centre of its cell.
  lemma EveryStringIsAHash(s: string)
    requires InAlphabet(s)
    ensures var c := Decode(s);
            OnEarth(Mid(c.lat), Mid(c.lon)) && Hash(Mid(c.lat), Mid(c.lon), |s|) == s
  {
    World();
    CentreBits(WORLD, true, BitsOf(s));
    BitsOfInverse(s);
  }

  lemma BitsPrefix(lat: real, lon: real, c: Cell, even: bool, m: nat, n: nat)
    requires m <= n
    ensures Bits(lat, lon, c, even, m) <= Bits(lat, lon, c, even, n)
  {
    BitsSplit(lat, lon, c, even, m, n - m);
  }

  lemma CharsPrefix(xs: seq<bool>, ys: seq<bool>)
    requires xs <= ys && |xs| % 5 == 0
    ensures Chars(xs) <= Chars(ys)
  {
    assert ys == xs + ys[|xs|..];
    CharsAppend(xs, ys[|xs|..]);
  }

  // A shorter hash is a prefix of a longer one.
  lemma HashPrefix(lat: real, lon: real, p: nat, q: nat)
    requires p <= q
    ensures Hash(lat, lon, p) <= Hash(lat, lon, q)
  {
    BitsPrefix(lat, lon, WORLD, true, 5 * p, 5 * q);
    CharsPrefix(Bits(lat, lon, WORLD, true, 5 * p), Bits(lat, lon, WORLD, true, 5 * q));
  }

  // --------------------------------------------------------------- size of cells

  function Extent(s: Span): real {
    s.hi - s.lo
  }

  function Halved(x: real, n: nat): real
    decreases n
  {
    if n == 0 then x else Halved(x / 2.0, n - 1)
  }

  lemma {:induction false} HalvedTimes(x: real, n: nat)
    ensures Halved(x, n) * (Pow2(n) as real) == x
    decreases n
  {
    if n > 0 {
      HalvedTimes(x / 2.0, n - 1);
      var h, m := Halved(x, n), Pow2(n - 1) as real;
      assert Pow2(n) as real == 2.0 * m;
      assert h * (2.0 * m) == 2.0 * (h * m);
    }
  }

  lemma {:induction false} CellSize(c: Cell, even: bool, bs: seq<bool>)
    ensures var first, second := (|bs| + 1) / 2, |bs| / 2;
            var d := CellOf(c, even, bs);
            && Extent(d.lon) == Halved(Extent(c.lon), if even then first else second)
            && Extent(d.lat) == Halved(Extent(c.lat), if even then second else first)
    decreases |bs|
  {
    if bs != [] {
      var c' := Refine(c, even, bs[0]);
      CellSize(c', !even, bs[1..]);
      assert |bs[1..]| / 2 == (|bs| + 1) / 2 - 1 && (|bs[1..]| + 1) / 2 == |bs| / 2;
      HalfExtent(if even then c.lon else c.lat, bs[0]);
    }
  }

  lemma HalfExtent(s: Span, upper: bool)
    ensures Extent(Half(s, upper)) == Extent(s) / 2.0
  {
  }

  // d measures 1/2^ceil(5p/2) by 1/2^floor(5p/2) of c.
  predicate Subdivides(d: Cell, c: Cell, p: nat) {
    && Extent(d.lon) * (Pow2((5 * p + 1) / 2) as real) == Extent(c.lon)
    && Extent(d.lat) * (Pow2(5 * p / 2) as real) == Extent(c.lat)
  }

  lemma CellTimes(c: Cell, bs: seq<bool>, p: nat)
    requires |bs| == 5 * p
    ensures Subdivides(CellOf(c, true, bs), c, p)
  {
    CellSize(c, true, bs);
    HalvedTimes(Extent(c.lon), (5 * p + 1) / 2);
    HalvedTimes(Extent(c.lat), 5 * p / 2);
  }

  // The cell of a p-character hash measures 360/2^ceil(5p/2) by 180/2^floor(5p/2)
  // degrees.
  lemma HashCellSize(s: string)
    requires InAlphabet(s)
    ensures Subdivides(Decode(s), WORLD, |s|)
    ensures Extent(WORLD.lon) == 360.0 && Extent(WORLD.lat) == 180.0
  {
    CellTimes(WORLD, BitsOf(s), |s|);
  }

  lemma HashLetters(lat: real, lon: real, precision: nat)
    ensures InAlphabet(Hash(lat, lon, precision))
  {
    CharsInverse(Bits(lat, lon, WORLD, true, 5 * precision));
  }

  // ------------------------------------------------------ where the cell lies

  // Bit t of a hash: five to a letter, the most significant first.
  predicate BitAt(s: string, t: nat)
    requires t < 5 * |s| && IsLetter(s[t / 5])
  {
    Rank(s[t / 5]) / Pow2(4 - t % 5) % 2 == 1
  }

  // 0.b(t) b(t+2) b(t+4)... in binary.
  function Fraction(s: string, t: nat): real
    requires InAlphabet(s)
    decreases 5 * |s| - t
  {
    if t >= 5 * |s| then 0.0 else ((if BitAt(s, t) then 1.0 else 0.0) + Fraction(s, t + 2)) / 2.0
  }

  function BitFraction(bs: seq<bool>, t: nat): real
    decreases |bs| - t
  {
    if t >= |bs| then 0.0 else ((if bs[t] then 1.0 else 0.0) + BitFraction(bs, t + 2)) / 2.0
  }

  lemma {:induction false} Shifted(bs: seq<bool>, t: nat)
    requires bs != []
    ensures BitFraction(bs, t + 1) == BitFraction(bs[1..], t)
    decreases |bs| - t
  {
    if t + 1 < |bs| {
      Shifted(bs, t + 2);
    }
  }

  lemma Lower(lo: real, e: real, b: bool, f: real)
    ensures lo + e * (((if b then 1.0 else 0.0) + f) / 2.0) == (if b then lo + e / 2.0 else lo) + e / 2.0 * f
  {
  }

  lemma HalfCorner(s: Span, b: bool, f: real)
    ensures Half(s, b).lo + Extent(Half(s, b)) * f == s.lo + Extent(s) * (((if b then 1.0 else 0.0) + f) / 2.0)
  {
    HalfExtent(s, b);
    HalfLower(s, b);
    Lower(s.lo, Extent(s), b, f);
  }

  lemma {:induction false} CornerLon(c: Cell, even: bool, bs: seq<bool>)
    ensures CellOf(c, even, bs).lon.lo == c.lon.lo + Extent(c.lon) * BitFraction(bs, if even then 0 else 1)
    decreases |bs|
  {
    if bs != [] {
      var c', rest := Refine(c, even, bs[0]), bs[1..];
      CornerLon(c', !even, rest);
      if even {
        Shifted(bs, 1);
        HalfCorner(c.lon, bs[0], BitFraction(rest, 1));
      } else {
        Shifted(bs, 0);
      }
    }
  }

  lemma {:induction false} CornerLat(c: Cell, even: bool, bs: seq<bool>)
    ensures CellOf(c, even, bs).lat.lo == c.lat.lo + Extent(c.lat) * BitFraction(bs, if even then 1 else 0)
    decreases |bs|
  {
    if bs != [] {
      var c', rest := Refine(c, even, bs[0]), bs[1..];
      CornerLat(c', !even, rest);
      if even {
        Shifted(bs, 0);
      } else {
        Shifted(bs, 1);
        HalfCorner(c.lat, bs[0], BitFraction(rest, 1));
      }
    }
  }

  lemma HalfLower(s: Span, upper: bool)
    ensures Half(s, upper).lo == if upper then s.lo + Extent(s) / 2.0 else s.lo
  {
  }

  lemma UnpackedAt(i: nat, t: nat)
    requires i < 32 && t < 5
    ensures |Unpacked(i)| == 5 && Unpacked(i)[t] == (i / Pow2(4 - t) % 2 == 1)
  {
    assert Pow2(0) == 1 && Pow2(1) == 2 && Pow2(2) == 4 && Pow2(3) == 8 && Pow2(4) == 16;
  }

  lemma {:induction false} BitsOfAt(s: string, t: nat)
    requires InAlphabet(s) && t < 5 * |s|
    ensures BitsOf(s)[t] == BitAt(s, t)
  {
    if t < 5 {
      UnpackedAt(Rank(s[0]), t);
    } else {
      BitsOfAt(s[1..], t - 5);
      FifthDown(t);
      assert s[1..][t / 5 - 1] == s[t / 5];
    }
  }

  lemma FifthDown(t: nat)
    requires t >= 5
    ensures (t - 5) / 5 == t / 5 - 1 && (t - 5) % 5 == t % 5
  {
  }

  lemma {:induction false} FractionBits(s: string, t: nat)
    requires InAlphabet(s)
    ensures Fraction(s, t) == BitFraction(BitsOf(s), t)
    decreases 5 * |s| - t
  {
    if t < 5 * |s| {
      BitsOfAt(s, t);
      FractionBits(s, t + 2);
    }
  }

  lemma CornerIn(w: Cell, bs: seq<bool>, lon: real, lat: real, x: real, y: real)
    requires w.lon.lo == lon && w.lat.lo == lat && Extent(w.lon) == x && Extent(w.lat) == y
    ensures CellOf(w, true, bs).lon.lo == lon + x * BitFraction(bs, 0)
    ensures CellOf(w, true, bs).lat.lo == lat + y * BitFraction(bs, 1)
  {
    CornerLon(w, true, bs);
    CornerLat(w, true, bs);
  }

  // The south-west corner of the cell, read off the letters: the even bits are the
  // binary digits of the longitude's share of 360 degrees, the odd ones those of
  // the latitude's share of 180.
  lemma HashCorner(s: string)
    requires InAlphabet(s)
    ensures Decode(s).lon.lo == -180.0 + 360.0 * Fraction(s, 0)
    ensures Decode(s).lat.lo == -90.0 + 180.0 * Fraction(s, 1)
  {
    CornerIn(WORLD, BitsOf(s), -180.0, -90.0, 360.0, 180.0);
    FractionBits(s, 0);
    FractionBits(s, 1);
  }

  // -------------------------------------------------------------------- the code

  // The builder, the open character and its bit count, after the bits bs.
  predicate Emitted(bs: seq<bool>, r: string, bit: nat, ch: nat) {
    bit < 5 && |bs| == 5 * |r| + bit && r == Chars(bs[..5 * |r|]) && ch == Sum(bs[5 * |r|..])
  }

  // One bisection: the same code for longitude and latitude.
  method Bisect(v: real, lo: real, hi: real, ch: nat, bit: nat) returns (lo': real, hi': real, ch': nat)
    requires bit < 5
    ensures var s := Span(lo, hi);
            Span(lo', hi') == Half(s, v >= Mid(s)) && ch' == ch + if v >= Mid(s) then Flag(bit) else 0
  {
    var mid := (lo + hi) / 2.0;
    if v >= mid {
      return mid, hi, ch + Flag(bit);
    } else {
      return lo, mid, ch;
    }
  }

  method Geohash(lat: Float, lon: Float, precision: int) returns (r: string)
    ensures if lat.Within(-90.0, 90.0) && lon.Within(-180.0, 180.0) && precision > 0
            then r == Hash(lat.value, lon.value, precision)
            else r == "ZONE_UNKNOWN"
    ensures lat.Within(-90.0, 90.0) && lon.Within(-180.0, 180.0) && precision > 0 ==>
              |r| == precision && forall i | 0 <= i < |r| :: IsLetter(r[i])
  {
    if lat.NaN? || lon.NaN? || precision <= 0
       || lat.Less(-90.0) || lat.Greater(90.0) || lon.Less(-180.0) || lon.Greater(180.0) {
      return "ZONE_UNKNOWN";
    }
    r := Encode(lat.value, lon.value, precision);
    HashLetters(lat.value, lon.value, precision);
  }

  // The loop of Geohash.
  method Encode(y: real, x: real, precision: nat) returns (r: string)
    ensures r == Hash(y, x, precision)
  {
    var minLat, maxLat := -90.0, 90.0;
    var minLon, maxLon := -180.0, 180.0;
    r := "";
    var isEven := true;
    var bit: nat, ch: nat := 0, 0;
    ghost var bs: seq<bool> := [];  // the bits so far
    while |r| < precision
      invariant |r| <= precision && (bit > 0 ==> |r| < precision)
      invariant isEven == Even(|bs|)
      invariant Tracks(y, x, bs, Cell(Span(minLat, maxLat), Span(minLon, maxLon)))
      invariant Emitted(bs, r, bit, ch)
      decreases 5 * (precision - |r|) - bit
    {
      ghost var c := Cell(Span(minLat, maxLat), Span(minLon, maxLon));
      ghost var b := UpperHalf(c, isEven, y, x);
      NextBit(y, x, bs, c);
      EmitBit(bs, r, bit, ch, b);
      if isEven {
        minLon, maxLon, ch := Bisect(x, minLon, maxLon, ch, bit);
      } else {
        minLat, maxLat, ch := Bisect(y, minLat, maxLat, ch, bit);
      }
      assert Cell(Span(minLat, maxLat), Span(minLon, maxLon)) == Refine(c, isEven, b);
      ParityFlips(|bs|);
      bs := bs + [b];
      isEven := !isEven;
      bit := bit + 1;
      if bit == 5 {
        r := r + [Letter(ch)];
        bit := 0;
        ch := 0;
      }
    }
    assert bs[..5 * |r|] == bs;
  }

  predicate Even(n: nat) {
    n % 2 == 0
  }

  lemma ParityFlips(n: nat)
    ensures Even(n + 1) == !Even(n)
  {
  }

  // The next bit of a point extends its bits and halves its cell.
  lemma NextBit(lat: real, lon: real, bs: seq<bool>, c: Cell)
    requires Tracks(lat, lon, bs, c)
    ensures var even := Even(|bs|);
            var b := UpperHalf(c, even, lat, lon);
            Tracks(lat, lon, bs + [b], Refine(c, even, b))
  {
    var even := Even(|bs|);
    var b := UpperHalf(c, even, lat, lon);
    BitsSplit(lat, lon, WORLD, true, |bs|, 1);
    assert Bits(lat, lon, c, even, 1) == [b] + Bits(lat, lon, Refine(c, even, b), !even, 0);
    CellSplit(WORLD, true, bs, [b]);
    assert CellOf(c, even, [b]) == CellOf(Refine(c, even, b), !even, []);
  }

  // ... and the open character, or completes it.
  lemma EmitBit(bs: seq<bool>, r: string, bit: nat, ch: nat, b: bool)
    requires Emitted(bs, r, bit, ch)
    ensures var ch' := ch + if b then Flag(bit) else 0;
            if bit < 4 then Emitted(bs + [b], r, bit + 1, ch')
            else ch' < 32 && Emitted(bs + [b], r + [Letter(ch')], 0, 0)
  {
    var done, tail := bs[..5 * |r|], bs[5 * |r|..];
    NextSum(tail, b);
    assert (bs + [b])[..5 * |r|] == done && (bs + [b])[5 * |r|..] == tail + [b];
    if bit == 4 {
      EmitLetter(bs + [b], r);
    }
  }

  lemma EmitLetter(bs: seq<bool>, r: string)
    requires |bs| == 5 * |r| + 5 && r == Chars(bs[..5 * |r|])
    ensures var ch := Sum(bs[5 * |r|..]); ch < 32 && Emitted(bs, r + [Letter(ch)], 0, 0)
  {
    CharDone(bs[..5 * |r|], bs[5 * |r|..]);
    assert bs == bs[..5 * |r|] + bs[5 * |r|..];
    assert bs[..|bs|] == bs && bs[|bs|..] == [];
  }

  lemma NextSum(tail: seq<bool>, b: bool)
    requires |tail| < 5
    ensures Sum(tail + [b]) == Sum(tail) + if b then Flag(|tail|) else 0
  {
    assert (tail + [b])[..|tail|] == tail;
  }

  // Five packed bits are the next character.
  lemma CharDone(done: seq<bool>, tail: seq<bool>)
    requires |done| % 5 == 0 && |tail| == 5
    ensures Sum(tail) < 32
    ensures Chars(done + tail) == Chars(done) + [Letter(Sum(tail))]
  {
    SumIsValue(tail);
    CharsAppend(done, tail);
    assert tail[..5] == tail && tail[5..] == [];
  }
}
