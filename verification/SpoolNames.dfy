// File names of the spool: "%020d-%06d.json" of (UnixNano, sequence number).
// The forwarder orders the queue by comparing these names as byte strings, so
// everything the queue promises about order rests on the lemmas of this module.
module SpoolNames {
  import opened Options

  // One reservation of a name by Enqueue: the clock reading and the sequence
  // number taken under the spool's lock.
  datatype Key = Key(nanos: nat, seqNo: nat)

  // time.Time.UnixNano is an int64.
  const INT64_LIMIT: int := 0x8000_0000_0000_0000

  // ---------------------------------------------------------------- decimals

  function Pow10(n: nat): (p: nat)
    ensures p >= 1
  {
    if n == 0 then 1 else 10 * Pow10(n - 1)
  }

  function Digit(d: nat): char
    requires d < 10
  {
    "0123456789"[d]
  }

  predicate IsDigit(c: char) {
    '0' <= c <= '9'
  }

  function DigitValue(c: char): nat
    requires IsDigit(c)
  {
    (c as int) - ('0' as int)
  }

  // The w low-order decimal digits of n, most significant first.
  function Fixed(n: nat, w: nat): (s: string)
    ensures |s| == w
    ensures forall i | 0 <= i < w :: IsDigit(s[i])
  {
    if w == 0 then "" else Fixed(n / 10, w - 1) + [Digit(n % 10)]
  }

  // How many digits n has.
  function Width(n: nat): (w: nat)
    ensures w >= 1
  {
    if n < 10 then 1 else 1 + Width(n / 10)
  }

  // How many digits "%0<w>d" prints for n.
  function PaddedWidth(n: nat, w: nat): nat {
    if Width(n) < w then w else Width(n)
  }

  // "%0<w>d": at least w digits, more when n needs them.
  function Padded(n: nat, w: nat): string {
    Fixed(n, PaddedWidth(n, w))
  }

  function FileName(k: Key): string {
    Padded(k.nanos, 20) + "-" + Padded(k.seqNo, 6) + ".json"
  }

  // The value a string of digits denotes.
  function Value(s: string): nat
    requires forall i | 0 <= i < |s| :: IsDigit(s[i])
  {
    if s == "" then 0 else 10 * Value(s[..|s| - 1]) + DigitValue(s[|s| - 1])
  }

  lemma {:induction false} WidthBound(n: nat, w: nat)
    requires w >= 1
    ensures Width(n) <= w <==> n < Pow10(w)
  {
    if n >= 10 && w > 1 {
      WidthBound(n / 10, w - 1);
    } else if n >= 10 {
      assert Pow10(1) == 10 * Pow10(0);
    } else {
      assert Pow10(w) == 10 * Pow10(w - 1);
    }
  }

  lemma PaddedFits(n: nat, w: nat)
    requires w >= 1
    ensures n < Pow10(PaddedWidth(n, w))
  {
    WidthBound(n, PaddedWidth(n, w));
  }

  lemma {:induction false} ValueFixed(n: nat, w: nat)
    requires n < Pow10(w)
    ensures Value(Fixed(n, w)) == n
  {
    if w > 0 {
      ValueFixed(n / 10, w - 1);
      DigitRead(n % 10);
      ValueSnoc(Fixed(n / 10, w - 1), Digit(n % 10));
    }
  }

  lemma DigitRead(d: nat)
    requires d < 10
    ensures IsDigit(Digit(d)) && DigitValue(Digit(d)) == d
  {
  }

  lemma ValueSnoc(s: string, c: char)
    requires IsDigit(c) && forall i | 0 <= i < |s| :: IsDigit(s[i])
    ensures Value(s + [c]) == 10 * Value(s) + DigitValue(c)
  {
    assert (s + [c])[..|s|] == s;
  }

  // n without its v low-order digits.
  function Lead(n: nat, v: nat): nat {
    if v == 0 then n else Lead(n / 10, v - 1)
  }

  lemma {:induction false} FixedSplit(n: nat, u: nat, v: nat)
    ensures Fixed(n, u + v) == Fixed(Lead(n, v), u) + Fixed(n, v)
  {
    if v > 0 {
      FixedSplit(n / 10, u, v - 1);
      assert u + v - 1 == u + (v - 1);
    }
  }

  lemma {:induction false} LeadFits(n: nat, u: nat, v: nat)
    requires n < Pow10(u + v)
    ensures Lead(n, v) < Pow10(u)
  {
    if v > 0 {
      LeadFits(n / 10, u, v - 1);
    }
  }

  // ------------------------------------------------------------ string order

  // Go's < on strings: bytewise lexicographic.
  predicate LexLess(a: string, b: string) {
    if b == "" then false
    else if a == "" then true
    else a[0] < b[0] || (a[0] == b[0] && LexLess(a[1..], b[1..]))
  }

  lemma {:induction false} LexIrreflexive(a: string)
    ensures !LexLess(a, a)
  {
    if a != "" {
      LexIrreflexive(a[1..]);
    }
  }

  lemma {:induction false} LexTransitive(a: string, b: string, c: string)
    requires LexLess(a, b) && LexLess(b, c)
    ensures LexLess(a, c)
  {
    if a != "" && a[0] == b[0] && b[0] == c[0] {
      LexTransitive(a[1..], b[1..], c[1..]);
    }
  }

  lemma {:induction false} LexTotal(a: string, b: string)
    ensures a == b || LexLess(a, b) || LexLess(b, a)
  {
    if a != "" && b != "" && a[0] == b[0] {
      LexTotal(a[1..], b[1..]);
      assert a == [a[0]] + a[1..] && b == [b[0]] + b[1..];
    }
  }

  lemma {:induction false} LexCommonPrefix(p: string, a: string, b: string)
    ensures LexLess(p + a, p + b) == LexLess(a, b)
  {
    if p == "" {
      assert p + a == a && p + b == b;
    } else {
      assert (p + a)[1..] == p[1..] + a && (p + b)[1..] == p[1..] + b;
      LexCommonPrefix(p[1..], a, b);
    }
  }

  // Two different strings of one length decide the comparison whatever follows.
  lemma {:induction false} LexSameLength(p: string, q: string, a: string, b: string)
    requires |p| == |q| && p != q
    ensures LexLess(p + a, q + b) == LexLess(p, q)
  {
    assert p == [p[0]] + p[1..] && q == [q[0]] + q[1..];
    if p[0] == q[0] {
      assert (p + a)[1..] == p[1..] + a && (q + b)[1..] == q[1..] + b;
      LexSameLength(p[1..], q[1..], a, b);
    }
  }

  lemma FixedInjective(m: nat, n: nat, w: nat)
    requires m < Pow10(w) && n < Pow10(w)
    ensures Fixed(m, w) == Fixed(n, w) <==> m == n
  {
    ValueFixed(m, w);
    ValueFixed(n, w);
  }

  lemma DigitOrder(c: nat, d: nat)
    requires c < 10 && d < 10
    ensures LexLess([Digit(c)], [Digit(d)]) == (c < d)
  {
    DigitRead(c);
    DigitRead(d);
    assert [Digit(c)][1..] == [] && [Digit(d)][1..] == [];
  }

  lemma {:induction false} FixedLess(m: nat, n: nat, w: nat)
    requires m < Pow10(w) && n < Pow10(w)
    ensures LexLess(Fixed(m, w), Fixed(n, w)) == (m < n)
  {
    if w > 0 {
      var p, q := Fixed(m / 10, w - 1), Fixed(n / 10, w - 1);
      FixedLess(m / 10, n / 10, w - 1);
      FixedInjective(m / 10, n / 10, w - 1);
      if p == q {
        LexCommonPrefix(p, [Digit(m % 10)], [Digit(n % 10)]);
        DigitOrder(m % 10, n % 10);
      } else {
        LexSameLength(p, q, [Digit(m % 10)], [Digit(n % 10)]);
      }
    }
  }

  lemma FixedOrder(m: nat, n: nat, w: nat)
    requires m < Pow10(w) && n < Pow10(w)
    ensures LexLess(Fixed(m, w), Fixed(n, w)) == (m < n)
    ensures Fixed(m, w) == Fixed(n, w) ==> m == n
  {
    FixedLess(m, n, w);
    FixedInjective(m, n, w);
  }

  // ------------------------------------------------------- names and parsing

  // The order in which the forwarder drains the queue.
  predicate Precedes(a: Key, b: Key) {
    LexLess(FileName(a), FileName(b))
  }

  // strings.IndexByte(s, c), or -1.
  function IndexOf(s: string, c: char): (i: int)
    ensures -1 <= i < |s|
    ensures i >= 0 ==> s[i] == c && c !in s[..i]
    ensures i == -1 ==> c !in s
  {
    if s == "" then -1
    else if s[0] == c then 0
    else
      var j := IndexOf(s[1..], c);
      if j == -1 then -1 else j + 1
  }

  // strconv.ParseInt(s, 10, 64), for the range the clock produces: an optional
  // sign, at least one digit, nothing else, and a value that fits in an int64.
  function ParseInt(s: string): Option<int> {
    var negative := s != "" && s[0] == '-';
    var digits := if s != "" && (s[0] == '-' || s[0] == '+') then s[1..] else s;
    if digits == "" || exists i | 0 <= i < |digits| :: !IsDigit(digits[i]) then None
    else
      var v: int := if negative then 0 - Value(digits) else Value(digits);
      if -INT64_LIMIT <= v < INT64_LIMIT then Some(v) else None
  }

  // parseSpoolTime: the enqueue time a file name carries.
  function ParseSpoolTime(name: string): Option<int> {
    var i := IndexOf(name, '-');
    if i <= 0 then None else ParseInt(name[..i])
  }

  lemma {:induction false} FirstIndex(p: string, rest: string, c: char)
    requires c !in p && rest != "" && rest[0] == c
    ensures IndexOf(p + rest, c) == |p|
  {
    if p == "" {
      assert p + rest == rest;
    } else {
      assert (p + rest)[1..] == p[1..] + rest;
      FirstIndex(p[1..], rest, c);
    }
  }

  lemma NanosPart(k: Key)
    ensures IndexOf(FileName(k), '-') == |Padded(k.nanos, 20)|
    ensures FileName(k)[..|Padded(k.nanos, 20)|] == Padded(k.nanos, 20)
  {
    var p, name := Padded(k.nanos, 20), FileName(k);
    assert name == p + name[|p|..];
    FirstIndex(p, name[|p|..], '-');
  }

  // The time is what comes before the first dash, when there is one and something
  // comes before it.
  lemma ParseSpoolTimeOf(p: string, rest: string)
    requires '-' !in p
    ensures ParseSpoolTime(p).None?
    ensures ParseSpoolTime(p + ("-" + rest)) == if p == "" then None else ParseInt(p)
  {
    FirstIndex(p, "-" + rest, '-');
    assert (p + ("-" + rest))[..|p|] == p;
  }

  // The whole name, for every clock reading and every sequence number that print in
  // their columns: twenty digits, a dash, six digits, ".json".
  lemma NameShape(k: Key)
    requires k.nanos < INT64_LIMIT && k.seqNo < 1_000_000
    ensures var name := FileName(k);
            && |name| == 32 && name[20] == '-' && name[27..] == ".json"
            && (forall i | 0 <= i < 20 || 21 <= i < 27 :: IsDigit(name[i]))
            && Value(name[..20]) == k.nanos && Value(name[21..27]) == k.seqNo
  {
    NameParts(k);
    assert Pow10(6) == 1_000_000;
    WidthBound(k.seqNo, 6);
    ValueFixed(k.nanos, 20);
    ValueFixed(k.seqNo, 6);
    var n, q := Fixed(k.nanos, 20), Fixed(k.seqNo, 6);
    assert FileName(k) == n + ("-" + (q + ".json"));
    assert FileName(k)[..20] == n && FileName(k)[21..27] == q;
  }

  // The time embedded in a name is read back exactly, and every int64 clock
  // value (and no larger one) can be read back.
  lemma ParseSpoolTimeRoundTrip(k: Key)
    ensures ParseSpoolTime(FileName(k)) ==
            if k.nanos < INT64_LIMIT then Some(k.nanos) else None
  {
    NanosPart(k);
    PaddedFits(k.nanos, 20);
    ValueFixed(k.nanos, PaddedWidth(k.nanos, 20));
    var p := Padded(k.nanos, 20);
    assert IsDigit(p[0]);
  }

  lemma FileNameInjective(a: Key, b: Key)
    requires FileName(a) == FileName(b)
    ensures a == b
  {
    NanosPart(a);
    NanosPart(b);
    PaddedFits(a.nanos, 20);
    PaddedFits(b.nanos, 20);
    ValueFixed(a.nanos, PaddedWidth(a.nanos, 20));
    ValueFixed(b.nanos, PaddedWidth(b.nanos, 20));
    var p := Padded(a.nanos, 20);
    var s, t := Padded(a.seqNo, 6), Padded(b.seqNo, 6);
    assert FileName(a)[|p| + 1..] == s + ".json";
    assert FileName(b)[|p| + 1..] == t + ".json";
    assert (s + ".json")[..|s|] == s && (t + ".json")[..|t|] == t;
    PaddedFits(a.seqNo, 6);
    PaddedFits(b.seqNo, 6);
    ValueFixed(a.seqNo, PaddedWidth(a.seqNo, 6));
    ValueFixed(b.seqNo, PaddedWidth(b.seqNo, 6));
  }

  // Precedes is a strict total order on keys.
  lemma PrecedesTotal(a: Key, b: Key)
    ensures !Precedes(a, a)
    ensures a == b || Precedes(a, b) || Precedes(b, a)
    ensures !(Precedes(a, b) && Precedes(b, a))
  {
    LexIrreflexive(FileName(a));
    LexTotal(FileName(a), FileName(b));
    if FileName(a) == FileName(b) {
      FileNameInjective(a, b);
    }
    if Precedes(a, b) && Precedes(b, a) {
      LexTransitive(FileName(a), FileName(b), FileName(a));
    }
  }

  // How names with one clock reading compare: numerically while the sequence
  // numbers print with one width, and otherwise by their leading digits.
  predicate SeqPrecedes(s: nat, t: nat) {
    var ws, wt := PaddedWidth(s, 6), PaddedWidth(t, 6);
    if ws == wt then s < t
    else if ws < wt then s <= Lead(t, wt - ws)
    else Lead(s, ws - wt) < t
  }

  lemma SeqOrder(s: nat, t: nat)
    ensures LexLess(Padded(s, 6) + ".json", Padded(t, 6) + ".json") == SeqPrecedes(s, t)
  {
    var ws, wt := PaddedWidth(s, 6), PaddedWidth(t, 6);
    PaddedFits(s, 6);
    PaddedFits(t, 6);
    if ws == wt {
      FixedOrder(s, t, ws);
      if s == t {
        LexIrreflexive(Padded(s, 6) + ".json");
      } else {
        LexSameLength(Padded(s, 6), Padded(t, 6), ".json", ".json");
      }
    } else if ws < wt {
      ShorterFirst(s, ws, t, wt);
    } else {
      ShorterFirst(t, wt, s, ws);
      LexTotal(Padded(s, 6) + ".json", Padded(t, 6) + ".json");
      assert |Padded(s, 6) + ".json"| != |Padded(t, 6) + ".json"|;
      var x, y := Padded(s, 6) + ".json", Padded(t, 6) + ".json";
      if LexLess(x, y) && LexLess(y, x) {
        LexTransitive(x, y, x);
        LexIrreflexive(x);
      }
    }
  }

  lemma ShorterFirst(s: nat, ws: nat, t: nat, wt: nat)
    requires ws < wt && s < Pow10(ws) && t < Pow10(wt)
    ensures LexLess(Fixed(s, ws) + ".json", Fixed(t, wt) + ".json") == (s <= Lead(t, wt - ws))
  {
    var v := wt - ws;
    var lead := Lead(t, v);
    FixedSplit(t, ws, v);
    LeadFits(t, ws, v);
    FixedOrder(s, lead, ws);
    var tail := Fixed(t, v) + ".json";
    assert Fixed(t, wt) + ".json" == Fixed(lead, ws) + tail;
    if s == lead {
      LexCommonPrefix(Fixed(s, ws), ".json", tail);
      assert IsDigit(tail[0]);
    } else {
      LexSameLength(Fixed(s, ws), Fixed(lead, ws), ".json", tail);
    }
  }

  lemma NameParts(k: Key)
    requires k.nanos < INT64_LIMIT
    ensures FileName(k) == Fixed(k.nanos, 20) + ("-" + (Padded(k.seqNo, 6) + ".json"))
    ensures k.nanos < Pow10(20)
  {
    assert Pow10(5) == 100_000;
    assert Pow10(10) == 10_000_000_000;
    assert Pow10(15) == 1_000_000_000_000_000;
    assert Pow10(20) == 100_000_000_000_000_000_000;
    WidthBound(k.nanos, 20);
  }

  // Main result on names: the order of two names is exactly the order of the
  // clock readings, and on a tie the order SeqPrecedes of the sequence numbers.
  lemma NameOrder(a: Key, b: Key)
    requires a.nanos < INT64_LIMIT && b.nanos < INT64_LIMIT
    ensures Precedes(a, b) <==>
            a.nanos < b.nanos || (a.nanos == b.nanos && SeqPrecedes(a.seqNo, b.seqNo))
  {
    NameParts(a);
    NameParts(b);
    if a.nanos == b.nanos {
      TieOrder(Fixed(a.nanos, 20), a.seqNo, b.seqNo);
    } else {
      FixedOrder(a.nanos, b.nanos, 20);
      LexSameLength(Fixed(a.nanos, 20), Fixed(b.nanos, 20),
                    "-" + (Padded(a.seqNo, 6) + ".json"), "-" + (Padded(b.seqNo, 6) + ".json"));
    }
  }

  lemma TieOrder(p: string, s: nat, t: nat)
    ensures LexLess(p + ("-" + (Padded(s, 6) + ".json")), p + ("-" + (Padded(t, 6) + ".json")))
            == SeqPrecedes(s, t)
  {
    var x, y := Padded(s, 6) + ".json", Padded(t, 6) + ".json";
    LexCommonPrefix(p, "-" + x, "-" + y);
    LexCommonPrefix("-", x, y);
    SeqOrder(s, t);
  }

  // With fewer than a million signals since start, names order as (nanos, seq).
  lemma NameOrderSmallSeq(a: Key, b: Key)
    requires a.nanos < INT64_LIMIT && b.nanos < INT64_LIMIT
    requires a.nanos != b.nanos || (a.seqNo < 1_000_000 && b.seqNo < 1_000_000)
    ensures Precedes(a, b) <==>
            a.nanos < b.nanos || (a.nanos == b.nanos && a.seqNo < b.seqNo)
  {
    NameOrder(a, b);
    assert Pow10(6) == 1_000_000;
    WidthBound(a.seqNo, 6);
    WidthBound(b.seqNo, 6);
  }

  // On a clock tie the two orders agree for seq s < t exactly when s does not
  // exceed the leading digits of t.
  lemma TieOrderExact(n: nat, s: nat, t: nat)
    requires n < INT64_LIMIT && s < t
    ensures PaddedWidth(s, 6) <= PaddedWidth(t, 6)
    ensures Precedes(Key(n, s), Key(n, t)) <==>
            s <= Lead(t, PaddedWidth(t, 6) - PaddedWidth(s, 6))
  {
    NameOrder(Key(n, s), Key(n, t));
    WidthMonotone(s, t);
  }

  // The first disagreement: the millionth signal of a process overtakes the one
  // before it when both read the same clock value.
  lemma MillionthOvertakes(n: nat)
    requires n < INT64_LIMIT
    ensures Precedes(Key(n, 1_000_000), Key(n, 999_999))
  {
    WidthBound(999_999, 6);
    WidthBound(1_000_000, 6);
    WidthBound(1_000_000, 7);
    assert Pow10(6) == 1_000_000 && Pow10(7) == 10_000_000;
    assert Lead(1_000_000, 1) == 100_000;
    TieOrderExact(n, 999_999, 1_000_000);
    PrecedesTotal(Key(n, 1_000_000), Key(n, 999_999));
  }

  lemma {:induction false} WidthMonotone(s: nat, t: nat)
    requires s <= t
    ensures Width(s) <= Width(t)
  {
    if s >= 10 {
      WidthMonotone(s / 10, t / 10);
    }
  }
}
