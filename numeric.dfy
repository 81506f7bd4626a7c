/** The numeric library calls the rover core relies on (np.sort, np.mean,
    np.clip, np.int_, Python's float `%`), stated over exact reals and
    unbounded integers. Transcendental functions stay abstract: the model
    receives them as a `Trig` value. */
module Numeric {

  /** np.pi, written as the shortest decimal that reads back as that double
      (the exact binary value differs beyond these digits). */
  const Pi: real := 3.141592653589793

  /** sqrt, atan2, cos and sin as the floating-point library computes them;
      nothing is assumed about their values. */
  datatype Trig = Trig(sqrt: real -> real, atan2: (real, real) -> real,
                       cos: real -> real, sin: real -> real)

  function Sum(s: seq<real>): real
  {
    if |s| == 0 then 0.0 else s[0] + Sum(s[1..])
  }

  /** np.mean of a non-empty array (on an empty one numpy yields NaN). */
  function Mean(s: seq<real>): real
    requires |s| > 0
  {
    Sum(s) / (|s| as real)
  }

  predicate SortedAsc(s: seq<real>)
  {
    forall i, j :: 0 <= i < j < |s| ==> s[i] <= s[j]
  }

  /** Inserts x into an ascending sequence, before the first element not below it. */
  function Insert(x: real, s: seq<real>): seq<real>
  {
    if |s| == 0 || x <= s[0] then [x] + s
    else [s[0]] + Insert(x, s[1..])
  }

  lemma {:induction false} InsertSorted(x: real, s: seq<real>)
    requires SortedAsc(s)
    ensures |Insert(x, s)| == |s| + 1
    ensures Insert(x, s)[0] == x || (|s| > 0 && Insert(x, s)[0] == s[0])
    ensures SortedAsc(Insert(x, s))
  {
    if |s| > 0 && x > s[0] {
      InsertSorted(x, s[1..]);
      ConsSorted(s[0], Insert(x, s[1..]));
    }
  }

  lemma ConsSorted(h: real, t: seq<real>)
    requires SortedAsc(t)
    requires |t| > 0 ==> h <= t[0]
    ensures SortedAsc([h] + t)
  {
  }

  lemma {:induction false} InsertElements(x: real, s: seq<real>)
    ensures multiset(Insert(x, s)) == multiset(s) + multiset{x}
    ensures Sum(Insert(x, s)) == x + Sum(s)
  {
    if |s| == 0 || x <= s[0] {
      assert ([x] + s)[1..] == s;
    } else {
      var rest := Insert(x, s[1..]);
      InsertElements(x, s[1..]);
      assert s == [s[0]] + s[1..];
      assert ([s[0]] + rest)[1..] == rest;
    }
  }

  /** np.sort: ascending order, same elements. */
  function Sort(s: seq<real>): (r: seq<real>)
    ensures |r| == |s|
    ensures SortedAsc(r)
    ensures multiset(r) == multiset(s)
    ensures Sum(r) == Sum(s)
  {
    if |s| == 0 then []
    else
      assert s == [s[0]] + s[1..];
      InsertSorted(s[0], Sort(s[1..]));
      InsertElements(s[0], Sort(s[1..]));
      Insert(s[0], Sort(s[1..]))
  }

  lemma {:induction false} SumSplit(s: seq<real>, k: nat)
    requires k <= |s|
    ensures Sum(s) == Sum(s[..k]) + Sum(s[k..])
  {
    if k > 0 {
      SumSplit(s[1..], k - 1);
      assert s[1..][..k - 1] == s[..k][1..];
      assert s[1..][k - 1..] == s[k..];
    }
  }

  lemma {:induction false} SumAtMost(s: seq<real>, m: real)
    requires forall i :: 0 <= i < |s| ==> s[i] <= m
    ensures Sum(s) <= (|s| as real) * m
  {
    if |s| > 0 {
      SumAtMost(s[1..], m);
    }
  }

  lemma {:induction false} SumAtLeast(s: seq<real>, m: real)
    requires forall i :: 0 <= i < |s| ==> m <= s[i]
    ensures (|s| as real) * m <= Sum(s)
  {
    if |s| > 0 {
      SumAtLeast(s[1..], m);
    }
  }

  /** In an ascending sequence, the mean of any non-empty suffix is at least
      the mean of the whole sequence. */
  lemma SuffixMeanAtLeastMean(s: seq<real>, k: nat)
    requires SortedAsc(s)
    requires k < |s|
    ensures Mean(s[k..]) >= Mean(s)
  {
    SumSplit(s, k);
    SplitMeans(s, k);
  }

  /** The bound of SuffixMeanAtLeastMean, stated on the two halves' sums. */
  lemma SplitMeans(s: seq<real>, k: nat)
    requires SortedAsc(s)
    requires k < |s|
    ensures (Sum(s[..k]) + Sum(s[k..])) / (|s| as real) <= Sum(s[k..]) / (|s[k..]| as real)
  {
    var kr, qr := k as real, (|s| - k) as real;
    PrefixAtMostPivot(s, k);
    SuffixAtLeastPivot(s, k);
    WeightedMeans(Sum(s[..k]), Sum(s[k..]), s[k], kr, qr);
    assert |s| as real == kr + qr;
  }

  /** Every element before position k is at most s[k]. */
  lemma PrefixAtMostPivot(s: seq<real>, k: nat)
    requires SortedAsc(s)
    requires k < |s|
    ensures Sum(s[..k]) <= (k as real) * s[k]
  {
    var p := s[..k];
    forall i | 0 <= i < |p| ensures p[i] <= s[k] { assert p[i] == s[i]; }
    SumAtMost(p, s[k]);
  }

  /** Every element from position k on is at least s[k]. */
  lemma SuffixAtLeastPivot(s: seq<real>, k: nat)
    requires SortedAsc(s)
    requires k < |s|
    ensures ((|s| - k) as real) * s[k] <= Sum(s[k..])
  {
    var q := s[k..];
    forall i | 0 <= i < |q| ensures s[k] <= q[i] { assert q[i] == s[k + i]; }
    SumAtLeast(q, s[k]);
  }

  /** With a <= k * m and q * m <= b (k >= 0, q > 0): (a + b) / (k + q) <= b / q. */
  lemma WeightedMeans(a: real, b: real, m: real, k: real, q: real)
    requires k >= 0.0 && q > 0.0
    requires a <= k * m && q * m <= b
    ensures (a + b) / (k + q) <= b / q
  {
    MulMonotone(k, q * m, b);
    MulMonotone(q, a, k * m);
    assert k * (q * m) == q * (k * m);
    assert q * a <= k * b;
    assert q * (a + b) <= (k + q) * b;
    DivideBoth(a + b, k + q, b, q);
  }

  lemma MulMonotone(c: real, a: real, b: real)
    requires c >= 0.0 && a <= b
    ensures c * a <= c * b
  {
  }

  /** From a * q <= b * n with positive n and q: a / n <= b / q. */
  lemma DivideBoth(a: real, n: real, b: real, q: real)
    requires n > 0.0 && q > 0.0
    requires q * a <= n * b
    ensures a / n <= b / q
  {
    assert a / n == (q * a) / (n * q);
    assert b / q == (n * b) / (n * q);
  }

  /** np.clip on one real value with lo <= hi. */
  function ClipReal(v: real, lo: real, hi: real): (r: real)
    requires lo <= hi
    ensures lo <= r <= hi
    ensures lo <= v <= hi ==> r == v
    ensures v < lo ==> r == lo
    ensures hi < v ==> r == hi
  {
    if v < lo then lo else if v > hi then hi else v
  }

  /** np.clip on one integer value with lo <= hi. */
  function ClipInt(v: int, lo: int, hi: int): (r: int)
    requires lo <= hi
    ensures lo <= r <= hi
    ensures lo <= v <= hi ==> r == v
    ensures v < lo ==> r == lo
    ensures hi < v ==> r == hi
  {
    if v < lo then lo else if v > hi then hi else v
  }

  /** np.int_ on a float: truncation toward zero. */
  function TruncToInt(v: real): (r: int)
    ensures 0.0 <= v ==> 0 <= r && r as real <= v < r as real + 1.0
    ensures v < 0.0 ==> r <= 0 && r as real - 1.0 < v <= r as real
  {
    if v >= 0.0 then v.Floor else -((-v).Floor)
  }

  /** Python's float `a % 360`: the representative of a modulo 360 in [0, 360). */
  function Mod360(a: real): (r: real)
    ensures 0.0 <= r < 360.0
    ensures (a - r) / 360.0 == ((a - r) / 360.0).Floor as real
  {
    var f := (a / 360.0).Floor;
    assert f as real <= a / 360.0 < f as real + 1.0;
    var r := a - 360.0 * (f as real);
    assert (a - r) / 360.0 == f as real;
    r
  }
}
