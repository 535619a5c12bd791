/** The rail-excluded mean: samples outside the 1st to 99th percentile are dropped before
    averaging, unless that drops them all. */
module TrimmedMean {

  const LOW := 0.01
  const HIGH := 0.99

  // -- sorting ----------------------------------------------------------------------------

  predicate IsSorted(s: seq<real>) {
    forall i, j | 0 <= i <= j < |s| :: s[i] <= s[j]
  }

  function Insert(x: real, s: seq<real>): (r: seq<real>)
    requires IsSorted(s)
    ensures IsSorted(r) && |r| == |s| + 1
    ensures r[0] == if s == [] || x <= s[0] then x else s[0]
  {
    if s == [] then [x]
    else if x <= s[0] then [x] + s
    else
      var rest := Insert(x, s[1..]);
      AtLeastFirst(s[0], rest);
      [s[0]] + rest
  }

  lemma AtLeastFirst(x: real, s: seq<real>)
    requires IsSorted(s) && (s != [] ==> x <= s[0])
    ensures IsSorted([x] + s)
  {
  }

  function Sort(s: seq<real>): (r: seq<real>)
    ensures IsSorted(r) && |r| == |s|
  {
    if s == [] then [] else Insert(s[0], Sort(s[1..]))
  }

  lemma {:induction false} InsertAdds(x: real, s: seq<real>)
    requires IsSorted(s)
    ensures multiset(Insert(x, s)) == multiset(s) + multiset{x}
  {
    if s != [] && x > s[0] {
      InsertAdds(x, s[1..]);
      assert s == [s[0]] + s[1..];
    }
  }

  /** Sorting only reorders. */
  lemma {:induction false} SortPermutes(s: seq<real>)
    ensures multiset(Sort(s)) == multiset(s)
  {
    if s != [] {
      SortPermutes(s[1..]);
      InsertAdds(s[0], Sort(s[1..]));
      assert s == [s[0]] + s[1..];
    }
  }

  // -- percentiles ------------------------------------------------------------------------

  /** The value at a fractional position, interpolated linearly between its neighbours. */
  function ValueAt(sorted: seq<real>, position: real): real
    requires |sorted| > 0 && 0.0 <= position <= (|sorted| - 1) as real
  {
    var k := position.Floor;
    if k + 1 < |sorted| then sorted[k] + (sorted[k + 1] - sorted[k]) * (position - k as real)
    else sorted[k]
  }

  function Position(q: real, n: nat): (position: real)
    requires n > 0 && 0.0 <= q <= 1.0
    ensures 0.0 <= position <= (n - 1) as real
  {
    q * (n - 1) as real
  }

  /** The percentile of sorted samples: the value at position `q * (n - 1)`. */
  function Percentile(sorted: seq<real>, q: real): real
    requires |sorted| > 0 && 0.0 <= q <= 1.0
  {
    ValueAt(sorted, Position(q, |sorted|))
  }

  lemma Interpolation(a: real, b: real, t: real)
    requires a <= b && 0.0 <= t <= 1.0
    ensures a <= a + (b - a) * t <= b
  {
    assert (b - a) * t <= (b - a) * 1.0;
  }

  /** The value at a position lies between the samples around it. */
  lemma ValueBetween(sorted: seq<real>, position: real)
    requires |sorted| > 0 && IsSorted(sorted) && 0.0 <= position <= (|sorted| - 1) as real
    ensures var k := position.Floor;
      sorted[k] <= ValueAt(sorted, position) <= sorted[if position == k as real then k else k + 1]
  {
    var k := position.Floor;
    if k + 1 < |sorted| {
      Interpolation(sorted[k], sorted[k + 1], position - k as real);
    }
  }

  /** A percentile taken at or before a sample's place is at most that sample. */
  lemma PercentileBelow(sorted: seq<real>, q: real, i: nat)
    requires i < |sorted| && IsSorted(sorted) && 0.0 <= q <= 1.0 && Position(q, |sorted|) <= i as real
    ensures sorted[0] <= Percentile(sorted, q) <= sorted[i]
  {
    ValueBetween(sorted, Position(q, |sorted|));
  }

  /** A percentile taken at or after a sample's place is at least that sample. */
  lemma PercentileAbove(sorted: seq<real>, q: real, i: nat)
    requires i < |sorted| && IsSorted(sorted) && 0.0 <= q <= 1.0 && i as real <= Position(q, |sorted|)
    ensures sorted[i] <= Percentile(sorted, q) <= sorted[|sorted| - 1]
  {
    ValueBetween(sorted, Position(q, |sorted|));
  }

  // -- trimming and averaging -------------------------------------------------------------

  /** The samples inside `[lo, hi]`, in their order. */
  function Trim(s: seq<real>, lo: real, hi: real): (r: seq<real>)
    ensures forall x :: x in r <==> x in s && lo <= x <= hi
  {
    if s == [] then []
    else (if lo <= s[0] <= hi then [s[0]] else []) + Trim(s[1..], lo, hi)
  }

  lemma {:induction false} TrimEmpties(s: seq<real>, lo: real, hi: real)
    requires forall i | 0 <= i < |s| :: s[i] < lo || s[i] > hi
    ensures Trim(s, lo, hi) == []
  {
    if s != [] { TrimEmpties(s[1..], lo, hi); }
  }

  function Sum(s: seq<real>): real {
    if s == [] then 0.0 else s[0] + Sum(s[1..])
  }

  function Mean(s: seq<real>): real
    requires s != []
  {
    Sum(s) / |s| as real
  }

  function Low(s: seq<real>): real
    requires s != []
  {
    Percentile(Sort(s), LOW)
  }

  function High(s: seq<real>): real
    requires s != []
  {
    Percentile(Sort(s), HIGH)
  }

  function Trimmed(s: seq<real>): seq<real>
    requires s != []
  {
    Trim(s, Low(s), High(s))
  }

  function RailExcludedMean(s: seq<real>): real {
    if s == [] then 0.0
    else if Trimmed(s) != [] then Mean(Trimmed(s))
    else Mean(s)
  }

  // -- the mean stays between the bounds of what it averages ------------------------------

  predicate Within(s: seq<real>, a: real, b: real) {
    forall i | 0 <= i < |s| :: a <= s[i] <= b
  }

  lemma {:induction false} SumBounds(s: seq<real>, a: real, b: real)
    requires Within(s, a, b)
    ensures a * |s| as real <= Sum(s) <= b * |s| as real
  {
    if s != [] {
      SumBounds(s[1..], a, b);
      var n, m := |s| as real, |s[1..]| as real;
      assert n == m + 1.0;
      assert a * n == a * m + a && b * n == b * m + b;
    }
  }

  lemma ProductGrows(x: real, y: real, n: real)
    requires n > 0.0 && x < y
    ensures x * n < y * n
  {
    assert (y - x) * n > 0.0;
    assert (y - x) * n == y * n - x * n;
  }

  lemma QuotientBounds(x: real, a: real, b: real, n: real)
    requires n > 0.0 && a * n <= x <= b * n
    ensures a <= x / n <= b
  {
    var q := x / n;
    assert q * n == x;
    if q < a { ProductGrows(q, a, n); }
    if b < q { ProductGrows(b, q, n); }
  }

  lemma MeanBounds(s: seq<real>, a: real, b: real)
    requires s != [] && Within(s, a, b)
    ensures a <= Mean(s) <= b
  {
    SumBounds(s, a, b);
    QuotientBounds(Sum(s), a, b, |s| as real);
  }

  lemma SortKeepsSamples(s: seq<real>)
    ensures forall x :: x in s <==> x in Sort(s)
  {
    SortPermutes(s);
    forall x
      ensures x in s <==> x in Sort(s)
    {
      assert x in s <==> x in multiset(s);
      assert x in Sort(s) <==> x in multiset(Sort(s));
    }
  }

  predicate Bounds(s: seq<real>, a: real, b: real) {
    && a in s && b in s
    && forall x | x in s :: a <= x <= b
  }

  lemma TrimStaysInside(s: seq<real>, lo: real, hi: real, a: real, b: real)
    requires Bounds(s, a, b)
    ensures Within(s, a, b)
    ensures Within(Trim(s, lo, hi), a, b) && Within(Trim(s, lo, hi), lo, hi)
  {
    var r := Trim(s, lo, hi);
    forall i | 0 <= i < |s|
      ensures a <= s[i] <= b
    {
      assert s[i] in s;
    }
    forall i | 0 <= i < |r|
      ensures a <= r[i] <= b && lo <= r[i] <= hi
    {
      assert r[i] in r;
    }
  }

  /** The mean lies between the smallest and the largest sample, and when trimming leaves
      anything, between the two percentiles. */
  lemma MeanLiesBetween(s: seq<real>, a: real, b: real)
    requires Bounds(s, a, b)
    ensures a <= RailExcludedMean(s) <= b
    ensures Trimmed(s) != [] ==> Low(s) <= RailExcludedMean(s) <= High(s)
  {
    TrimStaysInside(s, Low(s), High(s), a, b);
    if Trimmed(s) != [] {
      MeanBounds(Trimmed(s), a, b);
      MeanBounds(Trimmed(s), Low(s), High(s));
    } else {
      MeanBounds(s, a, b);
    }
  }

  // -- when the fallback is taken -----------------------------------------------------------

  /** From three samples on, the middle one is never trimmed. */
  lemma MiddleSurvives(s: seq<real>)
    requires |s| >= 3
    ensures Sort(s)[(|s| - 1) / 2] in Trimmed(s)
  {
    var sorted, m := Sort(s), |s| - 1;
    var i := m / 2;
    assert 4 * i >= m && 2 * i <= m;
    var r := m as real;
    assert i as real >= r / 4.0 && i as real <= r / 2.0;
    PercentileBelow(sorted, LOW, i);
    PercentileAbove(sorted, HIGH, i);
    SortKeepsSamples(s);
  }

  /** Two samples sort to themselves or to their swap. */
  lemma PairSorts(s: seq<real>)
    requires |s| == 2
    ensures Sort(s) == if s[0] <= s[1] then [s[0], s[1]] else [s[1], s[0]]
  {
    var tail := s[1..];
    assert tail[1..] == [];
    assert Sort(tail) == [s[1]];
    assert [s[1]][1..] == [];
    assert Insert(s[0], []) == [s[0]];
    assert Sort(s) == Insert(s[0], [s[1]]);
  }

  lemma PairPercentile(sorted: seq<real>, q: real)
    requires |sorted| == 2 && 0.0 <= q < 1.0
    ensures Percentile(sorted, q) == sorted[0] + (sorted[1] - sorted[0]) * q
  {
    assert q * (2 - 1) as real == q;
  }

  /** Both values of an unequal pair lie outside its percentiles; equal values lie on them. */
  lemma PairTrims(s: seq<real>)
    requires |s| == 2
    ensures Trimmed(s) == [] <==> s[0] != s[1]
  {
    PairSorts(s);
    var a, b := Sort(s)[0], Sort(s)[1];
    PairPercentile(Sort(s), LOW);
    PairPercentile(Sort(s), HIGH);
    assert Low(s) == a + (b - a) * 0.01 && High(s) == a + (b - a) * 0.99;
    if s[0] == s[1] {
      assert s[0] in Trimmed(s);
    } else {
      assert forall i | 0 <= i < |s| :: s[i] < Low(s) || s[i] > High(s);
      TrimEmpties(s, Low(s), High(s));
    }
  }

  lemma OneSurvives(s: seq<real>)
    requires |s| == 1
    ensures s[0] in Trimmed(s)
  {
    SortKeepsSamples(s);
    assert Sort(s)[0] in s;
    PercentileBelow(Sort(s), LOW, 0);
    PercentileAbove(Sort(s), HIGH, 0);
  }

  /** Trimming a non-empty sample leaves nothing exactly when it has two unequal values. */
  lemma FallbackExactlyOnUnequalPair(s: seq<real>)
    requires s != []
    ensures Trimmed(s) == [] <==> |s| == 2 && s[0] != s[1]
  {
    if |s| == 1 {
      OneSurvives(s);
    } else if |s| == 2 {
      PairTrims(s);
    } else {
      MiddleSurvives(s);
    }
  }

  // -- what is averaged -----------------------------------------------------------------------

  /** A sum is the sum of its parts, and a single sample is its own sum. */
  lemma {:induction false} SumOfParts(a: seq<real>, b: seq<real>)
    ensures Sum(a + b) == Sum(a) + Sum(b)
    ensures |a| == 1 ==> Sum(a) == a[0]
  {
    if a == [] {
      assert a + b == b;
    } else {
      assert (a + b)[1..] == a[1..] + b;
      SumOfParts(a[1..], b);
    }
  }

  /** The list without its `i`-th sample. */
  function Without(s: seq<real>, i: nat): seq<real>
    requires i < |s|
  {
    s[..i] + s[i + 1..]
  }

  lemma WithoutOne(s: seq<real>, i: nat)
    requires i < |s|
    ensures multiset(Without(s, i)) == multiset(s) - multiset{s[i]}
    ensures Sum(s) == s[i] + Sum(Without(s, i))
  {
    hide Sum;
    var front, back := s[..i], s[i + 1..];
    assert s == front + ([s[i]] + back);
    OneTakenOut(front, s[i], back);
    SumOfParts(front, [s[i]] + back);
    SumOfParts([s[i]], back);
    SumOfParts(front, back);
  }

  lemma OneTakenOut(front: seq<real>, x: real, back: seq<real>)
    ensures multiset(front + back) == multiset(front + ([x] + back)) - multiset{x}
  {
    assert multiset(front + ([x] + back)) == multiset(front) + (multiset{x} + multiset(back));
  }

  /** The same samples in another order have the same sum. */
  lemma {:induction false} SumIgnoresOrder(a: seq<real>, b: seq<real>)
    requires multiset(a) == multiset(b)
    ensures Sum(a) == Sum(b)
  {
    if a == [] {
      assert |multiset(b)| == 0;
    } else {
      assert a[0] in multiset(b);
      var i: nat :| i < |b| && b[i] == a[0];
      WithoutOne(a, 0);
      WithoutOne(b, i);
      SumIgnoresOrder(Without(a, 0), Without(b, i));
    }
  }

  /** A sample inside the bounds is kept as often as it occurs, any other not at all. */
  lemma {:induction false} TrimKeepsMultiplicities(s: seq<real>, lo: real, hi: real, x: real)
    ensures multiset(Trim(s, lo, hi))[x] == if lo <= x <= hi then multiset(s)[x] else 0
  {
    if s != [] {
      TrimKeepsMultiplicities(s[1..], lo, hi, x);
      assert s == [s[0]] + s[1..];
      var head := if lo <= s[0] <= hi then [s[0]] else [];
      assert multiset(Trim(s, lo, hi)) == multiset(head) + multiset(Trim(s[1..], lo, hi));
    }
  }

  /** `kept` holds the samples of `s` inside the two percentiles, in any order. */
  ghost predicate IsKept(kept: seq<real>, s: seq<real>)
    requires s != []
  {
    forall x: real :: multiset(kept)[x] == if Low(s) <= x <= High(s) then multiset(s)[x] else 0
  }

  lemma KeptIsTrimmed(kept: seq<real>, s: seq<real>)
    requires s != [] && IsKept(kept, s)
    ensures multiset(kept) == multiset(Trimmed(s)) && |kept| == |Trimmed(s)|
  {
    forall x: real
      ensures multiset(kept)[x] == multiset(Trimmed(s))[x]
    {
      TrimKeepsMultiplicities(s, Low(s), High(s), x);
    }
    assert multiset(kept) == multiset(Trimmed(s));
    assert |kept| == |multiset(kept)| && |Trimmed(s)| == |multiset(Trimmed(s))|;
  }

  lemma QuotientTimesCount(s: seq<real>)
    requires s != []
    ensures Mean(s) * |s| as real == Sum(s)
    ensures RailExcludedMean(s) == Mean(if Trimmed(s) != [] then Trimmed(s) else s)
  {
  }

  /** The mean times the count is the sum of the samples between the percentiles, each as
      often as it occurs; of all samples when there are none between them. */
  lemma MeanTimesCount(s: seq<real>, kept: seq<real>)
    requires s != [] && IsKept(kept, s)
    ensures kept != [] ==> RailExcludedMean(s) * |kept| as real == Sum(kept)
    ensures kept == [] ==> RailExcludedMean(s) * |s| as real == Sum(s)
  {
    hide *;
    KeptIsTrimmed(kept, s);
    QuotientTimesCount(s);
    if kept != [] {
      QuotientTimesCount(Trimmed(s));
      SumIgnoresOrder(kept, Trimmed(s));
    }
  }

  // -- where the percentiles lie --------------------------------------------------------------

  /** A position between two samples takes its share of each. */
  lemma ValueIsLinear(sorted: seq<real>, k: nat, t: real)
    requires k + 1 < |sorted| && 0.0 <= t <= 1.0
    ensures ValueAt(sorted, k as real + t) == sorted[k] * (1.0 - t) + sorted[k + 1] * t
    ensures ValueAt(sorted, k as real) == sorted[k] && ValueAt(sorted, (k + 1) as real) == sorted[k + 1]
  {
    var a, b := sorted[k], sorted[k + 1];
    assert a + (b - a) * t == a * (1.0 - t) + b * t;
    assert (k as real).Floor == k && ((k + 1) as real).Floor == k + 1;
    if t < 1.0 {
      assert (k as real + t).Floor == k;
    } else {
      assert k as real + t == (k + 1) as real;
    }
  }

  /** A sample that has `q` of the others' places before it is the percentile `q`. */
  lemma PercentileIsSample(sorted: seq<real>, q: real, i: nat)
    requires i < |sorted| && 0.0 <= q <= 1.0 && q * (|sorted| - 1) as real == i as real
    ensures Percentile(sorted, q) == sorted[i]
  {
    assert (i as real).Floor == i;
  }

  /** The rails leave out the outermost hundredth on either side: of 100 steps, one. */
  lemma RailsAreOneHundredth(s: seq<real>, m: nat)
    requires |s| == 100 * m + 1
    ensures Low(s) == Sort(s)[m] && High(s) == Sort(s)[99 * m]
  {
    hide Percentile, Sort, Low, High;
    Hundredths(m);
    PercentileIsSample(Sort(s), LOW, m);
    PercentileIsSample(Sort(s), HIGH, 99 * m);
    RailsArePercentiles(s);
  }

  lemma Hundredths(m: nat)
    ensures LOW * (100 * m) as real == m as real && HIGH * (100 * m) as real == (99 * m) as real
  {
    var r := m as real;
    assert (100 * m) as real == 100.0 * r && (99 * m) as real == 99.0 * r;
    assert LOW * (100.0 * r) == r && HIGH * (100.0 * r) == 99.0 * r;
  }

  lemma RailsArePercentiles(s: seq<real>)
    requires s != []
    ensures Low(s) == Percentile(Sort(s), LOW) && High(s) == Percentile(Sort(s), HIGH)
  {
    hide Percentile, Sort;
  }
}
