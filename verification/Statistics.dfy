/** Paired bootstrap statistics and verdicts, over the reals. */
module Statistics {
  import opened Outcomes

  const REPLICATES := 4096
  const MIN_PAIRED_SAMPLES := 5
  const LOW := 0.025
  const HIGH := 0.975

  datatype Verdict = Inconclusive | Improvement | Regression
  datatype Overall = AllInconclusive | AllImprovement | AllRegression | MixedVerdicts

  predicate Ascending(s: seq<real>) {
    forall i, j | 0 <= i < j < |s| :: s[i] <= s[j]
  }

  /** All values lie between these bounds. */
  predicate Between(low: real, s: seq<real>, high: real) {
    forall i | 0 <= i < |s| :: low <= s[i] <= high
  }

  function Ceiling(h: real): int {
    if h == h.Floor as real then h.Floor else h.Floor + 1
  }

  lemma Scaled(top: real, p: real)
    requires top >= 0.0 && 0.0 <= p <= 1.0
    ensures 0.0 <= top * p <= top
  {
    assert top * (1.0 - p) >= 0.0;
  }

  /** The fractional rank of a percentile among `count` values. */
  function Rank(count: nat, p: real): (h: real)
    requires count > 0 && 0.0 <= p <= 1.0
    ensures 0.0 <= h <= (count - 1) as real
  {
    Scaled((count - 1) as real, p);
    (count - 1) as real * p
  }

  lemma RankGrows(count: nat, p: real, q: real)
    requires count > 0 && 0.0 <= p <= q <= 1.0
    ensures Rank(count, p) <= Rank(count, q)
  {
    var top := (count - 1) as real;
    assert top * (q - p) >= 0.0;
  }

  /** The value at a fractional rank: linear between neighbouring order statistics. */
  function AtRank(s: seq<real>, h: real): real
    requires s != [] && 0.0 <= h <= (|s| - 1) as real
  {
    var low, high := s[h.Floor], s[Ceiling(h)];
    low + (h - h.Floor as real) * (high - low)
  }

  /** The percentile as the suite judge computes it. */
  function Percentile(s: seq<real>, p: real): real
    requires s != [] && 0.0 <= p <= 1.0
  {
    AtRank(s, Rank(|s|, p))
  }

  /** The percentile as the capsule comparison computes it. */
  function R7(s: seq<real>, p: real): real
    requires s != [] && 0.0 <= p <= 1.0
  {
    var q := Rank(|s|, p);
    if q <= 0.0 then s[0]
    else if q >= (|s| - 1) as real then s[|s| - 1]
    else
      var index := q.Floor;
      s[index] + (q - index as real) * (s[index + 1] - s[index])
  }

  /** The two implementations agree on every input. */
  lemma PercentilesAgree(s: seq<real>, p: real)
    requires s != [] && 0.0 <= p <= 1.0
    ensures Percentile(s, p) == R7(s, p)
  {
    hide Rank;
    RanksAgree(s, Rank(|s|, p));
  }

  lemma RanksAgree(s: seq<real>, q: real)
    requires s != [] && 0.0 <= q <= (|s| - 1) as real
    ensures AtRank(s, q) ==
      if q <= 0.0 then s[0]
      else if q >= (|s| - 1) as real then s[|s| - 1]
      else s[q.Floor] + (q - q.Floor as real) * (s[q.Floor + 1] - s[q.Floor])
  {
    if q <= 0.0 {
      assert q == 0.0 && q.Floor == 0;
    } else if q >= (|s| - 1) as real {
      assert q == (|s| - 1) as real && q.Floor == |s| - 1;
    }
    if q == q.Floor as real {
      assert (q - q.Floor as real) == 0.0;
    }
  }

  lemma Interpolation(a: real, b: real, f: real, g: real)
    requires a <= b && 0.0 <= f <= g <= 1.0
    ensures a <= a + f * (b - a) <= a + g * (b - a) <= b
  {
    var d := b - a;
    assert f * d >= 0.0;
    assert (g - f) * d >= 0.0;
    assert (1.0 - g) * d >= 0.0;
  }

  lemma RankBounds(s: seq<real>, h: real)
    requires s != [] && Ascending(s) && 0.0 <= h <= (|s| - 1) as real
    ensures s[h.Floor] <= AtRank(s, h) <= s[Ceiling(h)]
  {
    Interpolation(s[h.Floor], s[Ceiling(h)], h - h.Floor as real, h - h.Floor as real);
  }

  lemma RankMonotone(s: seq<real>, h: real, k: real)
    requires s != [] && Ascending(s) && 0.0 <= h <= k <= (|s| - 1) as real
    ensures AtRank(s, h) <= AtRank(s, k)
  {
    RankBounds(s, h);
    RankBounds(s, k);
    if h.Floor == k.Floor {
      if h > h.Floor as real {
        Interpolation(s[h.Floor], s[h.Floor + 1], h - h.Floor as real, k - k.Floor as real);
      } else {
        assert (h - h.Floor as real) == 0.0;
      }
    } else {
      assert Ceiling(h) <= k.Floor;
      assert s[Ceiling(h)] <= s[k.Floor];
    }
  }

  /** A percentile lies between its neighbouring order statistics. */
  lemma PercentileBounds(s: seq<real>, p: real)
    requires s != [] && Ascending(s) && 0.0 <= p <= 1.0
    ensures var h := Rank(|s|, p);
      0 <= h.Floor <= Ceiling(h) < |s| && s[h.Floor] <= Percentile(s, p) <= s[Ceiling(h)]
  {
    hide Rank, AtRank;
    RankBounds(s, Rank(|s|, p));
  }

  /** Percentiles grow with p. */
  lemma PercentileMonotone(s: seq<real>, p: real, q: real)
    requires s != [] && Ascending(s) && 0.0 <= p <= q <= 1.0
    ensures Percentile(s, p) <= Percentile(s, q)
  {
    hide Rank, AtRank;
    RankGrows(|s|, p, q);
    RankMonotone(s, Rank(|s|, p), Rank(|s|, q));
  }

  function Sum(s: seq<real>): real {
    if s == [] then 0.0 else Sum(s[..|s| - 1]) + s[|s| - 1]
  }

  /** A sum is made of the sums of its parts. */
  lemma {:induction false} SumAppends(a: seq<real>, b: seq<real>)
    ensures Sum(a + b) == Sum(a) + Sum(b)
    ensures forall x :: Sum([x]) == x
  {
    forall x: real
      ensures Sum([x]) == x
    {
      assert [x][..0] == [];
    }
    if b == [] {
      assert a + b == a;
    } else {
      SumAppends(a, b[..|b| - 1]);
      assert (a + b)[..|a + b| - 1] == a + b[..|b| - 1];
    }
  }

  function Mean(s: seq<real>): real
    requires s != []
  {
    Sum(s) / |s| as real
  }

  lemma {:induction false} SumBounds(low: real, s: seq<real>, high: real)
    requires Between(low, s, high)
    ensures |s| as real * low <= Sum(s) <= |s| as real * high
  {
    if s != [] {
      SumBounds(low, s[..|s| - 1], high);
      assert (|s| - 1) as real * low + low == |s| as real * low;
      assert (|s| - 1) as real * high + high == |s| as real * high;
    }
  }

  /** A mean lies between the bounds of its values. */
  lemma MeanBounds(low: real, s: seq<real>, high: real)
    requires s != [] && Between(low, s, high)
    ensures low <= Sum(s) / |s| as real <= high
  {
    SumBounds(low, s, high);
    var n := |s| as real;
    var mean := Sum(s) / n;
    assert mean * n == Sum(s);
    Cancel(low, mean, n);
    Cancel(mean, high, n);
  }

  lemma Cancel(a: real, b: real, n: real)
    requires n > 0.0 && a * n <= b * n
    ensures a <= b
  {
    if a > b {
      Strict(b, a, n);
    }
  }

  lemma Strict(a: real, b: real, n: real)
    requires n > 0.0 && a < b
    ensures a * n < b * n
  {
    assert (b - a) * n > 0.0;
  }

  function Inserted(s: seq<real>, i: nat, x: real): seq<real>
    requires i <= |s|
  {
    s[..i] + [x] + s[i..]
  }

  lemma InsertedContents(s: seq<real>, i: nat, x: real)
    requires i <= |s|
    ensures multiset(Inserted(s, i, x)) == multiset(s) + multiset{x}
  {
    assert s == s[..i] + s[i..];
  }

  lemma InsertedAscends(s: seq<real>, i: nat, x: real)
    requires Ascending(s) && i <= |s|
    requires (forall k | 0 <= k < i :: s[k] <= x) && (i == |s| || x <= s[i])
    ensures Ascending(Inserted(s, i, x))
  {
    var r := Inserted(s, i, x);
    forall j, k | 0 <= j < k < |r|
      ensures r[j] <= r[k]
    {
    }
  }

  /** Insert into an ascending sequence. */
  method Insert(s: seq<real>, x: real) returns (r: seq<real>)
    requires Ascending(s)
    ensures Ascending(r) && multiset(r) == multiset(s) + multiset{x}
  {
    hide Ascending, Inserted;
    var i := 0;
    while i < |s| && s[i] <= x
      invariant 0 <= i <= |s| && forall k | 0 <= k < i :: s[k] <= x
    {
      i := i + 1;
    }
    InsertedContents(s, i, x);
    InsertedAscends(s, i, x);
    r := Inserted(s, i, x);
  }

  /** Ascending, with the same values. */
  method Sorted(s: seq<real>) returns (r: seq<real>)
    ensures Ascending(r) && multiset(r) == multiset(s) && |r| == |s|
  {
    r := [];
    for i := 0 to |s|
      invariant Ascending(r) && multiset(r) == multiset(s[..i])
    {
      r := Insert(r, s[i]);
      assert s[..i + 1] == s[..i] + [s[i]];
    }
    assert s[..|s|] == s;
    assert |r| == |multiset(r)| == |multiset(s)| == |s|;
  }

  lemma SameBounds(s: seq<real>, r: seq<real>, low: real, high: real)
    requires multiset(s) == multiset(r) && Between(low, s, high)
    ensures Between(low, r, high)
  {
    forall i | 0 <= i < |r|
      ensures low <= r[i] <= high
    {
      assert r[i] in multiset(r);
      assert r[i] in multiset(s);
    }
  }

  /** One resample; `index` says which value each draw takes. */
  function Resample(deltas: seq<real>, index: (nat, nat) -> nat, replicate: nat): (r: seq<real>)
    requires forall r, d :: index(r, d) < |deltas|
    ensures |r| == |deltas|
  {
    seq(|deltas|, draw requires 0 <= draw < |deltas| => deltas[index(replicate, draw)])
  }

  /** The means of this many resamples. */
  function ReplicateMeans(deltas: seq<real>, index: (nat, nat) -> nat, count: nat): seq<real>
    requires deltas != [] && forall r, d :: index(r, d) < |deltas|
  {
    seq(count, replicate requires 0 <= replicate < count => Mean(Resample(deltas, index, replicate)))
  }

  /** A percentile of values in any order. */
  ghost predicate IsPercentile(s: seq<real>, p: real, value: real)
    requires 0.0 <= p <= 1.0
  {
    exists ordered :: ordered != [] && Ascending(ordered) && multiset(ordered) == multiset(s) && value == Percentile(ordered, p)
  }

  /** The mean of one resample. */
  method ReplicateMean(deltas: seq<real>, index: (nat, nat) -> nat, replicate: nat) returns (mean: real)
    requires deltas != [] && forall r, d :: index(r, d) < |deltas|
    ensures mean == Mean(Resample(deltas, index, replicate))
    ensures forall low, high | Between(low, deltas, high) :: low <= mean <= high
  {
    var selected: seq<real> := [];
    for draw := 0 to |deltas|
      invariant |selected| == draw && forall k | 0 <= k < draw :: selected[k] == deltas[index(replicate, k)]
    {
      selected := selected + [deltas[index(replicate, draw)]];
    }
    assert selected == Resample(deltas, index, replicate);
    mean := Sum(selected) / |deltas| as real;
    forall low, high | Between(low, deltas, high)
      ensures low <= mean <= high
    {
      MeanBounds(low, selected, high);
    }
  }

  /** The 2.5th and the 97.5th percentile of the replicate means. Whatever the draws, it is an interval, and
      it lies within any bounds of the deltas. */
  method BootstrapInterval(deltas: seq<real>, index: (nat, nat) -> nat) returns (low: real, high: real)
    requires deltas != [] && forall r, d :: index(r, d) < |deltas|
    ensures low <= high
    ensures forall a, b | Between(a, deltas, b) :: a <= low && high <= b
    ensures IsPercentile(ReplicateMeans(deltas, index, REPLICATES), 0.025, low)
    ensures IsPercentile(ReplicateMeans(deltas, index, REPLICATES), 0.975, high)
  {
    hide Percentile, Resample, Mean;
    var means: seq<real> := [];
    for replicate := 0 to REPLICATES
      invariant |means| == replicate && forall k | 0 <= k < replicate :: means[k] == Mean(Resample(deltas, index, k))
      invariant forall a, b | Between(a, deltas, b) :: Between(a, means, b)
    {
      var mean := ReplicateMean(deltas, index, replicate);
      means := means + [mean];
    }
    assert means == ReplicateMeans(deltas, index, REPLICATES);
    var ordered := Sorted(means);
    low, high := Percentile(ordered, LOW), Percentile(ordered, HIGH);
    PercentileMonotone(ordered, LOW, HIGH);
    forall a, b | Between(a, deltas, b)
      ensures a <= low && high <= b
    {
      SameBounds(means, ordered, a, b);
      PercentileBounds(ordered, LOW);
      PercentileBounds(ordered, HIGH);
    }
  }

  function Abs(x: real): real {
    if x < 0.0 then -x else x
  }

  /** The suite judge's verdict. */
  function CaseVerdict(low: real, high: real, effect: real, noise: real): Verdict {
    if low <= 0.0 <= high then Inconclusive
    else if Abs(effect) <= noise then Inconclusive
    else if low > 0.0 then Improvement
    else Regression
  }

  /** The capsule comparison's verdict; nothing when it raises. */
  function CoordinateVerdict(low: real, high: real, effect: real, noise: real): Option<Verdict> {
    if low <= 0.0 <= high || Abs(effect) <= noise then Some(Inconclusive)
    else if low > 0.0 && high > 0.0 then Some(Improvement)
    else if low < 0.0 && high < 0.0 then Some(Regression)
    else None
  }

  /** The capsule verdict raises exactly on a reversed pair that straddles or touches zero and beats
      the noise; on an interval it never does, and then both verdicts are the same. */
  lemma VerdictsAgree(low: real, high: real, effect: real, noise: real)
    ensures CoordinateVerdict(low, high, effect, noise).None? <==> high <= 0.0 <= low && (high < 0.0 || low > 0.0) && Abs(effect) > noise
    ensures low <= high ==> CoordinateVerdict(low, high, effect, noise) == Some(CaseVerdict(low, high, effect, noise))
  {
  }

  function OverallVerdict(verdicts: set<Verdict>): Overall {
    if verdicts == {Inconclusive} then AllInconclusive
    else if verdicts == {Improvement} then AllImprovement
    else if verdicts == {Regression} then AllRegression
    else MixedVerdicts
  }

  /** The overall verdict is a single kind exactly when every case has it. */
  lemma OverallMeans(verdicts: set<Verdict>, v: Verdict)
    requires verdicts != {}
    ensures OverallVerdict(verdicts) == (match v case Inconclusive => AllInconclusive case Improvement => AllImprovement case Regression => AllRegression)
      <==> forall w | w in verdicts :: w == v
  {
    var some :| some in verdicts;
    if forall w | w in verdicts :: w == v {
      assert verdicts == {v};
    }
  }

  function Median(s: seq<real>): real
    requires s != []
  {
    var middle := |s| / 2;
    if |s| % 2 == 1 then s[middle] else (s[middle - 1] + s[middle]) / 2.0
  }

  /** How many values are at most x, and at least x. */
  function AtMost(s: seq<real>, x: real): nat {
    if s == [] then 0 else AtMost(s[..|s| - 1], x) + if s[|s| - 1] <= x then 1 else 0
  }

  function AtLeast(s: seq<real>, x: real): nat {
    if s == [] then 0 else AtLeast(s[..|s| - 1], x) + if s[|s| - 1] >= x then 1 else 0
  }

  /** At least half of the values are at most x, and at least half are at least x. */
  predicate Central(s: seq<real>, x: real) {
    x in s && 2 * AtMost(s, x) >= |s| && 2 * AtLeast(s, x) >= |s|
  }

  /** Halfway between the least and the greatest central value. */
  ghost predicate IsMiddle(s: seq<real>, m: real) {
    exists low, high ::
      && Central(s, low) && Central(s, high) && (forall x | Central(s, x) :: low <= x <= high)
      && m == (low + high) / 2.0
  }

  /** There is one middle. */
  lemma MiddleUnique(s: seq<real>, m: real, n: real)
    requires IsMiddle(s, m) && IsMiddle(s, n)
    ensures m == n
  {
  }

  lemma {:induction false} CountsAppend(a: seq<real>, b: seq<real>, x: real)
    ensures AtMost(a + b, x) == AtMost(a, x) + AtMost(b, x) && AtLeast(a + b, x) == AtLeast(a, x) + AtLeast(b, x)
  {
    if b == [] {
      assert a + b == a;
    } else {
      CountsAppend(a, b[..|b| - 1], x);
      assert (a + b)[..|a + b| - 1] == a + b[..|b| - 1];
    }
  }

  lemma {:induction false} CountsBelow(s: seq<real>, x: real)
    ensures (forall i | 0 <= i < |s| :: s[i] <= x) ==> AtMost(s, x) == |s|
    ensures (forall i | 0 <= i < |s| :: s[i] > x) ==> AtMost(s, x) == 0
    ensures (forall i | 0 <= i < |s| :: s[i] >= x) ==> AtLeast(s, x) == |s|
    ensures (forall i | 0 <= i < |s| :: s[i] < x) ==> AtLeast(s, x) == 0
    ensures AtMost(s, x) <= |s| && AtLeast(s, x) <= |s|
  {
    if s != [] {
      CountsBelow(s[..|s| - 1], x);
    }
  }

  function Without(s: seq<real>, k: nat): seq<real>
    requires k < |s|
  {
    s[..k] + s[k + 1..]
  }

  lemma CountsWithout(s: seq<real>, k: nat, x: real)
    requires k < |s|
    ensures AtMost(s, x) == AtMost(Without(s, k), x) + AtMost([s[k]], x)
    ensures AtLeast(s, x) == AtLeast(Without(s, k), x) + AtLeast([s[k]], x)
  {
    assert s == s[..k] + [s[k]] + s[k + 1..];
    hide AtMost, AtLeast;
    CountsAppend(s[..k], [s[k]], x);
    CountsAppend(s[..k] + [s[k]], s[k + 1..], x);
    CountsAppend(s[..k], s[k + 1..], x);
  }

  lemma ContentsWithout(s: seq<real>, k: nat)
    requires k < |s|
    ensures multiset(Without(s, k)) == multiset(s) - multiset{s[k]}
  {
    assert s == s[..k] + [s[k]] + s[k + 1..];
  }

  /** Counting does not depend on the order. */
  lemma {:induction false} CountsPermuted(a: seq<real>, b: seq<real>, x: real)
    requires multiset(a) == multiset(b)
    ensures AtMost(a, x) == AtMost(b, x) && AtLeast(a, x) == AtLeast(b, x)
  {
    assert |a| == |multiset(a)| == |multiset(b)| == |b|;
    if a != [] {
      hide AtMost, AtLeast;
      assert a[0] in multiset(a);
      assert a[0] in multiset(b);
      var k :| 0 <= k < |b| && b[k] == a[0];
      ContentsWithout(a, 0);
      ContentsWithout(b, k);
      CountsPermuted(Without(a, 0), Without(b, k), x);
      CountsWithout(a, 0, x);
      CountsWithout(b, k, x);
    }
  }

  /** How the values of an ascending sequence are counted. */
  lemma CountsOrdered(s: seq<real>, k: nat, x: real)
    requires Ascending(s) && k < |s|
    ensures x >= s[k] ==> AtMost(s, x) >= k + 1
    ensures x < s[k] ==> AtMost(s, x) <= k
    ensures x <= s[k] ==> AtLeast(s, x) >= |s| - k
    ensures x > s[k] ==> AtLeast(s, x) <= |s| - k - 1
  {
    CountsSplit(s, k, x);
    CountsSplit(s, k + 1, x);
    hide AtMost, AtLeast, Ascending;
  }

  lemma CountsSplit(s: seq<real>, k: nat, x: real)
    requires Ascending(s) && k <= |s|
    ensures AtMost(s, x) == AtMost(s[..k], x) + AtMost(s[k..], x) && AtLeast(s, x) == AtLeast(s[..k], x) + AtLeast(s[k..], x)
    ensures k > 0 && x >= s[k - 1] ==> AtMost(s[..k], x) == k
    ensures k > 0 && x > s[k - 1] ==> AtLeast(s[..k], x) == 0
    ensures k < |s| && x < s[k] ==> AtMost(s[k..], x) == 0
    ensures k < |s| && x <= s[k] ==> AtLeast(s[k..], x) == |s| - k
    ensures AtMost(s[..k], x) <= k && AtLeast(s[k..], x) <= |s| - k
  {
    hide AtMost, AtLeast;
    assert s == s[..k] + s[k..];
    CountsAppend(s[..k], s[k..], x);
    CountsFirst(s, k, x);
    CountsRest(s, k, x);
  }

  lemma CountsFirst(s: seq<real>, k: nat, x: real)
    requires Ascending(s) && k <= |s|
    ensures k > 0 && x >= s[k - 1] ==> AtMost(s[..k], x) == k
    ensures k > 0 && x > s[k - 1] ==> AtLeast(s[..k], x) == 0
    ensures AtMost(s[..k], x) <= k
  {
    hide AtMost, AtLeast;
    var first := s[..k];
    assert forall i | 0 <= i < k :: first[i] <= s[k - 1];
    CountsBelow(first, x);
  }

  lemma CountsRest(s: seq<real>, k: nat, x: real)
    requires Ascending(s) && k <= |s|
    ensures k < |s| && x < s[k] ==> AtMost(s[k..], x) == 0
    ensures k < |s| && x <= s[k] ==> AtLeast(s[k..], x) == |s| - k
    ensures AtLeast(s[k..], x) <= |s| - k
  {
    hide AtMost, AtLeast;
    var rest := s[k..];
    assert forall i | 0 <= i < |rest| :: s[k] <= rest[i];
    CountsBelow(rest, x);
  }

  lemma MedianOrdered(s: seq<real>)
    requires s != [] && Ascending(s)
    ensures IsMiddle(s, Median(s))
  {
    var middle := |s| / 2;
    var low := if |s| % 2 == 1 then s[middle] else s[middle - 1];
    var high := s[middle];
    var k := if |s| % 2 == 1 then middle else middle - 1;
    CountsOrdered(s, k, low);
    CountsOrdered(s, middle, low);
    CountsOrdered(s, k, high);
    CountsOrdered(s, middle, high);
    assert Central(s, low) && Central(s, high);
    forall x | Central(s, x)
      ensures low <= x <= high
    {
      CountsOrdered(s, k, x);
      CountsOrdered(s, middle, x);
    }
    assert Median(s) == (low + high) / 2.0;
  }

  /** The median of the sorted values is their middle, in whatever order they came. */
  lemma MedianIsMiddle(s: seq<real>, ordered: seq<real>)
    requires ordered != [] && Ascending(ordered) && multiset(ordered) == multiset(s)
    ensures IsMiddle(s, Median(ordered))
  {
    MedianOrdered(ordered);
    assert |s| == |multiset(s)| == |multiset(ordered)| == |ordered|;
    forall x
      ensures Central(s, x) <==> Central(ordered, x)
    {
      CountsPermuted(s, ordered, x);
      assert x in s <==> x in multiset(s);
      assert x in ordered <==> x in multiset(ordered);
    }
    hide Central;
    var low, high :|
      && Central(ordered, low) && Central(ordered, high) && (forall x | Central(ordered, x) :: low <= x <= high)
      && Median(ordered) == (low + high) / 2.0;
    assert Central(s, low) && Central(s, high);
  }

  function Deviations(s: seq<real>, m: real): seq<real> {
    seq(|s|, i requires 0 <= i < |s| => Abs(s[i] - m))
  }

  /** The scaled median absolute deviation. */
  ghost predicate IsNoise(logs: seq<real>, noise: real) {
    exists m, d :: IsMiddle(logs, m) && IsMiddle(Deviations(logs, m), d) && noise == 1.4826 * d
  }

  function Logs(s: seq<real>, log: real -> real): seq<real> {
    seq(|s|, i requires 0 <= i < |s| => log(s[i]))
  }

  /** How much the candidate gains in each pair. */
  function Deltas(baseline: seq<real>, candidate: seq<real>, log: real -> real): seq<real>
    requires |baseline| == |candidate|
  {
    seq(|baseline|, i requires 0 <= i < |baseline| => log(candidate[i]) - log(baseline[i]))
  }

  datatype Comparison = Comparison(
    baselineMean: real, candidateMean: real, effect: real, low: real, high: real, noise: real, verdict: Verdict)

  /** A logarithm grows with its argument; nothing else about it matters here. */
  ghost predicate Increasing(log: real -> real) {
    forall x, y: real | 0.0 < x < y :: log(x) < log(y)
  }

  /** Every pair of samples favours the candidate. */
  predicate AllFaster(baseline: seq<real>, candidate: seq<real>) {
    |baseline| == |candidate| && forall i | 0 <= i < |baseline| :: baseline[i] < candidate[i]
  }

  predicate Comparable(baseline: seq<real>, candidate: seq<real>) {
    && |baseline| == |candidate| >= MIN_PAIRED_SAMPLES
    && (forall x | x in baseline :: x > 0.0) && (forall x | x in candidate :: x > 0.0)
  }

  /** Every number of a comparison, said of the samples. */
  ghost predicate Computed(c: Comparison, baseline: seq<real>, candidate: seq<real>, log: real -> real, index: (nat, nat) -> nat)
    requires |baseline| == |candidate| > 0 && forall r, d :: index(r, d) < |baseline|
  {
    var deltas := Deltas(baseline, candidate, log);
    && c.baselineMean == Mean(baseline) && c.candidateMean == Mean(candidate) && c.effect == Mean(deltas)
    && IsPercentile(ReplicateMeans(deltas, index, REPLICATES), 0.025, c.low)
    && IsPercentile(ReplicateMeans(deltas, index, REPLICATES), 0.975, c.high)
    && IsNoise(Logs(baseline, log), c.noise)
  }

  /** Compare one case of two arms. */
  method CompareCase(baseline: seq<real>, candidate: seq<real>, log: real -> real, index: (nat, nat) -> nat) returns (r: Outcome<Comparison>)
    requires Increasing(log) && (baseline != [] ==> forall i, d :: index(i, d) < |baseline|)
    ensures !r.Crashed? && (r.Done? <==> Comparable(baseline, candidate))
    ensures r.Done? ==> r.value.low <= r.value.high && r.value.noise >= 0.0
    ensures r.Done? ==> Computed(r.value, baseline, candidate, log, index)
    ensures r.Done? ==> r.value.verdict == CaseVerdict(r.value.low, r.value.high, r.value.effect, r.value.noise)
    ensures r.Done? && baseline == candidate ==> r.value.verdict.Inconclusive? && r.value.effect == 0.0
    ensures r.Done? && AllFaster(baseline, candidate) ==> r.value.effect > 0.0 && !r.value.verdict.Regression?
    ensures r.Done? && AllFaster(candidate, baseline) ==> r.value.effect < 0.0 && !r.value.verdict.Improvement?
  {
    if |baseline| != |candidate| || |baseline| < MIN_PAIRED_SAMPLES {
      return Raised;
    }
    for i := 0 to |baseline|
      invariant forall k | 0 <= k < i :: baseline[k] > 0.0 && candidate[k] > 0.0
    {
      if baseline[i] <= 0.0 || candidate[i] <= 0.0 {
        assert baseline[i] in baseline && candidate[i] in candidate;
        return Raised;
      }
    }
    var logs: seq<real> := [];
    var deltas: seq<real> := [];
    for i := 0 to |baseline|
      invariant |logs| == |deltas| == i
      invariant forall k | 0 <= k < i :: logs[k] == log(baseline[k]) && deltas[k] == log(candidate[k]) - log(baseline[k])
    {
      logs := logs + [log(baseline[i])];
      deltas := deltas + [log(candidate[i]) - log(baseline[i])];
    }
    assert logs == Logs(baseline, log) && deltas == Deltas(baseline, candidate, log);
    var effect := Sum(deltas) / |deltas| as real;
    var low, high := BootstrapInterval(deltas, index);
    var noise := Noise(logs);
    DeltaSigns(baseline, candidate, log, deltas, effect, low, high);
    hide IsPercentile, IsNoise, ReplicateMeans;
    return Done(Comparison(
      Sum(baseline) / |baseline| as real, Sum(candidate) / |candidate| as real, effect, low, high, noise, CaseVerdict(low, high, effect, noise)));
  }

  /** The scaled median absolute deviation. */
  method Noise(logs: seq<real>) returns (noise: real)
    requires logs != []
    ensures noise >= 0.0 && IsNoise(logs, noise)
  {
    hide Ascending, Median, IsMiddle;
    var ordered := Sorted(logs);
    var median := Median(ordered);
    MedianIsMiddle(logs, ordered);
    var deviations: seq<real> := [];
    for i := 0 to |logs|
      invariant |deviations| == i && forall k | 0 <= k < i :: deviations[k] == Abs(logs[k] - median)
    {
      deviations := deviations + [Abs(logs[i] - median)];
    }
    var sorted := Sorted(deviations);
    forall i | 0 <= i < |sorted|
      ensures sorted[i] >= 0.0
    {
      assert sorted[i] in multiset(sorted);
      assert sorted[i] in multiset(deviations);
    }
    assert deviations == Deviations(logs, median);
    MedianIsMiddle(deviations, sorted);
    noise := 1.4826 * Median(sorted);
    NotNegative(sorted);
  }

  lemma NotNegative(s: seq<real>)
    requires s != [] && forall i | 0 <= i < |s| :: s[i] >= 0.0
    ensures Median(s) >= 0.0
  {
  }

  lemma {:induction false} Extremes(s: seq<real>) returns (low: nat, high: nat)
    requires s != []
    ensures low < |s| && high < |s| && Between(s[low], s, s[high])
  {
    if |s| == 1 {
      return 0, 0;
    }
    var last := |s| - 1;
    low, high := Extremes(s[..last]);
    assert forall i | 0 <= i < last :: s[i] == s[..last][i];
    low := if s[last] < s[low] then last else low;
    high := if s[last] > s[high] then last else high;
  }

  /** The signs of the deltas bound the effect and the interval. */
  lemma DeltaSigns(baseline: seq<real>, candidate: seq<real>, log: real -> real, deltas: seq<real>, effect: real, low: real, high: real)
    requires Increasing(log) && Comparable(baseline, candidate) && |deltas| == |baseline|
    requires forall k | 0 <= k < |deltas| :: deltas[k] == log(candidate[k]) - log(baseline[k])
    requires effect == Sum(deltas) / |deltas| as real && low <= high
    requires forall a, b | Between(a, deltas, b) :: a <= low && high <= b
    ensures baseline == candidate ==> low == high == effect == 0.0
    ensures AllFaster(baseline, candidate) ==> effect > 0.0 && low > 0.0
    ensures AllFaster(candidate, baseline) ==> effect < 0.0 && high < 0.0
  {
    var i, j := Extremes(deltas);
    MeanBounds(deltas[i], deltas, deltas[j]);
    assert deltas[i] <= effect <= deltas[j] && deltas[i] <= low && high <= deltas[j];
    hide Sum, Between;
    assert baseline[i] in baseline && candidate[i] in candidate && baseline[j] in baseline && candidate[j] in candidate;
    if AllFaster(baseline, candidate) {
      assert log(baseline[i]) < log(candidate[i]);
    }
    if AllFaster(candidate, baseline) {
      assert log(candidate[j]) < log(baseline[j]);
    }
  }
}
