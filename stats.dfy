/**
  The outlier-filtered mean of `Form1.GetAvg`: take the arithmetic mean, keep the
  values that lie within one sample standard deviation of it, and average those.

  The source compares `avg - stdDev <= x <= avg + stdDev` with `stdDev` the square
  root of the sample variance. Here the band is written without a square root, as
  `(x - avg) * (x - avg) <= variance`; `BandBySquare` shows that the two tests agree
  for every non-negative `sd` whose square is the variance.
*/
module Stats {

  function Sq(x: real): (r: real)
    ensures r >= 0.0
  {
    x * x
  }

  lemma NonNegativeProduct(x: real, y: real)
    requires x >= 0.0 && y >= 0.0
    ensures x * y >= 0.0
  {
  }

  lemma PositiveProduct(x: real, y: real)
    requires x > 0.0 && y > 0.0
    ensures x * y > 0.0
  {
  }

  function Sum(s: seq<real>): real
  {
    if s == [] then 0.0 else s[0] + Sum(s[1..])
  }

  /** The arithmetic mean, as LINQ's `Average`. */
  function Mean(s: seq<real>): real
    requires |s| > 0
  {
    Sum(s) / |s| as real
  }

  function Min(s: seq<real>): (m: real)
    requires |s| > 0
    ensures m in s
    ensures forall i :: 0 <= i < |s| ==> m <= s[i]
  {
    if |s| == 1 then s[0]
    else
      var rest := Min(s[1..]);
      assert forall i :: 1 <= i < |s| ==> s[i] == s[1..][i - 1];
      if s[0] <= rest then s[0] else rest
  }

  function Max(s: seq<real>): (m: real)
    requires |s| > 0
    ensures m in s
    ensures forall i :: 0 <= i < |s| ==> s[i] <= m
  {
    if |s| == 1 then s[0]
    else
      var rest := Max(s[1..]);
      assert forall i :: 1 <= i < |s| ==> s[i] == s[1..][i - 1];
      if s[0] >= rest then s[0] else rest
  }

  /** The sum of squared deviations from `avg`; never negative. */
  function SquaredDeviations(s: seq<real>, avg: real): (r: real)
    ensures r >= 0.0
  {
    if s == [] then 0.0 else Sq(s[0] - avg) + SquaredDeviations(s[1..], avg)
  }

  /** The values of `s`, in order, whose squared deviation from `avg` is at most `variance`. */
  function WithinBand(s: seq<real>, avg: real, variance: real): seq<real>
  {
    if s == [] then []
    else
      var rest := WithinBand(s[1..], avg, variance);
      if Sq(s[0] - avg) <= variance then [s[0]] + rest else rest
  }

  /** The values of `s`, in order, that are strictly positive (the lap times that enter the average). */
  function Positives(s: seq<real>): seq<real>
  {
    if s == [] then []
    else
      var rest := Positives(s[1..]);
      if s[0] > 0.0 then [s[0]] + rest else rest
  }

  /**
    The values that survive the filter. With `n >= 2` the band is the mean plus or
    minus the root of `SquaredDeviations / (n - 1)`. With one value the source divides
    0 by 0: the deviation is NaN, every comparison against it is false and nothing is kept.
  */
  function Kept(data: seq<real>): seq<real>
    requires |data| > 0
  {
    if |data| == 1 then []
    else
      var avg := Mean(data);
      WithinBand(data, avg, SquaredDeviations(data, avg) / (|data| - 1) as real)
  }

  /**
    The outlier-filtered mean: 0 on no data, 0 on one value (the NaN case above), and
    otherwise the mean of the values kept, which lies between the smallest and the
    largest input.
  */
  function GetAvg(data: seq<real>): (r: real)
    ensures |data| <= 1 ==> r == 0.0
  {
    if |data| == 0 then 0.0
    else
      var kept := Kept(data);
      if kept == [] then 0.0 else Mean(kept)
  }

  // ---------------------------------------------------------------------------
  // Lemmas

  /** `WithinBand` keeps exactly the values of `s` inside the band. */
  lemma {:induction false} WithinBandMembers(s: seq<real>, avg: real, variance: real)
    ensures |WithinBand(s, avg, variance)| <= |s|
    ensures forall x :: x in WithinBand(s, avg, variance) <==> x in s && Sq(x - avg) <= variance
    ensures forall x ::
      multiset(WithinBand(s, avg, variance))[x] == if Sq(x - avg) <= variance then multiset(s)[x] else 0
  {
    if s != [] {
      WithinBandMembers(s[1..], avg, variance);
      assert forall x :: x in s <==> x == s[0] || x in s[1..];
      assert s == [s[0]] + s[1..];
      assert multiset(s) == multiset([s[0]]) + multiset(s[1..]);
    }
  }

  /** `Positives` keeps exactly the positive values of `s`. */
  lemma {:induction false} PositivesMembers(s: seq<real>)
    ensures |Positives(s)| <= |s|
    ensures forall x :: x in Positives(s) <==> x in s && x > 0.0
    ensures forall x :: multiset(Positives(s))[x] == if x > 0.0 then multiset(s)[x] else 0
  {
    if s != [] {
      PositivesMembers(s[1..]);
      assert forall x :: x in s <==> x == s[0] || x in s[1..];
      assert s == [s[0]] + s[1..];
      assert multiset(s) == multiset([s[0]]) + multiset(s[1..]);
    }
  }

  /**
    Nothing is kept from one value; something is kept from two or more; and only
    input values are kept.
  */
  lemma KeptFacts(data: seq<real>)
    requires |data| > 0
    ensures |data| == 1 ==> Kept(data) == []
    ensures |data| >= 2 ==> Kept(data) != []
    ensures forall x :: x in Kept(data) ==> x in data
  {
    if |data| >= 2 {
      var avg := Mean(data);
      var variance := SquaredDeviations(data, avg) / (|data| - 1) as real;
      BandIsNonEmpty(data, avg, variance);
      WithinBandMembers(data, avg, variance);
    }
  }

  /**
    With two or more values the filtered mean is the mean of a non-empty subset of
    them, and so lies between the smallest and the largest.
  */
  lemma GetAvgBounds(data: seq<real>)
    requires |data| >= 2
    ensures Kept(data) != [] && GetAvg(data) == Mean(Kept(data))
    ensures Min(data) <= GetAvg(data) <= Max(data)
  {
    KeptFacts(data);
    MeanWithin(Kept(data), Min(data), Max(data));
  }

  /** A sum of values in `[lo, hi]` lies between `n * lo` and `n * hi`. */
  lemma {:induction false} SumWithin(s: seq<real>, lo: real, hi: real)
    requires forall x :: x in s ==> lo <= x <= hi
    ensures |s| as real * lo <= Sum(s) <= |s| as real * hi
  {
    if s != [] {
      assert forall x :: x in s[1..] ==> x in s;
      SumWithin(s[1..], lo, hi);
      assert s[0] in s;
      var n := |s[1..]| as real;
      assert |s| as real * lo == n * lo + lo;
      assert |s| as real * hi == n * hi + hi;
    }
  }

  /** The mean of values in `[lo, hi]` lies in `[lo, hi]`. */
  lemma MeanWithin(s: seq<real>, lo: real, hi: real)
    requires |s| > 0
    requires forall x :: x in s ==> lo <= x <= hi
    ensures lo <= Mean(s) <= hi
  {
    SumWithin(s, lo, hi);
    var n := |s| as real;
    assert Mean(s) - lo == (Sum(s) - n * lo) / n;
    assert hi - Mean(s) == (n * hi - Sum(s)) / n;
  }

  /** If every value lies outside the band, the squared deviations exceed `n * variance`. */
  lemma {:induction false} AllOutsideBand(s: seq<real>, avg: real, variance: real)
    requires |s| > 0
    requires WithinBand(s, avg, variance) == []
    ensures SquaredDeviations(s, avg) > |s| as real * variance
  {
    assert s[0] in s;
    if |s| > 1 {
      assert forall x :: x in s[1..] ==> x in s;
      AllOutsideBand(s[1..], avg, variance);
    }
  }

  /**
    With at least two values, some value lies within one sample standard deviation
    of the mean: otherwise the squared deviations `S` would exceed `n * S / (n - 1)`,
    which is at least `S`.
  */
  lemma BandIsNonEmpty(data: seq<real>, avg: real, variance: real)
    requires |data| >= 2
    requires variance == SquaredDeviations(data, avg) / (|data| - 1) as real
    ensures WithinBand(data, avg, variance) != []
  {
    var s := SquaredDeviations(data, avg);
    var m := (|data| - 1) as real;
    assert m * variance == s;
    assert |data| as real * variance == variance + s;
    if WithinBand(data, avg, variance) == [] {
      AllOutsideBand(data, avg, variance);
      assert false;
    }
  }

  /** The square test used here agrees with the source's square-root band test. */
  lemma BandBySquare(x: real, avg: real, sd: real)
    requires sd >= 0.0
    ensures (avg - sd <= x <= avg + sd) <==> Sq(x - avg) <= sd * sd
  {
    var d := x - avg;
    assert Sq(x - avg) == d * d;
    if -sd <= d <= sd {
      NonNegativeProduct(sd - d, sd + d);
      assert (sd - d) * (sd + d) == sd * sd - d * d;
    } else if d > sd {
      PositiveProduct(d - sd, d + sd);
      assert (d - sd) * (d + sd) == d * d - sd * sd;
    } else {
      PositiveProduct(-sd - d, sd - d);
      assert (-sd - d) * (sd - d) == d * d - sd * sd;
    }
  }

  /** Over non-negative data the filtered mean is non-negative. */
  lemma GetAvgNonNegative(data: seq<real>)
    requires forall x :: x in data ==> x >= 0.0
    ensures GetAvg(data) >= 0.0
  {
    if |data| >= 2 {
      GetAvgBounds(data);
      assert Min(data) in data;
    }
  }

  /** The filtered mean of positive lap times is either 0 (fewer than two) or positive. */
  lemma GetAvgOfPositives(data: seq<real>)
    ensures var r := GetAvg(Positives(data)); r == 0.0 <==> |Positives(data)| <= 1
    ensures GetAvg(Positives(data)) >= 0.0
  {
    var p := Positives(data);
    PositivesMembers(data);
    if |p| >= 2 {
      GetAvgBounds(p);
      assert Min(p) in p;
    }
  }

  /** On a constant sequence of two or more values the filtered mean is that value. */
  lemma GetAvgConstant(data: seq<real>, c: real)
    requires |data| >= 2
    requires forall i :: 0 <= i < |data| ==> data[i] == c
    ensures GetAvg(data) == c
  {
    GetAvgBounds(data);
    assert Min(data) in data && Max(data) in data;
  }

  /**
    Fuel usages of 3.0, 3.2 and 9.0 (a lap with a leak or a spin): the mean is 76/15 and
    the band holds 3.0 and 3.2 but not 9.0, so the filtered mean is 3.1.
  */
  lemma FuelScenario()
    ensures GetAvg([3.0, 3.2, 9.0]) == 3.1
  {
    var d := [3.0, 3.2, 9.0];
    assert Sum(d) == 15.2 by {
      assert d[1..] == [3.2, 9.0];
      assert d[1..][1..] == [9.0];
    }
    var avg := Mean(d);
    assert avg == 76.0 / 15.0;
    assert Sq(3.0 - avg) == 961.0 / 225.0;
    assert Sq(3.2 - avg) == 784.0 / 225.0;
    assert Sq(9.0 - avg) == 3481.0 / 225.0;
    assert SquaredDeviations(d, avg) == 5226.0 / 225.0 by {
      assert d[1..] == [3.2, 9.0];
      assert d[1..][1..] == [9.0];
    }
    var variance := SquaredDeviations(d, avg) / 2.0;
    assert variance == 2613.0 / 225.0;
    assert WithinBand(d, avg, variance) == [3.0, 3.2] by {
      assert d[1..] == [3.2, 9.0];
      assert d[1..][1..] == [9.0];
      assert d[1..][1..][1..] == [];
    }
    var k := [3.0, 3.2];
    assert Sum(k) == 6.2 by {
      assert k[1..] == [3.2];
    }
  }

  /** Lap times of 95, 96 and 94: the mean is 95, the sample variance 1, every lap is kept. */
  lemma LapTimeScenario()
    ensures GetAvg([95.0, 96.0, 94.0]) == 95.0
  {
    var d := [95.0, 96.0, 94.0];
    assert d[1..] == [96.0, 94.0];
    assert d[1..][1..] == [94.0];
    assert Sum(d) == 285.0;
    assert SquaredDeviations(d, 95.0) == 2.0;
    assert WithinBand(d, 95.0, 1.0) == d;
  }
}
