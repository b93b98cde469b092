/** The exponentially weighted baseline, over reals, and its capped histories. */
module EwmaBaseline {

  datatype Stats = Stats(mean: real, variance: real)

  datatype Maybe = Unseen | Seen(stats: Stats)

  function Updated(alpha: real, s: Maybe, value: real): Stats {
    var oldMean := if s.Seen? then s.stats.mean else value;
    var oldVar := if s.Seen? then s.stats.variance else 0.0;
    var mean := alpha * value + (1.0 - alpha) * oldMean;
    Stats(mean, alpha * ((value - mean) * (value - mean)) + (1.0 - alpha) * oldVar)
  }

  function UpdatedAll(alpha: real, values: seq<real>): Maybe {
    if values == [] then Unseen
    else Seen(Updated(alpha, UpdatedAll(alpha, values[..|values| - 1]), values[|values| - 1]))
  }

  predicate Within(x: real, lo: real, hi: real) { lo <= x <= hi }

  /** A weighted mean of two values of an interval stays in the interval. */
  lemma ConvexStays(alpha: real, x: real, y: real, lo: real, hi: real)
    requires 0.0 <= alpha <= 1.0 && Within(x, lo, hi) && Within(y, lo, hi)
    ensures Within(alpha * x + (1.0 - alpha) * y, lo, hi)
  {
    Products(alpha, x - lo);
    Products(alpha, hi - x);
    Products(1.0 - alpha, y - lo);
    Products(1.0 - alpha, hi - y);
    assert alpha * x + (1.0 - alpha) * y - lo == alpha * (x - lo) + (1.0 - alpha) * (y - lo);
    assert hi - (alpha * x + (1.0 - alpha) * y) == alpha * (hi - x) + (1.0 - alpha) * (hi - y);
  }

  lemma Products(a: real, b: real)
    requires a >= 0.0 && b >= 0.0
    ensures a * b >= 0.0
  {
  }

  lemma ScaleBounds(w: real, x: real, lo: real, hi: real)
    requires w >= 0.0 && Within(x, lo, hi)
    ensures w * lo <= w * x <= w * hi
  {
  }

  lemma SquareBound(d: real, range: real)
    requires -range <= d <= range
    ensures 0.0 <= d * d <= range * range
  {
    var e := if d < 0.0 then -d else d;
    assert d * d == e * e;
    ScaleBounds(e, e, 0.0, range);
    ScaleBounds(range, e, 0.0, range);
  }

  lemma UpdateStays(alpha: real, s: Maybe, value: real, lo: real, hi: real)
    requires 0.0 <= alpha <= 1.0 && Within(value, lo, hi)
    requires s.Seen? ==> Within(s.stats.mean, lo, hi) && Within(s.stats.variance, 0.0, (hi - lo) * (hi - lo))
    ensures var t := Updated(alpha, s, value);
            Within(t.mean, lo, hi) && Within(t.variance, 0.0, (hi - lo) * (hi - lo))
  {
    var oldMean := if s.Seen? then s.stats.mean else value;
    var oldVar := if s.Seen? then s.stats.variance else 0.0;
    var t := Updated(alpha, s, value);
    ConvexStays(alpha, value, oldMean, lo, hi);
    VarianceStays(alpha, value - t.mean, oldVar, hi - lo);
  }

  lemma VarianceStays(alpha: real, d: real, oldVar: real, range: real)
    requires 0.0 <= alpha <= 1.0 && -range <= d <= range && (oldVar == 0.0 || Within(oldVar, 0.0, range * range))
    ensures Within(alpha * (d * d) + (1.0 - alpha) * oldVar, 0.0, range * range)
  {
    SquareBound(d, range);
    ConvexStays(alpha, d * d, oldVar, 0.0, range * range);
  }

  /** Over any observations the mean stays in their range and the variance in [0, range²]. */
  lemma {:induction false} BaselineBounds(alpha: real, values: seq<real>, lo: real, hi: real)
    requires 0.0 <= alpha <= 1.0 && values != []
    requires forall k :: 0 <= k < |values| ==> Within(values[k], lo, hi)
    ensures var s := UpdatedAll(alpha, values);
            s.Seen? && Within(s.stats.mean, lo, hi) && Within(s.stats.variance, 0.0, (hi - lo) * (hi - lo))
  {
    var front := values[..|values| - 1];
    if front != [] { BaselineBounds(alpha, front, lo, hi); }
    UpdateStays(alpha, UpdatedAll(alpha, front), values[|values| - 1], lo, hi);
  }

  const HISTORY_CAP := 10_000

  /** The newest entries, at most the cap. */
  function Newest<T>(all: seq<T>): seq<T> {
    if |all| > HISTORY_CAP then all[|all| - HISTORY_CAP..] else all
  }

  /** Push and shift one at a time keep exactly the newest entries. */
  lemma PushKeepsNewest<T>(all: seq<T>, x: T)
    ensures var pushed := Newest(all) + [x];
            Newest(all + [x]) == if |pushed| > HISTORY_CAP then pushed[1..] else pushed
  {
  }

  class Baseline {
    const alpha: real
    var means: map<string, real>
    var variances: map<string, real>
    var timestamps: seq<int>
    var vectors: seq<seq<real>>
    ghost var allTimestamps: seq<int>
    ghost var allVectors: seq<seq<real>>

    ghost predicate Valid()
      reads this
    {
      && means.Keys == variances.Keys
      && timestamps == Newest(allTimestamps) && vectors == Newest(allVectors)
    }

    function StatsOf(feature: string): Maybe
      requires means.Keys == variances.Keys
      reads this
    {
      if feature in means then Seen(Stats(means[feature], variances[feature])) else Unseen
    }

    constructor (alpha: real)
      ensures Valid() && this.alpha == alpha && means == map[] && allTimestamps == [] && allVectors == []
    {
      this.alpha, means, variances := alpha, map[], map[];
      timestamps, vectors, allTimestamps, allVectors := [], [], [], [];
    }

    method Update(feature: string, value: real)
      requires Valid()
      modifies this`means, this`variances
      ensures Valid() && StatsOf(feature) == Seen(Updated(alpha, old(StatsOf(feature)), value))
      ensures forall f :: f != feature ==> StatsOf(f) == old(StatsOf(f))
    {
      var oldMean := if feature in means then means[feature] else value;
      var newMean := alpha * value + (1.0 - alpha) * oldMean;
      var oldVar := if feature in variances then variances[feature] else 0.0;
      var newVar := alpha * ((value - newMean) * (value - newMean)) + (1.0 - alpha) * oldVar;
      means := means[feature := newMean];
      variances := variances[feature := newVar];
    }

    method RecordTimestamp(ts: int)
      requires Valid()
      modifies this`timestamps, this`allTimestamps
      ensures Valid() && allTimestamps == old(allTimestamps) + [ts]
    {
      PushKeepsNewest(allTimestamps, ts);
      allTimestamps := allTimestamps + [ts];
      timestamps := timestamps + [ts];
      if |timestamps| > HISTORY_CAP { timestamps := timestamps[1..]; }
    }

    method RecordVector(vector: seq<real>)
      requires Valid()
      modifies this`vectors, this`allVectors
      ensures Valid() && allVectors == old(allVectors) + [vector]
    {
      PushKeepsNewest(allVectors, vector);
      allVectors := allVectors + [vector];
      vectors := vectors + [vector];
      if |vectors| > HISTORY_CAP { vectors := vectors[1..]; }
    }
  }
}
