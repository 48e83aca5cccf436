/** monitor/rackmon.py: percentiles read off cumulative histogram buckets, and the history of an
    engine they are taken over. Reals stand for floats; rounding for display is left out. */
module Quantile {
  import opened Prelude

  /** A bucket's upper bound. */
  datatype Bound = Finite(value: real) | Infinity

  /** The requests counted at or under a bound. */
  datatype Bucket = Bucket(le: Bound, count: real)

  predicate Less(a: Bound, b: Bound) { a.Finite? && (b.Infinity? || a.value < b.value) }

  /** A dict of buckets in the order of its sorted keys. */
  ghost predicate Sorted(cur: seq<Bucket>) {
    forall i, j :: 0 <= i < j < |cur| ==> Less(cur[i].le, cur[j].le)
  }

  function Before(prev: map<Bound, real>, le: Bound): real {
    if le in prev then prev[le] else 0.0
  }

  /** The counts of a window: those of now less those of before. */
  function Window(cur: seq<Bucket>, prev: map<Bound, real>): (w: seq<Bucket>)
    ensures |w| == |cur|
  {
    seq(|cur|, k requires 0 <= k < |cur| => Bucket(cur[k].le, cur[k].count - Before(prev, cur[k].le)))
  }

  /** Buckets over bounds that are not negative, whatever they count: after a restart an engine counts from 0. */
  ghost predicate Bounded(w: seq<Bucket>) {
    Sorted(w) && forall k :: 0 <= k < |w| && w[k].le.Finite? ==> w[k].le.value >= 0.0
  }

  /** Cumulative buckets over such bounds. */
  ghost predicate Cumulative(w: seq<Bucket>) {
    && Bounded(w)
    && (forall k :: 0 <= k < |w| ==> w[k].count >= 0.0)
    && (forall i, j :: 0 <= i < j < |w| ==> w[i].count <= w[j].count)
  }

  /** The bound and the count just under bucket k. */
  function Lower(w: seq<Bucket>, k: nat): real
    requires k <= |w|
  {
    if k == 0 then 0.0 else if w[k - 1].le.Finite? then w[k - 1].le.value else 0.0
  }

  function LowerCount(w: seq<Bucket>, k: nat): real
    requires k <= |w|
  {
    if k == 0 then 0.0 else w[k - 1].count
  }

  /** The first bucket whose count reaches a rank, |w| if none does. */
  function Reaching(w: seq<Bucket>, rank: real): (k: nat)
    ensures k <= |w|
    ensures forall i :: 0 <= i < k ==> w[i].count < rank
    ensures k < |w| ==> w[k].count >= rank
  {
    if w == [] then 0
    else
      var k := Reaching(w[..|w| - 1], rank);
      if k < |w| - 1 then k
      else if w[|w| - 1].count >= rank then |w| - 1 else |w|
  }

  /** The point over c on the line from (a, lc) to (b, hc). */
  function OnSlope(a: real, b: real, lc: real, hc: real, c: real): real
    requires lc != hc
  {
    a + (b - a) * (c - lc) / (hc - lc)
  }

  /** Where a rank falls inside bucket k, by the slope from its lower corner to its upper one. */
  function Inside(w: seq<Bucket>, k: nat, rank: real): real
    requires k < |w|
  {
    var lo, lc := Lower(w, k), LowerCount(w, k);
    if w[k].le.Infinity? then lo
    else if w[k].count == lc then w[k].le.value
    else OnSlope(lo, w[k].le.value, lc, w[k].count, rank)
  }

  /** The rank of a share q of the requests. */
  function Rank(w: seq<Bucket>, q: real): real
    requires w != []
  {
    q * w[|w| - 1].count
  }

  function At(w: seq<Bucket>, rank: real): real
    requires Reaching(w, rank) < |w|
  {
    Inside(w, Reaching(w, rank), rank)
  }

  lemma RankReached(w: seq<Bucket>, q: real)
    requires w != [] && q <= 1.0 && w[|w| - 1].count >= 0.0
    ensures Rank(w, q) <= w[|w| - 1].count && Reaching(w, Rank(w, q)) < |w|
  {
    Times(1.0 - q, w[|w| - 1].count);
    assert (1.0 - q) * w[|w| - 1].count == w[|w| - 1].count - Rank(w, q);
  }

  lemma FirstReaching(w: seq<Bucket>, rank: real, k: nat)
    requires k < |w| && w[k].count >= rank && forall i :: 0 <= i < k ==> w[i].count < rank
    ensures Reaching(w, rank) == k && At(w, rank) == Inside(w, k, rank)
  {
    hide OnSlope;
  }

  /** What is read off the first bucket to reach a rank: its bound where the count does not rise in it, the bound under
      it where it has none; else the line from corner to corner, which starts at 0 under the first bucket. */
  lemma AtReads(w: seq<Bucket>, rank: real)
    requires Reaching(w, rank) < |w|
    ensures var k := Reaching(w, rank);
            var b, lo, lc := w[k], if k == 0 || w[k - 1].le.Infinity? then 0.0 else w[k - 1].le.value,
                if k == 0 then 0.0 else w[k - 1].count;
            && (b.le.Infinity? ==> At(w, rank) == lo)
            && (b.le.Finite? && b.count == lc ==> At(w, rank) == b.le.value)
            && (b.le.Finite? && b.count != lc ==>
                  (At(w, rank) - lo) * (b.count - lc) == (b.le.value - lo) * (rank - lc))
  {
    hide OnSlope, Reaching;
    var k := Reaching(w, rank);
    if w[k].le.Finite? && w[k].count != LowerCount(w, k) {
      Sloped(Lower(w, k), w[k].le.value, LowerCount(w, k), w[k].count, rank);
    }
  }

  /** None when nothing was counted; past the last bucket (a share above 1) its bound. */
  method HistQuantile(q: real, cur: seq<Bucket>, prev: map<Bound, real>) returns (r: Option<Bound>)
    requires Sorted(cur)
    ensures r.Some? <==> cur != [] && Window(cur, prev)[|cur| - 1].count > 0.0
    ensures r.Some? ==>
              var w := Window(cur, prev);
              r.value == if Reaching(w, Rank(w, q)) < |w| then Finite(At(w, Rank(w, q))) else w[|w| - 1].le
  {
    if cur == [] {
      return None;
    }
    var w := Window(cur, prev);
    if w[|w| - 1].count <= 0.0 {
      return None;
    }
    var rank := Rank(w, q);
    hide Rank;
    assert Sorted(w);
    hide OnSlope, Window, At, Reaching;
    var loLe, loC := 0.0, 0.0;
    for i := 0 to |w|
      invariant loLe == Lower(w, i) && loC == LowerCount(w, i)
      invariant forall k :: 0 <= k < i ==> w[k].count < rank
    {
      var le, c := w[i].le, w[i].count;
      if c >= rank {
        FirstReaching(w, rank, i);
        return Some(Finite(if le.Infinity? then loLe else if c == loC then le.value
                           else OnSlope(loLe, le.value, loC, c, rank)));
      }
      loLe, loC := if le.Finite? then le.value else 0.0, c;
    }
    NoneReaching(w, rank);
    return Some(w[|w| - 1].le);
  }

  lemma NoneReaching(w: seq<Bucket>, rank: real)
    requires forall k :: 0 <= k < |w| ==> w[k].count < rank
    ensures Reaching(w, rank) == |w|
  {
  }

  lemma Sloped(a: real, b: real, lc: real, hc: real, c: real)
    requires lc != hc
    ensures (OnSlope(a, b, lc, hc, c) - a) * (hc - lc) == (b - a) * (c - lc)
  {
  }

  lemma Times(x: real, y: real)
    ensures x >= 0.0 && y >= 0.0 ==> x * y >= 0.0
    ensures x > 0.0 && y > 0.0 ==> x * y > 0.0
  {
  }

  lemma SlopeBounds(a: real, b: real, lc: real, hc: real, c: real)
    requires a <= b && lc <= c <= hc && lc < hc
    ensures a <= OnSlope(a, b, lc, hc, c) <= b
  {
    hide OnSlope;
    Sloped(a, b, lc, hc, c);
    var y := OnSlope(a, b, lc, hc, c);
    Times(b - a, c - lc);
    Times(b - a, hc - c);
    assert (y - a) * (hc - lc) == (b - a) * (c - lc);
    assert (b - y) * (hc - lc) == (b - a) * (hc - c);
    Sign(y - a, hc - lc);
    Sign(b - y, hc - lc);
  }

  lemma SlopeAbove(a: real, b: real, lc: real, hc: real, c: real)
    requires a < b && lc < c && lc < hc
    ensures a < OnSlope(a, b, lc, hc, c)
  {
    hide OnSlope;
    var rise := Rise(b - a, c - lc);
    var y := OnSlope(a, b, lc, hc, c) - a;
    assert y * (hc - lc) == rise by { Sloped(a, b, lc, hc, c); }
    Positive(y, hc - lc, rise);
  }

  lemma Rise(x: real, y: real) returns (product: real)
    requires x > 0.0 && y > 0.0
    ensures product == x * y && product > 0.0
  {
    product := x * y;
  }

  lemma Positive(x: real, p: real, product: real)
    requires p > 0.0 && x * p == product && product > 0.0
    ensures x > 0.0
  {
    Times(-x, p);
  }

  lemma Sign(x: real, p: real)
    requires p > 0.0
    ensures x * p >= 0.0 <==> x >= 0.0
    ensures x * p > 0.0 <==> x > 0.0
  {
    Times(x, p);
    Times(-x, p);
    assert (-x) * p == -(x * p);
  }

  /** A line that does not fall. */
  lemma SlopeMonotone(a: real, b: real, lc: real, hc: real, c: real, d: real)
    requires a <= b && lc < hc && c <= d
    ensures OnSlope(a, b, lc, hc, c) <= OnSlope(a, b, lc, hc, d)
  {
    hide OnSlope;
    Sloped(a, b, lc, hc, c);
    Sloped(a, b, lc, hc, d);
    var y, z := OnSlope(a, b, lc, hc, c), OnSlope(a, b, lc, hc, d);
    Times(b - a, d - c);
    assert (z - y) * (hc - lc) == (b - a) * (d - c);
    Sign(z - y, hc - lc);
  }

  /** Reading a line both ways: the point over c is at most x exactly when c is at most the count over x. */
  lemma SlopeInverts(a: real, b: real, lc: real, hc: real, c: real, x: real)
    requires a < b && lc < hc
    ensures OnSlope(a, b, lc, hc, c) <= x <==> c <= OnSlope(lc, hc, a, b, x)
  {
    hide OnSlope;
    Sloped(a, b, lc, hc, c);
    Sloped(lc, hc, a, b, x);
    var y, d := OnSlope(a, b, lc, hc, c), OnSlope(lc, hc, a, b, x);
    assert (x - y) * (hc - lc) == (d - c) * (b - a);
    Sign(x - y, hc - lc);
    Sign(d - c, b - a);
  }

  lemma LowerIsLess(w: seq<Bucket>, k: nat)
    requires Bounded(w) && k < |w|
    ensures 0.0 <= Lower(w, k)
    ensures w[k].le.Finite? ==> Lower(w, k) <= w[k].le.value
    ensures w[k].le.Finite? && k > 0 ==> Lower(w, k) < w[k].le.value
    ensures Cumulative(w) ==> 0.0 <= LowerCount(w, k) <= w[k].count
  {
    if k > 0 {
      assert Less(w[k - 1].le, w[k].le);
    }
  }

  /** The quantile lies in the bucket where the count first reaches the rank, even where the counts fall. */
  lemma InBucket(w: seq<Bucket>, rank: real)
    requires Bounded(w) && w != [] && 0.0 <= rank <= w[|w| - 1].count
    ensures var k := Reaching(w, rank);
            && k < |w|
            && (if w[k].le.Finite? then Lower(w, k) <= At(w, rank) <= w[k].le.value else At(w, rank) == Lower(w, k))
  {
    var k := Reaching(w, rank);
    LowerIsLess(w, k);
    if w[k].le.Finite? && w[k].count != LowerCount(w, k) {
      SlopeBounds(Lower(w, k), w[k].le.value, LowerCount(w, k), w[k].count, rank);
    }
  }

  lemma LowersRise(w: seq<Bucket>, i: nat, j: nat)
    requires Bounded(w) && i < j < |w|
    ensures w[i].le.Finite? && Lower(w, i) <= w[i].le.value <= Lower(w, j)
  {
    LowerIsLess(w, i);
    assert Less(w[i].le, w[j].le) && Less(w[j - 1].le, w[j].le);
    if i < j - 1 {
      assert Less(w[i].le, w[j - 1].le);
    }
  }

  /** The largest finite bound, 0 if there is none. */
  function Largest(w: seq<Bucket>): real {
    if w == [] then 0.0
    else if w[|w| - 1].le.Finite? then w[|w| - 1].le.value
    else Lower(w, |w| - 1)
  }

  /** It never exceeds the largest finite bound. */
  lemma AtMostLargest(w: seq<Bucket>, rank: real)
    requires Bounded(w) && w != [] && 0.0 <= rank <= w[|w| - 1].count
    ensures 0.0 <= At(w, rank) <= Largest(w)
  {
    InBucket(w, rank);
    var k := Reaching(w, rank);
    LowerIsLess(w, k);
    if k < |w| - 1 {
      LowersRise(w, k, |w| - 1);
      LowerIsLess(w, |w| - 1);
    }
  }

  /** It does not fall as the rank rises. */
  lemma AtMonotone(w: seq<Bucket>, rank: real, more: real)
    requires Bounded(w) && w != [] && 0.0 <= rank <= more <= w[|w| - 1].count
    ensures At(w, rank) <= At(w, more)
  {
    hide OnSlope;
    InBucket(w, rank);
    InBucket(w, more);
    var i, j := Reaching(w, rank), Reaching(w, more);
    LowerIsLess(w, j);
    if i < j {
      LowersRise(w, i, j);
    } else if w[i].le.Finite? && w[i].count != LowerCount(w, i) {
      SlopeMonotone(Lower(w, i), w[i].le.value, LowerCount(w, i), w[i].count, rank, more);
    }
  }

  /** The first bucket whose bound covers x, |w| if none does. */
  function Covering(w: seq<Bucket>, x: real): (k: nat)
    ensures k <= |w|
    ensures forall i :: 0 <= i < k ==> w[i].le.Finite? && w[i].le.value < x
    ensures k < |w| ==> w[k].le.Infinity? || x <= w[k].le.value
  {
    if w == [] then 0
    else
      var k := Covering(w[..|w| - 1], x);
      if k < |w| - 1 then k
      else if w[|w| - 1].le.Infinity? || x <= w[|w| - 1].le.value then |w| - 1 else |w|
  }

  /** The requests the histogram puts at or under x, each bucket's spread evenly over its width. */
  function Below(w: seq<Bucket>, x: real): real {
    var k := Covering(w, x);
    if k == |w| || w[k].le.Infinity? then LowerCount(w, k)
    else if w[k].le.value == Lower(w, k) then w[k].count
    else OnSlope(LowerCount(w, k), w[k].count, Lower(w, k), w[k].le.value, x)
  }

  /** The quantile is the least x with the rank at or under it, for every rank some finite bucket reaches. */
  lemma QuantileIsLeast(w: seq<Bucket>, rank: real, x: real)
    requires Cumulative(w) && w != [] && 0.0 < rank <= w[|w| - 1].count && x >= 0.0
    requires w[Reaching(w, rank)].le.Finite?
    ensures At(w, rank) <= x <==> rank <= Below(w, x)
  {
    var k, j := Reaching(w, rank), Covering(w, x);
    InBucket(w, rank);
    LowerIsLess(w, k);
    if j < k {
      CoveredEarly(w, rank, x);
    } else if j > k {
      CoveredLate(w, rank, x);
    } else if w[k].le.value != Lower(w, k) {
      SlopeInverts(Lower(w, k), w[k].le.value, LowerCount(w, k), w[k].count, rank, x);
    }
  }

  lemma CoveredEarly(w: seq<Bucket>, rank: real, x: real)
    requires Cumulative(w) && w != [] && 0.0 < rank <= w[|w| - 1].count && x >= 0.0
    requires w[Reaching(w, rank)].le.Finite? && Covering(w, x) < Reaching(w, rank)
    ensures x < At(w, rank) && Below(w, x) < rank
  {
    var k, j := Reaching(w, rank), Covering(w, x);
    LowerIsLess(w, k);
    LowersRise(w, j, k);
    SlopeAbove(Lower(w, k), w[k].le.value, LowerCount(w, k), w[k].count, rank);
    LowerIsLess(w, j);
    if w[j].le.value != Lower(w, j) {
      SlopeBounds(LowerCount(w, j), w[j].count, Lower(w, j), w[j].le.value, x);
    }
  }

  lemma CoveredLate(w: seq<Bucket>, rank: real, x: real)
    requires Cumulative(w) && w != [] && 0.0 < rank <= w[|w| - 1].count && x >= 0.0
    requires w[Reaching(w, rank)].le.Finite? && Reaching(w, rank) < Covering(w, x)
    ensures At(w, rank) <= x && rank <= Below(w, x)
  {
    InBucket(w, rank);
    BelowRises(w, x);
    hide OnSlope, At, Below;
    assert w[Reaching(w, rank)].count <= LowerCount(w, Covering(w, x));
  }

  /** At least what is counted below the bucket that x falls in. */
  lemma BelowRises(w: seq<Bucket>, x: real)
    requires Cumulative(w) && w != [] && x >= 0.0
    ensures LowerCount(w, Covering(w, x)) <= Below(w, x)
  {
    hide OnSlope;
    var j := Covering(w, x);
    if j < |w| && w[j].le.Finite? && w[j].le.value != Lower(w, j) {
      LowerIsLess(w, j);
      SlopeBounds(LowerCount(w, j), w[j].count, Lower(w, j), w[j].le.value, x);
    }
  }

  /** Every bucket counted at least as many requests of its own since. */
  ghost predicate Grew(prev: seq<Bucket>, cur: seq<Bucket>) {
    && |prev| == |cur| && (forall k :: 0 <= k < |cur| ==> prev[k].le == cur[k].le)
    && forall k :: 0 <= k < |cur| ==> prev[k].count - LowerCount(prev, k) <= cur[k].count - LowerCount(cur, k)
  }

  function Counts(b: seq<Bucket>): (m: map<Bound, real>) {
    if b == [] then map[] else Counts(b[..|b| - 1])[b[|b| - 1].le := b[|b| - 1].count]
  }

  lemma {:induction false} CountsAt(b: seq<Bucket>, k: nat)
    requires Sorted(b) && k < |b|
    ensures b[k].le in Counts(b) && Counts(b)[b[k].le] == b[k].count
  {
    if k < |b| - 1 {
      assert Less(b[k].le, b[|b| - 1].le);
      CountsAt(b[..|b| - 1], k);
    }
  }

  lemma {:induction false} CountsOnly(b: seq<Bucket>, le: Bound)
    requires forall k :: 0 <= k < |b| ==> b[k].le != le
    ensures le !in Counts(b)
  {
    if b != [] {
      CountsOnly(b[..|b| - 1], le);
    }
  }

  /** A window's counts are what each bucket counted since: all of it where there was no such bucket before. */
  lemma WindowCounts(prev: seq<Bucket>, cur: seq<Bucket>, k: nat)
    requires Sorted(prev) && k < |cur|
    ensures var w := Window(cur, Counts(prev))[k];
            && w.le == cur[k].le
            && (forall j :: 0 <= j < |prev| && prev[j].le == cur[k].le ==> w.count == cur[k].count - prev[j].count)
            && ((forall j :: 0 <= j < |prev| ==> prev[j].le != cur[k].le) ==> w.count == cur[k].count)
  {
    forall j | 0 <= j < |prev| && prev[j].le == cur[k].le
      ensures Window(cur, Counts(prev))[k].count == cur[k].count - prev[j].count
    {
      CountsAt(prev, j);
    }
    if forall j :: 0 <= j < |prev| ==> prev[j].le != cur[k].le {
      CountsOnly(prev, cur[k].le);
    }
  }

  /** The largest finite bound is one of them, and none is larger. */
  lemma LargestIs(w: seq<Bucket>)
    requires Bounded(w)
    ensures forall k :: 0 <= k < |w| && w[k].le.Finite? ==> w[k].le.value <= Largest(w)
    ensures (exists k :: 0 <= k < |w| && w[k].le == Finite(Largest(w)))
            || (Largest(w) == 0.0 && forall k :: 0 <= k < |w| ==> w[k].le.Infinity?)
  {
    if |w| >= 2 {
      assert Less(w[|w| - 2].le, w[|w| - 1].le);
      forall k | 0 <= k < |w| - 2
        ensures w[k].le.Finite? && w[k].le.value <= w[|w| - 2].le.value
      {
        assert Less(w[k].le, w[|w| - 2].le);
      }
    }
    if w != [] {
      var at := if w[|w| - 1].le.Finite? then |w| - 1 else if |w| == 1 then 0 else |w| - 2;
      assert |w| > 1 || w[|w| - 1].le.Finite? ==> w[at].le == Finite(Largest(w));
    }
  }

  /** Between two scrapes of one engine that kept counting, the window is cumulative. */
  lemma WindowCumulative(prev: seq<Bucket>, cur: seq<Bucket>)
    requires Cumulative(cur) && Cumulative(prev) && Grew(prev, cur)
    ensures Cumulative(Window(cur, Counts(prev)))
  {
    hide Counts, Cumulative, Grew;
    var w := Window(cur, Counts(prev));
    Unfolded(prev, cur);
    forall k | 0 <= k < |cur|
      ensures w[k] == Bucket(cur[k].le, cur[k].count - prev[k].count)
    {
      CountsAt(prev, k);
    }
    Difference(prev, cur, w);
  }

  lemma Unfolded(prev: seq<Bucket>, cur: seq<Bucket>)
    requires Cumulative(cur) && Cumulative(prev) && Grew(prev, cur)
    ensures Sorted(prev) && |prev| == |cur| && forall k :: 0 <= k < |cur| ==> prev[k].le == cur[k].le
  {
  }

  lemma Difference(prev: seq<Bucket>, cur: seq<Bucket>, w: seq<Bucket>)
    requires Cumulative(cur) && Grew(prev, cur) && |w| == |cur|
    requires forall k :: 0 <= k < |cur| ==> w[k] == Bucket(cur[k].le, cur[k].count - prev[k].count)
    ensures Cumulative(w)
  {
    forall k | 0 <= k < |w|
      ensures LowerCount(w, k) <= w[k].count
    {
    }
    forall i, k | 0 <= i <= k < |w|
      ensures 0.0 <= w[i].count <= w[k].count
    {
      RisesTo(w, i, k);
    }
  }

  lemma {:induction false} RisesTo(w: seq<Bucket>, i: nat, k: nat)
    requires forall j :: 0 <= j < |w| ==> LowerCount(w, j) <= w[j].count
    requires i <= k < |w|
    ensures 0.0 <= w[i].count <= w[k].count
    decreases i + k
  {
    assert LowerCount(w, k) <= w[k].count;
    if i < k {
      RisesTo(w, i, k - 1);
    } else if i > 0 {
      RisesTo(w, i - 1, i - 1);
    }
  }

  datatype Sample = Sample(t: real, ttft: Option<seq<Bucket>>)

  const KEPT := 48

  function LastOf(xs: seq<Sample>): seq<Sample> {
    if |xs| <= KEPT then xs else xs[|xs| - KEPT..]
  }

  ghost predicate Timely(h: seq<Sample>) {
    forall i, j :: 0 <= i < j < |h| ==> h[i].t <= h[j].t
  }

  /** The first sample no older than this before a time; how many there are when none is. */
  function FirstWithin(h: seq<Sample>, seconds: real, now: real): (i: nat)
    ensures i <= |h|
    ensures forall k :: 0 <= k < i ==> now - h[k].t > seconds
    ensures i < |h| ==> now - h[i].t <= seconds
  {
    if h == [] || now - h[0].t <= seconds then 0 else 1 + FirstWithin(h[1..], seconds, now)
  }

  /** The window since then: that sample and the last, when the last is later. */
  function SinceOf(h: seq<Sample>, seconds: real): Option<(Sample, Sample)> {
    if h == [] then None
    else
      var cur := h[|h| - 1];
      var i := FirstWithin(h, seconds + 0.5, cur.t);
      if i < |h| && h[i].t < cur.t then Some((h[i], cur)) else None
  }

  /** It is the oldest sample at most `seconds` and a half before the last: None exactly when no sample that old
      precedes the last in time. */
  lemma SinceMeans(h: seq<Sample>, seconds: real)
    requires Timely(h) && seconds >= 0.0
    ensures var r := SinceOf(h, seconds);
            && (r.Some? <==> exists k :: 0 <= k < |h| && h[k].t < h[|h| - 1].t <= h[k].t + seconds + 0.5)
            && (r.Some? ==>
                  && r.value.1 == h[|h| - 1] && r.value.0 in h
                  && r.value.0.t < r.value.1.t <= r.value.0.t + seconds + 0.5
                  && forall k :: 0 <= k < |h| && h[k].t < r.value.0.t ==> h[k].t + seconds + 0.5 < r.value.1.t)
  {
    if h != [] {
      var now := h[|h| - 1].t;
      var i := FirstWithin(h, seconds + 0.5, now);
      hide FirstWithin;
      forall k | 0 <= k < |h| && h[k].t < now <= h[k].t + seconds + 0.5
        ensures i < |h| && h[i].t < now
      {
        assert i <= k;
      }
      if i < |h| && h[i].t < now {
        assert h[i].t < h[|h| - 1].t <= h[i].t + seconds + 0.5;
      }
    }
  }

  /** The window's time to first token counts, when both of its samples have one. */
  function TtftWindow(h: seq<Sample>, seconds: real): Option<seq<Bucket>> {
    var since := SinceOf(h, seconds);
    if since.Some? && since.value.0.ttft.Some? && since.value.1.ttft.Some?
    then Some(Window(since.value.1.ttft.value, Counts(since.value.0.ttft.value))) else None
  }

  /** The share q of the requests of a window, if it counted any. */
  ghost predicate IsShare(w: seq<Bucket>, q: real, r: Option<real>) {
    && (r.Some? <==> w != [] && w[|w| - 1].count > 0.0)
    && (r.Some? ==> Reaching(w, q * w[|w| - 1].count) < |w| && r.value == At(w, q * w[|w| - 1].count))
  }

  class Engine {
    var hist: seq<Sample>

    constructor ()
      ensures hist == []
    {
      hist := [];
    }

    /** hist.append on a deque that keeps 48. */
    method Append(s: Sample)
      requires |hist| <= KEPT
      modifies this
      ensures hist == LastOf(old(hist) + [s])
    {
      hist := hist + [s];
      if |hist| > KEPT {
        hist := hist[1..];
      }
    }

    /** The oldest sample at most `seconds` and a half old, and the last. */
    method Since(seconds: real) returns (r: Option<(Sample, Sample)>)
      requires seconds >= 0.0
      ensures r == SinceOf(hist, seconds)
    {
      if |hist| < 2 {
        return None;
      }
      var cur := hist[|hist| - 1];
      var i := 0;
      while i < |hist| && cur.t - hist[i].t > seconds + 0.5
        invariant i <= |hist|
        invariant forall k :: 0 <= k < i ==> cur.t - hist[k].t > seconds + 0.5
      {
        i := i + 1;
      }
      WithinFirst(hist, seconds + 0.5, cur.t, i);
      if i == |hist| || hist[i].t >= cur.t {
        return None;
      }
      return Some((hist[i], cur));
    }

    /** The part of window() that reads the time to first token: half of the requests of the last minute had theirs
        within p50, and 95 of 100 within p95, on any history, engine restarts within the window included. */
    method TtftPercentiles() returns (p50: Option<real>, p95: Option<real>)
      requires Timely(hist) && Scraped(hist)
      ensures TtftWindow(hist, 60.0) == None ==> p50 == None && p95 == None
      ensures TtftWindow(hist, 60.0).Some? ==>
                IsShare(TtftWindow(hist, 60.0).value, 0.5, p50) && IsShare(TtftWindow(hist, 60.0).value, 0.95, p95)
      ensures p50.Some? <==> p95.Some?
      ensures p50.Some? ==>
                && hist != [] && hist[|hist| - 1].ttft.Some?
                && 0.0 <= p50.value <= p95.value <= Largest(hist[|hist| - 1].ttft.value)
    {
      hide Largest, Timely, Bounded, Window, Counts, IsShare, FirstWithin;
      p50, p95 := None, None;
      var since := Since(60.0);
      if since.Some? {
        var (a, b) := since.value;
        if a.ttft.Some? && b.ttft.Some? {
          p50, p95 := Percentiles(Counts(a.ttft.value), b.ttft.value);
        }
      }
    }
  }

  lemma WithinFirst(h: seq<Sample>, seconds: real, now: real, i: nat)
    requires i <= |h| && (forall k :: 0 <= k < i ==> now - h[k].t > seconds) && (i < |h| ==> now - h[i].t <= seconds)
    ensures FirstWithin(h, seconds, now) == i
  {
    var j := FirstWithin(h, seconds, now);
  }

  /** Every histogram has its buckets in order, over bounds that are not negative. */
  ghost predicate Scraped(h: seq<Sample>) {
    forall k :: 0 <= k < |h| && h[k].ttft.Some? ==> Bounded(h[k].ttft.value)
  }

  lemma SameBounds(cur: seq<Bucket>, prev: map<Bound, real>)
    requires Bounded(cur)
    ensures Bounded(Window(cur, prev)) && Largest(Window(cur, prev)) == Largest(cur)
  {
  }

  method Percentiles(prev: map<Bound, real>, cur: seq<Bucket>) returns (p50: Option<real>, p95: Option<real>)
    requires Bounded(cur)
    ensures p50.Some? <==> p95.Some?
    ensures IsShare(Window(cur, prev), 0.5, p50) && IsShare(Window(cur, prev), 0.95, p95)
    ensures p50.Some? ==> 0.0 <= p50.value <= p95.value <= Largest(cur)
  {
    assert Sorted(cur);
    SameBounds(cur, prev);
    hide *;
    var half := HistQuantile(0.5, cur, prev);
    var most := HistQuantile(0.95, cur, prev);
    p50, p95 := None, None;
    if half.Some? {
      Rising(Window(cur, prev));
      p50, p95 := Some(half.value.value), Some(most.value.value);
    }
    WindowSize(cur, prev);
    Shares(Window(cur, prev), 0.5, p50);
    Shares(Window(cur, prev), 0.95, p95);
  }

  lemma WindowSize(cur: seq<Bucket>, prev: map<Bound, real>)
    ensures |Window(cur, prev)| == |cur|
  {
  }

  lemma Shares(w: seq<Bucket>, q: real, r: Option<real>)
    requires r.Some? <==> w != [] && w[|w| - 1].count > 0.0
    requires r.Some? ==> Reaching(w, Rank(w, q)) < |w| && r.value == At(w, Rank(w, q))
    ensures IsShare(w, q, r)
  {
    hide At, Reaching;
  }

  lemma Rising(w: seq<Bucket>)
    requires Bounded(w) && w != [] && w[|w| - 1].count > 0.0
    ensures Reaching(w, Rank(w, 0.5)) < |w| && Reaching(w, Rank(w, 0.95)) < |w|
    ensures 0.0 <= At(w, Rank(w, 0.5)) <= At(w, Rank(w, 0.95)) <= Largest(w)
  {
    RankReached(w, 0.5);
    RankReached(w, 0.95);
    hide Bounded, At, Reaching, Largest;
    AtMonotone(w, Rank(w, 0.5), Rank(w, 0.95));
    AtMostLargest(w, Rank(w, 0.5));
    AtMostLargest(w, Rank(w, 0.95));
  }

  /** After any run of samples the history is the last 48 of them. */
  lemma {:induction false} KeepsTheLast(xs: seq<Sample>, s: Sample)
    ensures LastOf(LastOf(xs) + [s]) == LastOf(xs + [s])
    ensures |xs| >= 48 ==> LastOf(xs) == xs[|xs| - 48..]
    ensures |xs| < 48 ==> LastOf(xs) == xs
  {
    if |xs| > KEPT {
      assert (xs + [s])[|xs| + 1 - KEPT..] == (xs[|xs| - KEPT..] + [s])[1..];
    } else {
      assert LastOf(xs) == xs;
    }
  }
}
