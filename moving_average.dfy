/**
 * The trailing moving-average window of src/lib/utilities/MovingAverage.ts.
 *
 * `new MovingAverage(array, newValue, limit)` picks a slice index in three
 * branches, builds `[...array.slice(index), newValue]` (its `movedArray`) and
 * averages it (its `averageValue`). The constructor never writes to `array`,
 * so the whole object is a value: here it is the function `Compute`.
 */
module MovingAverage {

  /** The two getters of a constructed `MovingAverage`. */
  datatype Averaged = Averaged(movedArray: seq<real>, averageValue: real)

  function Min(a: int, b: int): int { if a <= b then a else b }

  function Max(a: int, b: int): int { if a <= b then b else a }

  /** `_sliceIndex`: 1 by default, overwritten when the history is longer or shorter than `limit`. */
  function SliceIndex(n: nat, limit: int): (i: int)
    ensures i >= 0
    ensures i > n <==> limit <= 0
  {
    if n > limit then n - limit + 1
    else if n < limit then 0
    else 1
  }

  /** `array.slice(i)` for a start `i >= 0`: a start past the end gives the empty array. */
  function Slice(a: seq<real>, i: nat): seq<real>
  {
    if i <= |a| then a[i..] else []
  }

  /** How many samples the window holds after a new one arrives. */
  function Capacity(n: nat, limit: int): nat
  {
    Min(n + 1, Max(limit, 1))
  }

  /** The reference definition of the window: the last `Capacity` samples of the history followed by the new one. */
  function TrailingWindow(a: seq<real>, v: real, limit: int): seq<real>
  {
    (a + [v])[|a| + 1 - Capacity(|a|, limit)..]
  }

  /** `movedArray` (MovingAverage.ts line 34). */
  function MovedArray(a: seq<real>, v: real, limit: int): (r: seq<real>)
    ensures |r| == Capacity(|a|, limit)
    ensures r[|r| - 1] == v
  {
    Slice(a, SliceIndex(|a|, limit)) + [v]
  }

  /**
   * `reduce((prev, current) => prev + current)` without an initial value: a
   * left fold that starts from the first element (and throws on an empty array).
   */
  function Reduce(s: seq<real>): real
    requires |s| > 0
  {
    if |s| == 1 then s[0] else Reduce(s[..|s| - 1]) + s[|s| - 1]
  }

  /** The arithmetic mean, sum over length. */
  function Mean(s: seq<real>): real
    requires |s| > 0
  {
    Reduce(s) / |s| as real
  }

  /** The sum of the samples, the reference definition, folded from the right. */
  function Sum(s: seq<real>): real
  {
    if s == [] then 0.0 else s[0] + Sum(s[1..])
  }

  /** `reduce` without an initial value, folding from the left, adds up the samples. */
  lemma {:induction false} ReduceIsSum(s: seq<real>)
    requires |s| > 0
    ensures Reduce(s) == Sum(s)
  {
    if |s| > 1 {
      var init := s[..|s| - 1];
      ReduceIsSum(init);
      SumSnoc(init, s[|s| - 1]);
      assert init + [s[|s| - 1]] == s;
    }
  }

  /** The mean times the number of samples is their sum. */
  lemma MeanIsAverage(s: seq<real>)
    requires |s| > 0
    ensures Mean(s) * |s| as real == Sum(s)
  {
    ReduceIsSum(s);
  }

  /** Appending a sample adds it to the sum. */
  lemma {:induction false} SumSnoc(s: seq<real>, x: real)
    ensures Sum(s + [x]) == Sum(s) + x
  {
    if s != [] {
      assert (s + [x])[1..] == s[1..] + [x];
      SumSnoc(s[1..], x);
    }
  }

  /** The smallest sample of a non-empty sequence. */
  function SeqMin(s: seq<real>): real
    requires |s| > 0
  {
    if |s| == 1 then s[0]
    else var m := SeqMin(s[..|s| - 1]); if s[|s| - 1] < m then s[|s| - 1] else m
  }

  /** The largest sample of a non-empty sequence. */
  function SeqMax(s: seq<real>): real
    requires |s| > 0
  {
    if |s| == 1 then s[0]
    else var m := SeqMax(s[..|s| - 1]); if s[|s| - 1] > m then s[|s| - 1] else m
  }

  /** The constructor: both getters at once; `limit` defaults to 7 as in the source. */
  function Compute(history: seq<real>, newValue: real, limit: int := 7): (r: Averaged)
    ensures |r.movedArray| == Capacity(|history|, limit)
    ensures r.movedArray[|r.movedArray| - 1] == newValue
    ensures SeqMin(r.movedArray) <= r.averageValue <= SeqMax(r.movedArray)
  {
    var moved := MovedArray(history, newValue, limit);
    MeanBetweenExtremes(moved);
    Averaged(moved, Mean(moved))
  }

  /** The window kept is exactly the last samples of history-plus-new-sample, in their original order. */
  lemma MovedArrayIsTrailingWindow(a: seq<real>, v: real, limit: int)
    ensures MovedArray(a, v, limit) == TrailingWindow(a, v, limit)
    ensures MovedArray(a, v, limit)[..Capacity(|a|, limit) - 1] == a[|a| - (Capacity(|a|, limit) - 1)..]
  {
    var i := SliceIndex(|a|, limit);
    var k := Capacity(|a|, limit);
    if i <= |a| {
      assert |a| + 1 - k == i;
      assert a[i..] + [v] == (a + [v])[i..];
    } else {
      assert k == 1;
      assert (a + [v])[|a|..] == [v];
    }
  }

  /** While the history is shorter than the window, nothing is dropped. */
  lemma FillingKeepsEverything(a: seq<real>, v: real, limit: int)
    requires |a| < limit
    ensures Compute(a, v, limit).movedArray == a + [v]
  {
    assert a[0..] == a;
  }

  /** A full history loses exactly its oldest sample and keeps its length. */
  lemma FullDropsOldest(a: seq<real>, v: real, limit: int)
    requires |a| == limit >= 1
    ensures Compute(a, v, limit).movedArray == a[1..] + [v]
    ensures |Compute(a, v, limit).movedArray| == limit
  {
  }

  /** An over-full history keeps its last `limit - 1` samples, so the window has exactly `limit` entries. */
  lemma OverfullKeepsLast(a: seq<real>, v: real, limit: int)
    requires |a| > limit >= 1
    ensures Compute(a, v, limit).movedArray == a[|a| - (limit - 1)..] + [v]
    ensures |Compute(a, v, limit).movedArray| == limit
  {
  }

  /** An interval of zero or less means no smoothing at all: the window is the new sample alone. */
  lemma NoSmoothingWithoutInterval(a: seq<real>, v: real, limit: int)
    requires limit <= 0
    ensures Compute(a, v, limit) == Averaged([v], v)
  {
    assert Reduce([v]) == v;
  }

  /** The window never holds more than `max(limit, 1)` samples, nor more than one beyond the history. */
  lemma WindowBounded(a: seq<real>, v: real, limit: int)
    ensures 1 <= |Compute(a, v, limit).movedArray| <= Max(limit, 1)
    ensures |Compute(a, v, limit).movedArray| <= |a| + 1
  {
  }

  /** With `limit` omitted the window is seven samples wide. */
  lemma DefaultWindowIsSeven(a: seq<real>, v: real)
    ensures |Compute(a, v).movedArray| == if |a| < 7 then |a| + 1 else 7
    ensures |a| >= 7 ==> Compute(a, v).movedArray == a[|a| - 6..] + [v]
  {
    if |a| >= 7 {
      MovedArrayIsTrailingWindow(a, v, 7);
    }
  }

  /** A one-sample history and a window of two or more give the midpoint of the two samples. */
  lemma SecondSampleGivesMidpoint(h: real, v: real, limit: int)
    requires limit >= 2
    ensures Compute([h], v, limit) == Averaged([h, v], (h + v) / 2.0)
  {
    FillingKeepsEverything([h], v, limit);
    assert [h] + [v] == [h, v];
    assert [h, v][..1] == [h];
    assert Reduce([h, v]) == h + v;
    assert Mean([h, v]) == (h + v) / 2.0;
  }

  /** If every sample lies in `[lo, hi]`, the sum lies between `n * lo` and `n * hi`. */
  lemma {:induction false} SumBounds(s: seq<real>, lo: real, hi: real)
    requires forall k :: 0 <= k < |s| ==> lo <= s[k] <= hi
    ensures |s| as real * lo <= Sum(s) <= |s| as real * hi
  {
    if s != [] {
      var tail := s[1..];
      assert forall k :: 0 <= k < |tail| ==> tail[k] == s[k + 1];
      SumBounds(tail, lo, hi);
      var m := |tail| as real;
      assert |s| as real * lo == m * lo + lo && |s| as real * hi == m * hi + hi;
    }
  }

  /** If every sample lies in `[lo, hi]`, the `reduce` sum lies between `n * lo` and `n * hi`. */
  lemma ReduceBounds(s: seq<real>, lo: real, hi: real)
    requires |s| > 0
    requires forall k :: 0 <= k < |s| ==> lo <= s[k] <= hi
    ensures |s| as real * lo <= Reduce(s) <= |s| as real * hi
  {
    ReduceIsSum(s);
    SumBounds(s, lo, hi);
  }

  /** Dividing by a positive count keeps a scaled bound. */
  lemma DivideBounds(x: real, n: real, lo: real, hi: real)
    requires n > 0.0 && n * lo <= x <= n * hi
    ensures lo <= x / n <= hi
  {
    assert x / n - lo == (x - n * lo) / n;
    assert hi - x / n == (n * hi - x) / n;
  }

  /** The mean of samples that all lie in `[lo, hi]` lies in `[lo, hi]`. */
  lemma MeanBounds(s: seq<real>, lo: real, hi: real)
    requires |s| > 0
    requires forall k :: 0 <= k < |s| ==> lo <= s[k] <= hi
    ensures lo <= Mean(s) <= hi
  {
    ReduceBounds(s, lo, hi);
    DivideBounds(Reduce(s), |s| as real, lo, hi);
  }

  /** `SeqMin` and `SeqMax` are samples of the sequence and bound all of it. */
  lemma {:induction false} ExtremesBound(s: seq<real>)
    requires |s| > 0
    ensures SeqMin(s) in s && SeqMax(s) in s
    ensures forall k :: 0 <= k < |s| ==> SeqMin(s) <= s[k] <= SeqMax(s)
  {
    if |s| > 1 {
      var init := s[..|s| - 1];
      ExtremesBound(init);
      assert s == init + [s[|s| - 1]];
    }
  }

  /** The average lies between the smallest and the largest sample of the window. */
  lemma MeanBetweenExtremes(s: seq<real>)
    requires |s| > 0
    ensures SeqMin(s) <= Mean(s) <= SeqMax(s)
  {
    ExtremesBound(s);
    MeanBounds(s, SeqMin(s), SeqMax(s));
  }

  /** A full seven-sample history slides by one: [1..7] with 8 gives [2..8], average 5. */
  lemma FullWindowExample()
    ensures Compute([1.0, 2.0, 3.0, 4.0, 5.0, 6.0, 7.0], 8.0, 7)
         == Averaged([2.0, 3.0, 4.0, 5.0, 6.0, 7.0, 8.0], 5.0)
  {
    var w := [2.0, 3.0, 4.0, 5.0, 6.0, 7.0, 8.0];
    assert [1.0, 2.0, 3.0, 4.0, 5.0, 6.0, 7.0][1..] + [8.0] == w;
    assert Reduce(w) == 35.0 by {
      assert Reduce(w[..1]) == 2.0;
      assert w[..2][..1] == w[..1];
      assert Reduce(w[..2]) == 5.0;
      assert w[..3][..2] == w[..2];
      assert Reduce(w[..3]) == 9.0;
      assert w[..4][..3] == w[..3];
      assert Reduce(w[..4]) == 14.0;
      assert w[..5][..4] == w[..4];
      assert Reduce(w[..5]) == 20.0;
      assert w[..6][..5] == w[..5];
      assert Reduce(w[..6]) == 27.0;
    }
  }

  /** With a zero interval a second sample replaces the first rather than joining it. */
  lemma ZeroIntervalExample()
    ensures Compute([10.0], 20.0, 0) == Averaged([20.0], 20.0)
  {
    NoSmoothingWithoutInterval([10.0], 20.0, 0);
  }
}
