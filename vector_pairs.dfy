/** Viewing-sphere sampling (Vector_Pairs.py): points spread over the unit
    sphere by the golden-angle (Fibonacci) spiral, and every ordered pair of
    a Sun direction (any sample) with an observer direction from the lower
    hemisphere (z < 0). */
module VectorPairs {
  import opened Numerics
  import opened Vectors

  /** The golden angle in radians (line 7). */
  function GoldenAngle(m: Math): real {
    Pi * (3.0 - m.sqrt(5.0))
  }

  /** Line 10: the height of sample `i`, stepping evenly from 1 down to -1. */
  function FibY(samples: int, i: int): real
    requires samples >= 2
  {
    1.0 - (i as real / (samples - 1) as real) * 2.0
  }

  /** Lines 10-18: sample `i` on the circle of latitude at height `FibY`,
      turned by `i` golden angles. */
  function FibPoint(m: Math, samples: int, i: int): (p: Vec3)
    requires samples >= 2
    ensures p.y == FibY(samples, i)
  {
    var y := FibY(samples, i);
    var radius := m.sqrt(1.0 - y * y);
    var theta := GoldenAngle(m) * i as real;
    Vec3(m.cos(theta) * radius, y, m.sin(theta) * radius)
  }

  /** `fibonacci_sphere_sampling`: `samples` points in index order (none for
      a non-positive count). A single sample divides by `samples - 1 == 0`
      at line 10. */
  method FibonacciSphereSampling(m: Math, samples: int) returns (r: Result<seq<Vec3>>)
    ensures r.Err? <==> samples == 1
    ensures r.Err? ==> r.error == ZeroDivision
    ensures r.Ok? ==> |r.value| == if samples > 0 then samples else 0
    ensures r.Ok? ==> forall i :: 0 <= i < |r.value| ==> samples >= 2 && r.value[i] == FibPoint(m, samples, i)
  {
    var points: seq<Vec3> := [];
    var i := 0;
    while i < samples
      invariant 0 <= i && (i <= samples || i == 0)
      invariant |points| == i
      invariant i > 0 ==> samples >= 2
      invariant forall k :: 0 <= k < i ==> samples >= 2 && points[k] == FibPoint(m, samples, k)
    {
      if samples - 1 == 0 {
        return Err(ZeroDivision);
      }
      points := points + [FibPoint(m, samples, i)];
      i := i + 1;
    }
    return Ok(points);
  }

  /** The first sample sits at the north pole's height, the last at the
      south pole's. */
  lemma FibYEnds(samples: int)
    requires samples >= 2
    ensures FibY(samples, 0) == 1.0
    ensures FibY(samples, samples - 1) == -1.0
  {
    var d := (samples - 1) as real;
    assert d / d == 1.0;
  }

  /** The heights strictly decrease with the index. */
  lemma FibYDecreasing(samples: int, i: int, j: int)
    requires samples >= 2 && i < j
    ensures FibY(samples, j) < FibY(samples, i)
  {
    var d := (samples - 1) as real;
    var a, b := i as real / d, j as real / d;
    assert b - a == (j - i) as real / d;
    assert (j - i) as real / d > 0.0;
  }

  /** Every height lies in [-1, 1]. */
  lemma FibYInRange(samples: int, i: int)
    requires samples >= 2 && 0 <= i < samples
    ensures -1.0 <= FibY(samples, i) <= 1.0
  {
    FibYEnds(samples);
    if 0 < i {
      FibYDecreasing(samples, 0, i);
    }
    if i < samples - 1 {
      FibYDecreasing(samples, i, samples - 1);
    }
  }

  // ---------------------------------------------------------------------
  // Pair building
  // ---------------------------------------------------------------------

  type Pair = (Vec3, Vec3)

  /** The indices below `n` whose point lies in the lower hemisphere, in
      ascending order. */
  function LowerIndices(points: seq<Vec3>, n: nat): (low: seq<nat>)
    requires n <= |points|
    ensures forall k :: 0 <= k < |low| ==> low[k] < n
  {
    if n == 0 then []
    else LowerIndices(points, n - 1) + (if points[n - 1].z < 0.0 then [n - 1] else [])
  }

  /** The pairs the inner loop emits for Sun index `i` after looking at the
      first `n` observer candidates. */
  function RowPairs(points: seq<Vec3>, i: nat, n: nat): seq<Pair>
    requires i < |points| && n <= |points|
  {
    if n == 0 then []
    else RowPairs(points, i, n - 1) + (if points[n - 1].z < 0.0 then [(points[i], points[n - 1])] else [])
  }

  /** The pairs emitted after the first `n` rounds of the outer loop. */
  function PairsUpTo(points: seq<Vec3>, n: nat): seq<Pair>
    requires n <= |points|
  {
    if n == 0 then [] else PairsUpTo(points, n - 1) + RowPairs(points, n - 1, |points|)
  }

  /** The nested loop of lines 29-33: for each Sun index `i`, for each
      observer index `o` in order, the pair `(points[i], points[o])` when
      `points[o]` has z < 0. */
  method BuildPairs(points: seq<Vec3>) returns (pairs: seq<Pair>)
    ensures pairs == PairsUpTo(points, |points|)
  {
    pairs := [];
    var i := 0;
    while i < |points|
      invariant 0 <= i <= |points|
      invariant pairs == PairsUpTo(points, i)
    {
      var o := 0;
      while o < |points|
        invariant 0 <= o <= |points|
        invariant pairs == PairsUpTo(points, i) + RowPairs(points, i, o)
      {
        if points[o].z < 0.0 {
          pairs := pairs + [(points[i], points[o])];
        }
        o := o + 1;
      }
      i := i + 1;
    }
  }

  /** `LowerIndices` lists exactly the lower-hemisphere indices below `n`,
      each once, in ascending order. */
  lemma {:induction false} LowerIndicesExact(points: seq<Vec3>, n: nat)
    requires n <= |points|
    ensures forall k :: 0 <= k < |LowerIndices(points, n)| ==>
              LowerIndices(points, n)[k] < n && points[LowerIndices(points, n)[k]].z < 0.0
    ensures forall k, l :: 0 <= k < l < |LowerIndices(points, n)| ==>
              LowerIndices(points, n)[k] < LowerIndices(points, n)[l]
    ensures forall o :: 0 <= o < n && points[o].z < 0.0 ==> o in LowerIndices(points, n)
  {
    if n > 0 {
      LowerIndicesExact(points, n - 1);
    }
  }

  /** Row `i` pairs `points[i]` with each lower-hemisphere point, in index
      order. */
  lemma {:induction false} RowPairsAt(points: seq<Vec3>, i: nat, n: nat)
    requires i < |points| && n <= |points|
    ensures |RowPairs(points, i, n)| == |LowerIndices(points, n)|
    ensures forall k :: 0 <= k < |RowPairs(points, i, n)| ==>
              RowPairs(points, i, n)[k] == (points[i], points[LowerIndices(points, n)[k]])
  {
    if n > 0 {
      RowPairsAt(points, i, n - 1);
    }
  }

  /** Where entry `k` of block `r` sits in a list of blocks of width `w`. */
  function PairIndex(r: nat, k: nat, w: nat): nat {
    r * w + k
  }

  /** One more block adds one more width. */
  lemma MulSucc(a: int, w: int)
    ensures a * w + w == (a + 1) * w
  {
  }

  /** Multiplying by a width keeps the order of block numbers. */
  lemma MulMono(a: int, b: int, w: nat)
    requires a <= b
    ensures a * w <= b * w
  {
    assert b * w - a * w == (b - a) * w;
  }

  /** Index arithmetic for the blocks of the pair list: an entry of a block
      before block `m` lies before that block's start `m * w`. */
  lemma BlockIndex(r: nat, k: nat, w: nat, m: nat)
    requires r < m && k < w
    ensures PairIndex(r, k, w) < m * w
  {
    MulSucc(r, w);
    MulMono(r + 1, m, w);
  }

  /** Entry `k` of block `r` in `prev + row`, where `prev` holds `n - 1`
      blocks of width `w` and `row` is block `n - 1`. */
  lemma BlockEntry<T>(prev: seq<T>, row: seq<T>, r: nat, k: nat, w: nat, n: nat)
    requires |prev| == (n - 1) * w && |row| == w
    requires r < n && k < w
    ensures PairIndex(r, k, w) < |prev + row|
    ensures r + 1 < n ==> PairIndex(r, k, w) < |prev| && (prev + row)[PairIndex(r, k, w)] == prev[PairIndex(r, k, w)]
    ensures r + 1 == n ==> (prev + row)[PairIndex(r, k, w)] == row[k]
  {
    var q := PairIndex(r, k, w);
    if r + 1 < n {
      BlockIndex(r, k, w, n - 1);
      assert q < |prev|;
    } else {
      assert q == |prev| + k;
    }
  }

  /** After `n` rounds there are `n` blocks of `w` pairs, where `w` is the
      number of lower-hemisphere points. */
  lemma {:induction false} PairsLength(points: seq<Vec3>, n: nat)
    requires n <= |points|
    ensures |PairsUpTo(points, n)| == n * |LowerIndices(points, |points|)|
  {
    if n > 0 {
      PairsLength(points, n - 1);
      RowPairsAt(points, n - 1, |points|);
      MulSucc(n - 1, |LowerIndices(points, |points|)|);
    }
  }

  /** Entry `k` of block `r` pairs `points[r]` with the `k`-th
      lower-hemisphere point. */
  lemma {:induction false} PairsEntry(points: seq<Vec3>, n: nat, r: nat, k: nat)
    requires r < n <= |points| && k < |LowerIndices(points, |points|)|
    ensures var low := LowerIndices(points, |points|);
            PairIndex(r, k, |low|) < |PairsUpTo(points, n)| &&
            PairsUpTo(points, n)[PairIndex(r, k, |low|)] == (points[r], points[low[k]])
  {
    var low := LowerIndices(points, |points|);
    var prev := PairsUpTo(points, n - 1);
    var row := RowPairs(points, n - 1, |points|);
    PairsLength(points, n - 1);
    RowPairsAt(points, n - 1, |points|);
    BlockEntry(prev, row, r, k, |low|, n);
    if r + 1 < n {
      PairsEntry(points, n - 1, r, k);
    }
  }

  /** The blocks laid out: entry `k` of block `r` pairs `points[r]` with the
      `k`-th lower-hemisphere point. */
  lemma PairsAt(points: seq<Vec3>, n: nat)
    requires n <= |points|
    ensures |PairsUpTo(points, n)| == n * |LowerIndices(points, |points|)|
    ensures var low := LowerIndices(points, |points|);
            forall r, k :: 0 <= r < n && 0 <= k < |low| ==>
              PairIndex(r, k, |low|) < |PairsUpTo(points, n)| &&
              PairsUpTo(points, n)[PairIndex(r, k, |low|)] == (points[r], points[low[k]])
  {
    PairsLength(points, n);
    var low := LowerIndices(points, |points|);
    forall r, k | 0 <= r < n && 0 <= k < |low|
      ensures PairIndex(r, k, |low|) < |PairsUpTo(points, n)|
      ensures PairsUpTo(points, n)[PairIndex(r, k, |low|)] == (points[r], points[low[k]])
    {
      PairsEntry(points, n, r, k);
    }
  }

  /** Every emitted pair's observer point lies in the lower hemisphere. */
  lemma {:induction false} PairsObserverBelow(points: seq<Vec3>, n: nat)
    requires n <= |points|
    ensures forall q :: 0 <= q < |PairsUpTo(points, n)| ==> PairsUpTo(points, n)[q].1.z < 0.0
  {
    if n > 0 {
      PairsObserverBelow(points, n - 1);
      RowPairsAt(points, n - 1, |points|);
      LowerIndicesExact(points, |points|);
    }
  }

  /** What `BuildPairs` produces: `|points| * w` pairs for `w` lower-hemisphere
      points, every observer below the horizon plane, ordered by Sun index
      and then by ascending observer index, and (when `w > 0`) every sample
      appearing as a Sun direction. */
  lemma BuiltPairs(points: seq<Vec3>, pairs: seq<Pair>)
    requires pairs == PairsUpTo(points, |points|)
    ensures var low := LowerIndices(points, |points|);
            && |pairs| == |points| * |low|
            && (forall q :: 0 <= q < |pairs| ==> pairs[q].1.z < 0.0)
            && (forall r, k :: 0 <= r < |points| && 0 <= k < |low| ==>
                  PairIndex(r, k, |low|) < |pairs| && pairs[PairIndex(r, k, |low|)] == (points[r], points[low[k]]))
            && (forall o :: 0 <= o < |points| && points[o].z < 0.0 ==> o in low)
            && (|low| > 0 ==> forall r :: 0 <= r < |points| ==> exists q :: 0 <= q < |pairs| && pairs[q].0 == points[r])
  {
    var low := LowerIndices(points, |points|);
    PairsAt(points, |points|);
    PairsObserverBelow(points, |points|);
    LowerIndicesExact(points, |points|);
    if |low| > 0 {
      forall r | 0 <= r < |points|
        ensures exists q :: 0 <= q < |pairs| && pairs[q].0 == points[r]
      {
        var q := PairIndex(r, 0, |low|);
        assert q < |pairs| && pairs[q].0 == points[r];
      }
    }
  }
}
