// Shared vocabulary of the plotting model: points, the 1e-9 "zero" threshold,
// running sums and the order-preserving filter that every series builder uses.

module Common {

  datatype Option<T> = None | Some(value: T)

  /** One plotted sample: key (time) and value. Doubles are modelled as reals. */
  datatype Point = Point(x: real, y: real)

  /** The threshold below which the plotting code treats a value as zero (1e-9). */
  const Epsilon: real := 0.000000001

  function Abs(r: real): (a: real)
    ensures a >= 0.0
    ensures a == r || a == -r
    ensures a == 0.0 <==> r == 0.0
  {
    if r < 0.0 then -r else r
  }

  function Min(a: int, b: int): (m: int)
    ensures m <= a && m <= b
    ensures m == a || m == b
  {
    if a <= b then a else b
  }

  /** Adjacent samples strictly increase: the test the source writes as a loop. */
  predicate StrictlyIncreasing(s: seq<real>)
  {
    forall i :: 0 <= i < |s| - 1 ==> s[i] < s[i + 1]
  }

  /** Every pair of samples is in increasing order. */
  predicate Sorted(s: seq<real>)
  {
    forall i, j :: 0 <= i < j < |s| ==> s[i] < s[j]
  }

  predicate NonDecreasing(s: seq<real>)
  {
    forall i, j :: 0 <= i <= j < |s| ==> s[i] <= s[j]
  }

  predicate NonNegative(s: seq<real>)
  {
    forall i :: 0 <= i < |s| ==> s[i] >= 0.0
  }

  /** The adjacent test and the pairwise order agree. */
  lemma {:induction false} StrictlyIncreasingIsSorted(s: seq<real>)
    ensures StrictlyIncreasing(s) <==> Sorted(s)
  {
    if StrictlyIncreasing(s) {
      forall i, j | 0 <= i < j < |s| ensures s[i] < s[j] {
        var k := i;
        while k < j
          invariant i <= k <= j
          invariant s[i] <= s[k]
          invariant k > i ==> s[i] < s[k]
        {
          assert s[k] < s[k + 1];
          k := k + 1;
        }
      }
    }
    if Sorted(s) {
      forall i | 0 <= i < |s| - 1 ensures s[i] < s[i + 1] {
        assert 0 <= i < i + 1 < |s|;
      }
    }
  }

  /** Sum of all samples, accumulated front to back. */
  function Sum(s: seq<real>): real
  {
    if s == [] then 0.0 else Sum(s[..|s| - 1]) + s[|s| - 1]
  }

  /** With non-negative samples, a longer prefix never sums to less. */
  lemma {:induction false} SumPrefixMonotone(s: seq<real>, i: nat, j: nat)
    requires i <= j <= |s|
    requires NonNegative(s)
    ensures Sum(s[..i]) <= Sum(s[..j])
    decreases j
  {
    if i < j {
      SumPrefixMonotone(s, i, j - 1);
      assert s[..j][..j - 1] == s[..j - 1];
    }
  }

  /** With positive samples, a longer prefix sums to strictly more. */
  lemma {:induction false} SumPrefixStrict(s: seq<real>, i: nat, j: nat)
    requires i < j <= |s|
    requires forall k :: 0 <= k < j ==> s[k] > 0.0
    ensures Sum(s[..i]) < Sum(s[..j])
    decreases j
  {
    assert s[..j][..j - 1] == s[..j - 1];
    if i < j - 1 {
      SumPrefixStrict(s, i, j - 1);
    }
  }

  // ---------------------------------------------------------------------------
  // Order-preserving filter-and-transform, the shape of every "append when"
  // loop of the plotting code.
  // ---------------------------------------------------------------------------

  /** Keeps, in order, the images of the elements that `f` maps to Some. */
  function FilterMap<A, B>(s: seq<A>, f: A -> Option<B>): (r: seq<B>)
    ensures |r| <= |s|
  {
    if s == [] then []
    else FilterMap(s[..|s| - 1], f) + (if f(s[|s| - 1]).Some? then [f(s[|s| - 1]).value] else [])
  }

  /** One more input element extends the filtered output by at most its own image. */
  lemma FilterMapSnoc<A, B>(s: seq<A>, a: A, f: A -> Option<B>)
    ensures FilterMap(s + [a], f) == FilterMap(s, f) + (if f(a).Some? then [f(a).value] else [])
  {
    assert (s + [a])[..|s|] == s;
  }

  /**
   * The input positions FilterMap keeps, in increasing order: the output is
   * exactly the images of these positions, and a position is among them iff
   * `f` keeps its element.
   */
  function KeptIndices<A, B>(s: seq<A>, f: A -> Option<B>): (idx: seq<nat>)
    ensures |idx| == |FilterMap(s, f)|
    ensures forall k :: 0 <= k < |idx| ==> idx[k] < |s| && f(s[idx[k]]) == Some(FilterMap(s, f)[k])
    ensures forall k, l :: 0 <= k < l < |idx| ==> idx[k] < idx[l]
    ensures forall i :: 0 <= i < |s| ==> (f(s[i]).Some? <==> i in idx)
  {
    if s == [] then []
    else
      var init := s[..|s| - 1];
      assert s == init + [s[|s| - 1]];
      KeptIndicesSnoc(init, s[|s| - 1], f, KeptIndices(init, f));
      KeptIndices(init, f) + (if f(s[|s| - 1]).Some? then [|s| - 1] else [])
  }

  /** The inductive step of KeptIndices: one more element adds its own position when it is kept. */
  lemma KeptIndicesSnoc<A, B>(init: seq<A>, a: A, f: A -> Option<B>, prev: seq<nat>)
    requires |prev| == |FilterMap(init, f)|
    requires forall k :: 0 <= k < |prev| ==> prev[k] < |init| && f(init[prev[k]]) == Some(FilterMap(init, f)[k])
    requires forall k, l :: 0 <= k < l < |prev| ==> prev[k] < prev[l]
    requires forall i :: 0 <= i < |init| ==> (f(init[i]).Some? <==> i in prev)
    ensures var s, idx := init + [a], prev + (if f(a).Some? then [|init|] else []);
      && |idx| == |FilterMap(s, f)|
      && (forall k :: 0 <= k < |idx| ==> idx[k] < |s| && f(s[idx[k]]) == Some(FilterMap(s, f)[k]))
      && (forall k, l :: 0 <= k < l < |idx| ==> idx[k] < idx[l])
      && (forall i :: 0 <= i < |s| ==> (f(s[i]).Some? <==> i in idx))
  {
    var s, idx := init + [a], prev + (if f(a).Some? then [|init|] else []);
    FilterMapSnoc(init, a, f);
    assert forall i :: 0 <= i < |init| ==> s[i] == init[i];
    assert forall i :: 0 <= i < |init| ==> (i in idx <==> i in prev);
  }

  /** When `f` keeps every element, FilterMap is a plain element-wise map. */
  lemma {:induction false} FilterMapKeepsAll<A, B>(s: seq<A>, f: A -> Option<B>)
    requires forall i :: 0 <= i < |s| ==> f(s[i]).Some?
    ensures |FilterMap(s, f)| == |s|
    ensures forall i :: 0 <= i < |s| ==> FilterMap(s, f)[i] == f(s[i]).value
  {
    if s != [] {
      var init := s[..|s| - 1];
      assert forall i :: 0 <= i < |init| ==> init[i] == s[i];
      FilterMapKeepsAll(init, f);
    }
  }

  /** First components of a point sequence. */
  function Xs(pts: seq<Point>): (xs: seq<real>)
    ensures |xs| == |pts| && forall i :: 0 <= i < |pts| ==> xs[i] == pts[i].x
  {
    seq(|pts|, i requires 0 <= i < |pts| => pts[i].x)
  }

  /** Second components of a point sequence. */
  function Ys(pts: seq<Point>): (ys: seq<real>)
    ensures |ys| == |pts| && forall i :: 0 <= i < |pts| ==> ys[i] == pts[i].y
  {
    seq(|pts|, i requires 0 <= i < |pts| => pts[i].y)
  }

  /** Appending a point appends its coordinates to both projections. */
  lemma XsYsSnoc(pts: seq<Point>, p: Point)
    ensures Xs(pts + [p]) == Xs(pts) + [p.x]
    ensures Ys(pts + [p]) == Ys(pts) + [p.y]
  {
    assert Xs(pts + [p])[|pts|] == p.x;
  }

  /** Pairs two vectors up to the shorter one's length, as a loop bounded by both sizes does. */
  function Zip(xs: seq<real>, ys: seq<real>): (pts: seq<Point>)
    ensures |pts| == Min(|xs|, |ys|)
    ensures forall i :: 0 <= i < |pts| ==> pts[i] == Point(xs[i], ys[i])
  {
    seq(Min(|xs|, |ys|), i requires 0 <= i < Min(|xs|, |ys|) => Point(xs[i], ys[i]))
  }

  /** Splitting points into coordinate vectors and zipping them back is lossless. */
  lemma ZipOfProjections(pts: seq<Point>)
    ensures Zip(Xs(pts), Ys(pts)) == pts
  {
  }
}
