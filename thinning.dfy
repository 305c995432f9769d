/** getThinnedBoundary of the CSS analyzer: a left-to-right scan over a region
    boundary that keeps only points that lie apart from their successors. */
module Thinning {

  /** An integer image point; the source converts the kept points to Point32f,
      which is exact for coordinates of image size, so the model keeps them as is. */
  datatype Point = Point(x: int, y: int)

  function Abs(v: int): nat
  {
    if v < 0 then -v else v
  }

  /** `p` lies outside the 8-neighbourhood of `c`. */
  predicate Far(p: Point, c: Point)
  {
    Abs(p.x - c.x) > 1 || Abs(p.y - c.y) > 1
  }

  /** The value the `post` register holds when iteration `i` starts: the
      default-constructed point `post0` at first, the previous input point after. */
  function Before(b: seq<Point>, post0: Point, i: nat): Point
    requires i <= |b|
  {
    if i == 0 then post0 else b[i - 1]
  }

  /** The points iterations i, i+1, ... push when the `cur` register holds `cur`. */
  function ThinFrom(b: seq<Point>, post0: Point, i: nat, cur: Point): (r: seq<Point>)
    requires i <= |b|
    ensures |r| <= |b| - i
    ensures r != [] ==> r[0] == cur
    ensures r == [] <==> forall j :: i <= j < |b| ==> !Far(b[j], cur)
    decreases |b| - i
  {
    if i == |b| then []
    else if Far(b[i], cur) then [cur] + ThinFrom(b, post0, i + 1, Before(b, post0, i))
    else ThinFrom(b, post0, i + 1, cur)
  }

  /** The thinned boundary: empty for fewer than two points, otherwise the scan
      starting with `cur` at the last input point. */
  function Thinned(b: seq<Point>, post0: Point): seq<Point>
  {
    if |b| < 2 then [] else ThinFrom(b, post0, 0, b[|b| - 1])
  }

  /** getThinnedBoundary. The static result vector is cleared on every call, so
      the result depends on the input alone; `post0` is the value of the
      default-constructed `post` register. The `pre` register is never read and
      is left out. */
  method GetThinnedBoundary(b: seq<Point>, post0: Point) returns (thinned: seq<Point>)
    ensures thinned == Thinned(b, post0)
    ensures |thinned| <= |b|
    ensures |b| < 2 ==> thinned == []
    ensures thinned != [] ==> thinned[0] == b[|b| - 1]
    ensures |b| >= 2 ==> (thinned == [] <==> forall j :: 0 <= j < |b| ==> !Far(b[j], b[|b| - 1]))
  {
    thinned := [];
    if |b| < 2 {
      return;
    }
    var cur := b[|b| - 1];
    var post := post0;
    var i := 0;
    while i < |b|
      invariant 0 <= i <= |b|
      invariant post == Before(b, post0, i)
      invariant thinned + ThinFrom(b, post0, i, cur) == Thinned(b, post0)
    {
      if Far(b[i], cur) {
        thinned := thinned + [cur];
        cur := post;
        post := b[i];
      } else {
        post := b[i];
      }
      i := i + 1;
    }
  }

  /** The push record of a scan from iteration `i` with `cur`: `idx[k]` is the
      iteration that pushed `r[k]`. Each pushed point is outside the
      8-neighbourhood of the input point that triggered it and inside that of
      every input point scanned since the previous push; the next point pushed
      is the input point just before the trigger (or `post0` when the trigger
      was the first point); and every point after the last push is within the
      8-neighbourhood of the register left behind. */
  ghost predicate PushRecord(b: seq<Point>, post0: Point, i: nat, cur: Point, r: seq<Point>, idx: seq<nat>)
    requires i <= |b|
  {
    && |idx| == |r|
    && IndicesFrom(i, |b|, idx)
    && Increasing(idx)
    && (r != [] ==> r[0] == cur)
    && TriggersFar(b, r, idx)
    && Chained(b, post0, r, idx)
    && GapsNear(b, i, r, idx)
    && TailNear(b, post0, i, cur, idx)
  }

  ghost predicate IndicesFrom(i: nat, n: nat, idx: seq<nat>)
  {
    forall k :: 0 <= k < |idx| ==> i <= idx[k] < n
  }

  ghost predicate Increasing(idx: seq<nat>)
  {
    forall k, l :: 0 <= k < l < |idx| ==> idx[k] < idx[l]
  }

  ghost predicate TriggersFar(b: seq<Point>, r: seq<Point>, idx: seq<nat>)
    requires |idx| == |r| && IndicesFrom(0, |b|, idx)
  {
    forall k :: 0 <= k < |idx| ==> Far(b[idx[k]], r[k])
  }

  ghost predicate Chained(b: seq<Point>, post0: Point, r: seq<Point>, idx: seq<nat>)
    requires |idx| == |r| && IndicesFrom(0, |b|, idx)
  {
    forall k :: 0 <= k < |idx| - 1 ==> r[k + 1] == Before(b, post0, idx[k])
  }

  ghost predicate GapsNear(b: seq<Point>, i: nat, r: seq<Point>, idx: seq<nat>)
    requires |idx| == |r| && IndicesFrom(0, |b|, idx)
  {
    forall k, j :: 0 <= k < |idx| && (if k == 0 then i else idx[k - 1] + 1) <= j < idx[k] ==> !Far(b[j], r[k])
  }

  ghost predicate TailNear(b: seq<Point>, post0: Point, i: nat, cur: Point, idx: seq<nat>)
    requires i <= |b| && IndicesFrom(0, |b|, idx)
  {
    forall j :: (if idx == [] then i else idx[|idx| - 1] + 1) <= j < |b| ==>
      !Far(b[j], if idx == [] then cur else Before(b, post0, idx[|idx| - 1]))
  }

  /** A push at iteration `i` puts `cur` in front of the record of the rest. */
  lemma RecordAfterPush(b: seq<Point>, post0: Point, i: nat, cur: Point, r: seq<Point>, idx: seq<nat>)
    requires i < |b| && Far(b[i], cur)
    requires PushRecord(b, post0, i + 1, Before(b, post0, i), r, idx)
    ensures PushRecord(b, post0, i, cur, [cur] + r, [i] + idx)
  {
    PushIndices(i, |b|, idx);
    PushTriggers(b, i, cur, r, idx);
    PushChained(b, post0, i, cur, r, idx);
    PushGaps(b, i, cur, r, idx);
    PushTail(b, post0, i, cur, idx);
  }

  lemma PushIndices(i: nat, n: nat, idx: seq<nat>)
    requires i < n && IndicesFrom(i + 1, n, idx) && Increasing(idx)
    ensures IndicesFrom(i, n, [i] + idx) && Increasing([i] + idx)
  {
  }

  lemma PushTriggers(b: seq<Point>, i: nat, cur: Point, r: seq<Point>, idx: seq<nat>)
    requires i < |b| && Far(b[i], cur)
    requires |idx| == |r| && IndicesFrom(i + 1, |b|, idx) && TriggersFar(b, r, idx)
    ensures IndicesFrom(0, |b|, [i] + idx) && TriggersFar(b, [cur] + r, [i] + idx)
  {
  }

  lemma PushChained(b: seq<Point>, post0: Point, i: nat, cur: Point, r: seq<Point>, idx: seq<nat>)
    requires i < |b|
    requires |idx| == |r| && IndicesFrom(i + 1, |b|, idx) && Chained(b, post0, r, idx)
    requires r != [] ==> r[0] == Before(b, post0, i)
    ensures IndicesFrom(0, |b|, [i] + idx) && Chained(b, post0, [cur] + r, [i] + idx)
  {
  }

  lemma PushGaps(b: seq<Point>, i: nat, cur: Point, r: seq<Point>, idx: seq<nat>)
    requires i < |b|
    requires |idx| == |r| && IndicesFrom(i + 1, |b|, idx) && GapsNear(b, i + 1, r, idx)
    ensures IndicesFrom(0, |b|, [i] + idx) && GapsNear(b, i, [cur] + r, [i] + idx)
  {
    var r2, idx2 := [cur] + r, [i] + idx;
    forall k, j | 0 <= k < |idx2| && (if k == 0 then i else idx2[k - 1] + 1) <= j < idx2[k]
      ensures !Far(b[j], r2[k])
    {
      assert idx2[k] == idx[k - 1] && r2[k] == r[k - 1];
      if k > 1 {
        assert idx2[k - 1] == idx[k - 2];
      }
    }
  }

  lemma PushTail(b: seq<Point>, post0: Point, i: nat, cur: Point, idx: seq<nat>)
    requires i < |b|
    requires IndicesFrom(i + 1, |b|, idx) && TailNear(b, post0, i + 1, Before(b, post0, i), idx)
    ensures IndicesFrom(0, |b|, [i] + idx) && TailNear(b, post0, i, cur, [i] + idx)
  {
    var idx2 := [i] + idx;
    assert idx2[|idx2| - 1] == if idx == [] then i else idx[|idx| - 1];
  }

  /** An iteration without push leaves the record of the rest as it is. */
  lemma RecordAfterSkip(b: seq<Point>, post0: Point, i: nat, cur: Point, r: seq<Point>, idx: seq<nat>)
    requires i < |b| && !Far(b[i], cur)
    requires r != [] ==> r[0] == cur
    requires PushRecord(b, post0, i + 1, cur, r, idx)
    ensures PushRecord(b, post0, i, cur, r, idx)
  {
  }

  lemma {:induction false} PushesFrom(b: seq<Point>, post0: Point, i: nat, cur: Point) returns (idx: seq<nat>)
    requires i <= |b|
    ensures PushRecord(b, post0, i, cur, ThinFrom(b, post0, i, cur), idx)
    decreases |b| - i
  {
    if i == |b| {
      idx := [];
    } else if Far(b[i], cur) {
      var next := Before(b, post0, i);
      var rest := PushesFrom(b, post0, i + 1, next);
      RecordAfterPush(b, post0, i, cur, ThinFrom(b, post0, i + 1, next), rest);
      idx := [i] + rest;
    } else {
      idx := PushesFrom(b, post0, i + 1, cur);
      RecordAfterSkip(b, post0, i, cur, ThinFrom(b, post0, i + 1, cur), idx);
    }
  }

  /** The push record of the whole scan. */
  lemma ThinnedPushes(b: seq<Point>, post0: Point) returns (idx: seq<nat>)
    requires |b| >= 2
    ensures PushRecord(b, post0, 0, b[|b| - 1], Thinned(b, post0), idx)
  {
    idx := PushesFrom(b, post0, 0, b[|b| - 1]);
  }

  /** Every kept point is an input point, except that the second one may be
      the default-constructed `post0` when the very first input point triggered
      the first push. */
  lemma ThinnedPointsFromInput(b: seq<Point>, post0: Point)
    ensures forall k :: 0 <= k < |Thinned(b, post0)| ==>
      Thinned(b, post0)[k] in b || (k == 1 && Thinned(b, post0)[k] == post0)
  {
    if |b| >= 2 {
      var r := Thinned(b, post0);
      var idx := ThinnedPushes(b, post0);
      forall k | 0 <= k < |r| ensures r[k] in b || (k == 1 && r[k] == post0) {
        if k > 0 {
          if idx[k - 1] > 0 {
            assert r[k] == b[idx[k - 1] - 1];
          }
        }
      }
    }
  }
}
