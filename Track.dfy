/**
 * The per-frame arithmetic that MovingCar.jsx, MovingCarwithsound.jsx, MovingBox.jsx and
 * MovingCarSimple.jsx each write out: the cumulative distance table over the curve's
 * spaced points, the rescaled speed profile, the clamped speed index, the distance clamp,
 * the `findIndex` lookup with its fallback to the last index, and the wrapped next index.
 * Points are `Vec3` values over reals; `Vector3.distanceTo` is a function `dist` that is
 * only assumed non-negative.
 */
module Track {

  datatype Vec3 = Vec3(x: real, y: real, z: real)

  /** `new THREE.Vector3().copy(p)` followed by `+= dx, dy, dz` on its components. */
  function Offset(p: Vec3, dx: real, dy: real, dz: real): Vec3
  {
    Vec3(p.x + dx, p.y + dy, p.z + dz)
  }

  /** Linear interpolation `a + (b - a) * t`, as in `Vector3.lerp` and Test.jsx. */
  function Mix(a: real, b: real, t: real): (r: real)
    ensures 0.0 <= t <= 1.0 && a <= b ==> a <= r <= b
    ensures 0.0 <= t <= 1.0 && b <= a ==> b <= r <= a
    ensures t == 0.0 ==> r == a
    ensures t == 1.0 ==> r == b
  {
    var r := a + (b - a) * t;
    MixBounds(a, b, t, r);
    r
  }

  lemma MixBounds(a: real, b: real, t: real, r: real)
    requires r == a + (b - a) * t
    ensures 0.0 <= t <= 1.0 && a <= b ==> a <= r <= b
    ensures 0.0 <= t <= 1.0 && b <= a ==> b <= r <= a
    ensures t == 0.0 ==> r == a
    ensures t == 1.0 ==> r == b
  {
    var p := (b - a) * t;
    ProductBounds(b - a, t, p);
    MixLinear(a, b, t, p, r);
  }

  /** The same bounds with the product `(b - a) * t` taken as a known quantity `p`. */
  lemma MixLinear(a: real, b: real, t: real, p: real, r: real)
    requires r == a + p
    requires 0.0 <= t <= 1.0 && b - a >= 0.0 ==> 0.0 <= p <= b - a
    requires 0.0 <= t <= 1.0 && b - a <= 0.0 ==> b - a <= p <= 0.0
    requires t == 0.0 ==> p == 0.0
    requires t == 1.0 ==> p == b - a
    ensures 0.0 <= t <= 1.0 && a <= b ==> a <= r <= b
    ensures 0.0 <= t <= 1.0 && b <= a ==> b <= r <= a
    ensures t == 0.0 ==> r == a
    ensures t == 1.0 ==> r == b
  {
  }

  /** A factor in [0, 1] shrinks a product toward zero without changing its sign. */
  lemma ProductBounds(d: real, t: real, p: real)
    requires p == d * t
    ensures 0.0 <= t <= 1.0 && d >= 0.0 ==> 0.0 <= p <= d
    ensures 0.0 <= t <= 1.0 && d <= 0.0 ==> d <= p <= 0.0
    ensures t == 0.0 ==> p == 0.0
    ensures t == 1.0 ==> p == d
  {
    if 0.0 <= t <= 1.0 && d >= 0.0 {
      assert d * t <= d * 1.0;
    }
    if 0.0 <= t <= 1.0 && d <= 0.0 {
      assert (-d) * t <= (-d) * 1.0;
    }
  }

  /** The product of two non-negative numbers is non-negative. */
  lemma NonNegativeProduct(a: real, b: real, p: real)
    requires p == a * b
    ensures a >= 0.0 && b >= 0.0 ==> p >= 0.0
  {
  }

  /** A non-negative number over a positive one is non-negative. */
  lemma NonNegativeQuotient(a: real, b: real)
    requires a >= 0.0 && b > 0.0
    ensures a / b >= 0.0
  {
  }

  /** A part over a larger positive whole is a fraction in [0, 1); a negative part gives a negative one. */
  lemma FractionBounds(part: real, whole: real)
    requires whole > 0.0
    ensures 0.0 <= part < whole ==> 0.0 <= part / whole < 1.0
    ensures part < 0.0 ==> part / whole < 0.0
  {
    var q := part / whole;
    assert q * whole == part;
    if q >= 1.0 {
      assert q * whole >= 1.0 * whole;
    }
    if q < 0.0 {
      assert q * whole < 0.0;
    }
    if q >= 0.0 {
      assert q * whole >= 0.0;
    }
  }

  function Lerp(a: Vec3, b: Vec3, t: real): Vec3
  {
    Vec3(Mix(a.x, b.x, t), Mix(a.y, b.y, t), Mix(a.z, b.z, t))
  }

  /** `state.camera`: where the camera stands and the point it looks at. */
  class Camera {
    var position: Vec3
    var target: Vec3

    constructor (position: Vec3, target: Vec3)
      ensures this.position == position && this.target == target
    {
      this.position := position;
      this.target := target;
    }
  }

  // ---------------------------------------------------------------------------------------
  // The cumulative distance table

  type Metric = (Vec3, Vec3) -> real

  ghost predicate NonNegative(dist: Metric)
  {
    forall a, b :: dist(a, b) >= 0.0
  }

  /**
   * `spacedPoints.map((point, index) => ...)` with its running `totalDistance`: entry 0 is 0,
   * entry i adds `point.distanceTo(spacedPoints[i - 1])` to entry i - 1.
   */
  function DistanceTable(points: seq<Vec3>, dist: Metric): (t: seq<real>)
    ensures |t| == |points|
    decreases |points|
  {
    if |points| == 0 then []
    else if |points| == 1 then [0.0]
    else
      var front := DistanceTable(points[..|points| - 1], dist);
      front + [front[|front| - 1] + dist(points[|points| - 1], points[|points| - 2])]
  }

  /** The length of the polyline, summed from its first segment on: a reference definition. */
  function PathLength(points: seq<Vec3>, dist: Metric): real
    decreases |points|
  {
    if |points| < 2 then 0.0 else dist(points[1], points[0]) + PathLength(points[1..], dist)
  }

  function Last(t: seq<real>): real
    requires |t| > 0
  {
    t[|t| - 1]
  }

  /** Entry 0 is 0 and every other entry adds one segment to the entry before it. */
  lemma {:induction false} DistanceTableSteps(points: seq<Vec3>, dist: Metric)
    ensures |points| > 0 ==> DistanceTable(points, dist)[0] == 0.0
    ensures forall i :: 0 < i < |points| ==>
              DistanceTable(points, dist)[i]
              == DistanceTable(points, dist)[i - 1] + dist(points[i], points[i - 1])
    decreases |points|
  {
    if |points| >= 2 {
      var front := points[..|points| - 1];
      DistanceTableSteps(front, dist);
      assert forall i :: 0 <= i < |front| ==> front[i] == points[i];
    }
  }

  /** With a non-negative distance the table is non-decreasing and never negative. */
  lemma {:induction false} DistanceTableMonotone(points: seq<Vec3>, dist: Metric)
    requires NonNegative(dist)
    ensures forall i, j :: 0 <= i <= j < |points| ==>
              0.0 <= DistanceTable(points, dist)[i] <= DistanceTable(points, dist)[j]
    decreases |points|
  {
    if |points| >= 2 {
      var front := points[..|points| - 1];
      DistanceTableMonotone(front, dist);
      var t, f := DistanceTable(points, dist), DistanceTable(front, dist);
      assert t[|t| - 1] >= f[|f| - 1];
      assert forall i :: 0 <= i < |f| ==> t[i] == f[i];
    }
  }

  lemma {:induction false} PathLengthAppend(points: seq<Vec3>, q: Vec3, dist: Metric)
    requires |points| > 0
    ensures PathLength(points + [q], dist)
            == PathLength(points, dist) + dist(q, points[|points| - 1])
    decreases |points|
  {
    if |points| == 1 {
      assert (points + [q])[1..] == [q];
    } else {
      assert (points + [q])[1..] == points[1..] + [q];
      PathLengthAppend(points[1..], q, dist);
    }
  }

  /** The table's last entry, `totalDistance`, is the length of the whole polyline. */
  lemma {:induction false} TotalIsPathLength(points: seq<Vec3>, dist: Metric)
    requires |points| > 0
    ensures Last(DistanceTable(points, dist)) == PathLength(points, dist)
    decreases |points|
  {
    if |points| >= 2 {
      var front := points[..|points| - 1];
      TotalIsPathLength(front, dist);
      PathLengthAppend(front, points[|points| - 1], dist);
      assert front + [points[|points| - 1]] == points;
    }
  }

  /** The table built with a running total, as the components' `map` callback does it. */
  method BuildDistances(points: seq<Vec3>, dist: Metric) returns (distances: seq<real>)
    ensures distances == DistanceTable(points, dist)
  {
    var totalDistance := 0.0;
    distances := [];
    var i := 0;
    while i < |points|
      invariant 0 <= i <= |points|
      invariant distances == DistanceTable(points[..i], dist)
      invariant i == 0 ==> totalDistance == 0.0
      invariant i > 0 ==> totalDistance == distances[i - 1]
    {
      if i == 0 {
        distances := [0.0];
      } else {
        totalDistance := totalDistance + dist(points[i], points[i - 1]);
        distances := distances + [totalDistance];
      }
      assert points[..i + 1][..i] == points[..i];
      i := i + 1;
    }
    assert points[..|points|] == points;
  }

  // ---------------------------------------------------------------------------------------
  // The rescaled speed profile

  /** `speeds.reduce((acc, speed) => acc + speed, 0)`. */
  function Sum(s: seq<real>): real
  {
    if s == [] then 0.0 else Sum(s[..|s| - 1]) + s[|s| - 1]
  }

  function Mean(s: seq<real>): real
    requires |s| > 0
  {
    Sum(s) / (|s| as real)
  }

  /** `speeds.map(speed => speed * k)`. */
  function Scaled(s: seq<real>, k: real): (r: seq<real>)
    ensures |r| == |s|
    ensures forall i :: 0 <= i < |s| ==> r[i] == s[i] * k
  {
    seq(|s|, i requires 0 <= i < |s| => s[i] * k)
  }

  /** The factor `averageSpeed / (totalSpeed / speeds.length)`: the average over the profile's mean. */
  function SpeedFactor(speeds: seq<real>, averageSpeed: real): real
    requires |speeds| > 0 && Mean(speeds) != 0.0
  {
    averageSpeed / Mean(speeds)
  }

  /**
   * `adjustedSpeedData`: every sample multiplied by the speed factor. The source divides by
   * the profile's mean unchecked; an empty or zero-mean profile is outside the model.
   */
  function AdjustedSpeeds(speeds: seq<real>, averageSpeed: real): (r: seq<real>)
    requires |speeds| > 0 && Mean(speeds) != 0.0
    ensures |r| == |speeds|
  {
    Scaled(speeds, SpeedFactor(speeds, averageSpeed))
  }

  lemma {:induction false} ScaledSum(s: seq<real>, k: real)
    ensures Sum(Scaled(s, k)) == k * Sum(s)
    decreases |s|
  {
    if s != [] {
      var front := s[..|s| - 1];
      ScaledSum(front, k);
      ScaledFront(s, k);
    }
  }

  lemma ScaledFront(s: seq<real>, k: real)
    requires |s| > 0
    ensures Scaled(s, k)[..|s| - 1] == Scaled(s[..|s| - 1], k)
  {
    var a, b := Scaled(s, k)[..|s| - 1], Scaled(s[..|s| - 1], k);
    assert forall i :: 0 <= i < |a| ==> a[i] == b[i];
  }

  /** Scaling every sample scales the mean by the same factor. */
  lemma ScaledMean(s: seq<real>, k: real)
    requires |s| > 0
    ensures Mean(Scaled(s, k)) == k * Mean(s)
  {
    ScaledSum(s, k);
    ProductOverCount(k, Sum(s), Sum(Scaled(s, k)), |s| as real);
  }

  lemma ProductOverCount(k: real, x: real, y: real, n: real)
    requires n > 0.0 && y == k * x
    ensures y / n == k * (x / n)
  {
  }

  /** The adjusted profile's mean is exactly the average speed `totalDistance / duration`. */
  lemma AdjustedMean(speeds: seq<real>, averageSpeed: real)
    requires |speeds| > 0 && Mean(speeds) != 0.0
    ensures Mean(AdjustedSpeeds(speeds, averageSpeed)) == averageSpeed
  {
    var k := SpeedFactor(speeds, averageSpeed);
    ScaledMean(speeds, k);
    FactorCancels(averageSpeed, Mean(speeds), k);
  }

  lemma FactorCancels(average: real, mean: real, k: real)
    requires mean != 0.0 && k == average / mean
    ensures k * mean == average
  {
  }

  // ---------------------------------------------------------------------------------------
  // Indices into the profile and the table

  /**
   * `Math.min(Math.floor(normalizedTime * len), len - 1)`: the sample whose slice of the lap
   * contains the normalised time, held at the last sample once the lap is over.
   */
  function SpeedIndex(normalizedTime: real, len: nat): (k: int)
    requires len > 0
    ensures k <= len - 1
    ensures normalizedTime >= 0.0 ==> 0 <= k
  {
    var x := normalizedTime * (len as real);
    NonNegativeProduct(normalizedTime, len as real, x);
    var f := x.Floor;
    if f < len - 1 then f else len - 1
  }

  /**
   * Below the clamp the index is the slice of the lap that holds the normalised time; at
   * the clamp the time is in the last slice or past the lap's end.
   */
  lemma SpeedIndexSlice(normalizedTime: real, len: nat)
    requires len > 0
    ensures var k := SpeedIndex(normalizedTime, len);
            && (k < len - 1 ==> (k as real) <= normalizedTime * (len as real) < ((k + 1) as real))
            && (k == len - 1 ==> normalizedTime * (len as real) >= ((len - 1) as real))
  {
  }

  /**
   * `distances.findIndex(distance => distance >= d)` with -1 written as `|distances|`:
   * the first entry that reaches d.
   */
  function FirstAtLeast(distances: seq<real>, d: real): (i: nat)
    ensures i <= |distances|
    ensures forall j :: 0 <= j < i ==> distances[j] < d
    ensures i < |distances| ==> distances[i] >= d
  {
    if distances == [] then 0
    else if distances[0] >= d then 0
    else 1 + FirstAtLeast(distances[1..], d)
  }

  /** `pointIndex`: the first entry that reaches d, or the last index when none does. */
  function PointIndex(distances: seq<real>, d: real): (i: nat)
    requires |distances| > 0
    ensures i < |distances|
    ensures forall j :: 0 <= j < i ==> distances[j] < d
    ensures distances[i] >= d || (i == |distances| - 1 && forall j :: 0 <= j < |distances| ==> distances[j] < d)
  {
    var i := FirstAtLeast(distances, d);
    if i == |distances| then |distances| - 1 else i
  }

  /**
   * In a table whose entries never exceed its last one, a distance beyond the last entry
   * finds nothing, so the lookup falls back to the last index.
   */
  lemma PastEndIsLastIndex(distances: seq<real>, d: real)
    requires |distances| > 0
    requires forall j :: 0 <= j < |distances| ==> distances[j] <= Last(distances)
    requires d > Last(distances)
    ensures PointIndex(distances, d) == |distances| - 1
  {
  }

  /** `(pointIndex + 1) % spacedPoints.length`: the following point, wrapping to 0 after the last. */
  function NextIndex(i: nat, n: nat): (r: nat)
    requires i < n
    ensures r < n
    ensures r == 0 <==> i == n - 1
    ensures i < n - 1 ==> r == i + 1
  {
    (i + 1) % n
  }

  /** `Math.min(distanceTraveledRef.current, totalDistance)`. */
  function ClampDistance(travelled: real, totalDistance: real): (r: real)
    ensures r <= totalDistance
    ensures r <= travelled
    ensures r == travelled || r == totalDistance
  {
    if travelled <= totalDistance then travelled else totalDistance
  }
}
