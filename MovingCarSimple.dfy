/**
 * MovingCarSimple.jsx: a car whose distance along the track is proportional to elapsed
 * time (no speed profile), with a "follow" camera that trails 150 spaced points behind the
 * car at height 2 and a "tv" camera fixed at the car plus (0, 5, -10).
 */
module MovingCarSimple {

  import opened Track
  import Store

  /** JavaScript's `a % m` on integers: the remainder of the truncating division. */
  function JsRemInt(a: int, m: int): (r: int)
    requires m > 0
    ensures a >= 0 ==> r == a % m
    ensures a < 0 ==> -m < r <= 0
  {
    if a >= 0 then a % m else -((-a) % m)
  }

  const CameraOffset := 150
  const CameraHeight := 2.0

  /**
   * `Math.max(0, (pointIndex - cameraOffset) % spacedPoints.length)`: 150 points behind the
   * car, or the first point while the car is within the first 150 (the remainder of a
   * negative number is never positive, so there is no wrap-around to the end of the track).
   */
  function CameraPointIndex(pointIndex: nat, n: nat): (r: nat)
    requires pointIndex < n
    ensures r < n
    ensures pointIndex >= CameraOffset ==> r == pointIndex - CameraOffset
    ensures pointIndex < CameraOffset ==> r == 0
  {
    var rem := JsRemInt(pointIndex - CameraOffset, n);
    if rem > 0 then rem else 0
  }

  class Car {
    const spacedPoints: seq<Vec3>
    const distances: seq<real>
    const totalDistance: real
    const duration: real

    var elapsed: real
    var distanceTravelled: real
    var position: Vec3
    /** `cameraRef.current.position`: the camera rig that the follow camera chases. */
    var rig: Vec3

    ghost predicate Valid()
      reads this`elapsed
    {
      |spacedPoints| > 0 && |distances| == |spacedPoints| && duration > 0.0
      && totalDistance == Last(distances)
      && (forall j :: 0 <= j < |distances| ==> 0.0 <= distances[j] <= totalDistance)
      && elapsed >= 0.0
    }

    constructor (points: seq<Vec3>, dist: Metric, duration: real)
      requires |points| > 0 && NonNegative(dist) && duration > 0.0
      ensures Valid()
      ensures spacedPoints == points && distances == DistanceTable(points, dist)
      ensures totalDistance == PathLength(points, dist) && this.duration == duration
      ensures elapsed == 0.0 && distanceTravelled == 0.0 && rig == Vec3(0.0, 0.0, 0.0)
    {
      var table := BuildDistances(points, dist);
      DistanceTableMonotone(points, dist);
      TotalIsPathLength(points, dist);
      spacedPoints := points;
      distances := table;
      totalDistance := Last(table);
      this.duration := duration;
      elapsed := 0.0;
      distanceTravelled := 0.0;
      position := Vec3(0.0, 0.0, 0.0);
      rig := Vec3(0.0, 0.0, 0.0);
    }

    /**
     * One `useFrame` callback. The distance is overwritten with the normalised time times
     * the total, never accumulated; the car stands at the looked-up point; the follow camera
     * moves its rig a tenth of the way toward the trailing point, pins the rig at height 2,
     * moves the camera a tenth of the way toward the rig and looks at the car at height 2;
     * the tv camera stands at the car plus (0, 5, -10); the store's lap time is the elapsed
     * time; a finished lap resets both refs.
     */
    method Step(delta: real, cameraMode: string, camera: Camera, store: Store.RaceStore)
      returns (pointIndex: nat, nextIndex: nat)
      requires Valid() && delta >= 0.0
      modifies this`elapsed, this`distanceTravelled, this`position, this`rig, camera
      modifies store`currentLapTime
      ensures Valid()
      ensures var t := old(elapsed) + delta;
              pointIndex == PointIndex(distances, t / duration * totalDistance)
              && store.currentLapTime == t
              && (t / duration >= 1.0 ==> elapsed == 0.0 && distanceTravelled == 0.0)
              && (t / duration < 1.0 ==>
                    elapsed == t && distanceTravelled == t / duration * totalDistance)
      ensures pointIndex < |spacedPoints| && nextIndex == NextIndex(pointIndex, |spacedPoints|)
      ensures position == spacedPoints[pointIndex]
      ensures cameraMode == "follow" ==>
                var trail := spacedPoints[CameraPointIndex(pointIndex, |spacedPoints|)];
                rig == Lerp(old(rig), trail, 0.1).(y := CameraHeight)
                && camera.position == Lerp(old(camera.position), rig, 0.1)
                && camera.target == Vec3(position.x, CameraHeight, position.z)
      ensures cameraMode == "tv" ==>
                rig == old(rig) && camera.position == Offset(position, 0.0, 5.0, -10.0)
                && camera.target == position
      ensures cameraMode != "follow" && cameraMode != "tv" ==>
                rig == old(rig) && camera.position == old(camera.position)
                && camera.target == old(camera.target)
    {
      elapsed := elapsed + delta;
      var normalizedTime := elapsed / duration;
      var travelled := normalizedTime * totalDistance;
      assert travelled == (old(elapsed) + delta) / duration * totalDistance;
      distanceTravelled := travelled;
      pointIndex := PointIndex(distances, travelled);
      nextIndex := NextIndex(pointIndex, |spacedPoints|);
      position := spacedPoints[pointIndex];
      if cameraMode == "follow" {
        var cameraPoint := spacedPoints[CameraPointIndex(pointIndex, |spacedPoints|)];
        rig := Lerp(rig, cameraPoint, 0.1);
        rig := rig.(y := CameraHeight);
        camera.position := Lerp(camera.position, rig, 0.1);
        camera.target := Vec3(position.x, CameraHeight, position.z);
      }
      if cameraMode == "tv" {
        camera.position := Offset(position, 0.0, 5.0, -10.0);
        camera.target := position;
      }
      store.SetCurrentLapTime(elapsed);
      if normalizedTime >= 1.0 {
        elapsed := 0.0;
        distanceTravelled := 0.0;
      }
    }
  }

  /**
   * Past the end of the lap on a track of positive length, the distance exceeds every table
   * entry, so the car is held at the last point.
   */
  lemma OverrunHoldsLastPoint(distances: seq<real>, normalizedTime: real)
    requires |distances| > 0 && Last(distances) > 0.0 && normalizedTime > 1.0
    requires forall j :: 0 <= j < |distances| ==> distances[j] <= Last(distances)
    ensures PointIndex(distances, normalizedTime * Last(distances)) == |distances| - 1
  {
    var total := Last(distances);
    var excess := normalizedTime - 1.0;
    assert excess * total > 0.0 by { PositiveProduct(excess, total); }
    assert normalizedTime * total == total + excess * total;
    PastEndIsLastIndex(distances, normalizedTime * total);
  }

  lemma PositiveProduct(a: real, b: real)
    requires a > 0.0 && b > 0.0
    ensures a * b > 0.0
  {
  }
}
