/**
 * MovingCar.jsx: a car that drives one lap along the track's spaced points in `duration`
 * seconds, following its recorded speed profile rescaled to the lap's average speed. The
 * memoised tables (spaced points, cumulative distances, adjusted speeds) are fixed at mount;
 * the two refs `elapsedTimeRef` and `distanceTraveledRef` advance once per frame.
 */
module MovingCar {

  import opened Track
  import Store

  class Car {
    const spacedPoints: seq<Vec3>
    const distances: seq<real>
    const totalDistance: real
    const duration: real
    const adjustedSpeeds: seq<real>

    /** `elapsedTimeRef.current` */
    var elapsed: real
    /** `distanceTraveledRef.current` */
    var distanceTravelled: real
    /** `carRef.current.position` */
    var position: Vec3

    /** The tables are non-empty, the distance table rises to its total, time never runs back. */
    ghost predicate Valid()
      reads this`elapsed
    {
      |spacedPoints| > 0 && |distances| == |spacedPoints| && |adjustedSpeeds| > 0
      && duration > 0.0 && totalDistance == Last(distances)
      && (forall j :: 0 <= j < |distances| ==> 0.0 <= distances[j] <= totalDistance)
      && elapsed >= 0.0
    }

    /**
     * Mount: the distance table over the spaced points, its last entry as the total, and the
     * speed profile rescaled to `totalDistance / duration`. The source divides by the
     * duration and by the profile's mean unchecked, so both are required non-zero.
     */
    constructor (points: seq<Vec3>, dist: Metric, speedData: seq<real>, duration: real)
      requires |points| > 0 && NonNegative(dist)
      requires duration > 0.0 && |speedData| > 0 && Mean(speedData) != 0.0
      ensures Valid()
      ensures spacedPoints == points && distances == DistanceTable(points, dist)
      ensures totalDistance == PathLength(points, dist)
      ensures adjustedSpeeds == AdjustedSpeeds(speedData, totalDistance / duration)
      ensures this.duration == duration
      ensures elapsed == 0.0 && distanceTravelled == 0.0
    {
      var table := BuildDistances(points, dist);
      DistanceTableMonotone(points, dist);
      TotalIsPathLength(points, dist);
      spacedPoints := points;
      distances := table;
      totalDistance := Last(table);
      this.duration := duration;
      adjustedSpeeds := AdjustedSpeeds(speedData, Last(table) / duration);
      elapsed := 0.0;
      distanceTravelled := 0.0;
      position := Vec3(0.0, 0.0, 0.0);
    }

    /**
     * One `useFrame` callback. Elapsed time grows by `delta`; the speed sample for the
     * normalised time drives the distance; the car is placed at the first point whose table
     * entry reaches the clamped distance and faces the wrapped next point; in "follow" mode
     * the camera stands at the car plus (0, 10, -20) and looks at it; the store's lap time is
     * the elapsed time; a finished lap resets both refs.
     */
    method Step(delta: real, cameraMode: string, camera: Camera, store: Store.RaceStore)
      returns (speedIndex: nat, pointIndex: nat, nextIndex: nat)
      requires Valid() && delta >= 0.0
      modifies this`elapsed, this`distanceTravelled, this`position, camera, store`currentLapTime
      ensures Valid()
      ensures speedIndex == SpeedIndex((old(elapsed) + delta) / duration, |adjustedSpeeds|)
      ensures pointIndex < |spacedPoints| && nextIndex < |spacedPoints|
      ensures pointIndex == PointIndex(distances,
                ClampDistance(old(distanceTravelled) + adjustedSpeeds[speedIndex] * delta, totalDistance))
      ensures nextIndex == NextIndex(pointIndex, |spacedPoints|)
      ensures position == spacedPoints[pointIndex]
      ensures cameraMode == "follow" ==>
                camera.position == Offset(position, 0.0, 10.0, -20.0) && camera.target == position
      ensures cameraMode != "follow" ==>
                camera.position == old(camera.position) && camera.target == old(camera.target)
      ensures store.currentLapTime == old(elapsed) + delta
      ensures (old(elapsed) + delta) / duration >= 1.0 ==> elapsed == 0.0 && distanceTravelled == 0.0
      ensures (old(elapsed) + delta) / duration < 1.0 ==>
                elapsed == old(elapsed) + delta
                && distanceTravelled == old(distanceTravelled) + adjustedSpeeds[speedIndex] * delta
    {
      elapsed := elapsed + delta;
      var normalizedTime := elapsed / duration;
      var k := SpeedIndex(normalizedTime, |adjustedSpeeds|);
      speedIndex := k;
      var currentSpeed := adjustedSpeeds[speedIndex];
      var advanced := distanceTravelled + currentSpeed * delta;
      distanceTravelled := advanced;
      var travelled := ClampDistance(distanceTravelled, totalDistance);
      pointIndex := PointIndex(distances, travelled);
      assert advanced == old(distanceTravelled) + adjustedSpeeds[speedIndex] * delta;
      nextIndex := NextIndex(pointIndex, |spacedPoints|);
      position := spacedPoints[pointIndex];
      if cameraMode == "follow" {
        camera.position := Offset(position, 0.0, 10.0, -20.0);
        camera.target := position;
      }
      store.SetCurrentLapTime(elapsed);
      if normalizedTime >= 1.0 {
        elapsed := 0.0;
        distanceTravelled := 0.0;
      }
    }
  }
}
