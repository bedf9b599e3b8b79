/**
 * MovingCarwithsound.jsx: the frame step of MovingCar.jsx (with the follow camera at
 * (0, 5, -10)), plus the raw speed published to the store, a brake light and three looping
 * engine sounds chosen by RPM band. Each sound is modelled only by its `isPlaying` flag.
 * Telemetry arrays are read at the speed index; an index past the end of `brakeData` or
 * `rpmData` reads `undefined`, modelled as `None`.
 */
module MovingCarWithSound {

  import opened RaceData
  import opened Track
  import Store

  // ---------------------------------------------------------------------------------------
  // Brake light

  /**
   * `brakeData[speedIndex] ? 3 : 0`: a number is truthy when it is non-zero, `undefined`
   * never is. NaN is not a value of this model.
   */
  function BrakeIntensity(sample: Option<real>): (intensity: int)
    ensures intensity == 3 || intensity == 0
    ensures intensity == 3 <==> sample.Some? && sample.value != 0.0
  {
    if sample.Some? && sample.value != 0.0 then 3 else 0
  }

  // ---------------------------------------------------------------------------------------
  // Engine sound

  datatype Band = Acceleration | Cruise | Deceleration

  /** The band for the current RPM: above 9000, above 5000, and everything else. */
  function BandOf(rpm: Option<real>): (b: Band)
    ensures b == Acceleration <==> rpm.Some? && rpm.value > 9000.0
    ensures b == Cruise <==> rpm.Some? && 5000.0 < rpm.value <= 9000.0
    ensures b == Deceleration <==> rpm.None? || rpm.value <= 5000.0
  {
    if rpm.Some? && rpm.value > 9000.0 then Acceleration
    else if rpm.Some? && rpm.value > 5000.0 then Cruise
    else Deceleration
  }

  /** The `isPlaying` flags of the three sounds. */
  datatype Sounds = Sounds(acceleration: bool, cruise: bool, deceleration: bool)

  function IsPlaying(s: Sounds, b: Band): bool
  {
    match b
    case Acceleration => s.acceleration
    case Cruise => s.cruise
    case Deceleration => s.deceleration
  }

  predicate AtMostOnePlaying(s: Sounds)
  {
    !(s.acceleration && s.cruise) && !(s.acceleration && s.deceleration)
    && !(s.cruise && s.deceleration)
  }

  /**
   * The play/stop rule: when the band's sound is not playing it is started and the other
   * two are stopped; when it is already playing nothing is touched.
   */
  function Select(s: Sounds, b: Band): Sounds
  {
    if IsPlaying(s, b) then s
    else Sounds(b == Acceleration, b == Cruise, b == Deceleration)
  }

  /**
   * After a step the band's sound is playing; a started sound silences the others; a
   * playing one changes nothing; and "at most one sound plays" is kept, so from such a state
   * exactly the band's sound plays.
   */
  lemma SelectRule(s: Sounds, b: Band)
    ensures IsPlaying(Select(s, b), b)
    ensures !IsPlaying(s, b) ==> forall o :: o != b ==> !IsPlaying(Select(s, b), o)
    ensures IsPlaying(s, b) ==> Select(s, b) == s
    ensures AtMostOnePlaying(s) ==> AtMostOnePlaying(Select(s, b))
    ensures AtMostOnePlaying(s) ==> forall o :: IsPlaying(Select(s, b), o) <==> o == b
  {
  }

  class Car {
    const spacedPoints: seq<Vec3>
    const distances: seq<real>
    const totalDistance: real
    const duration: real
    const speedData: seq<real>
    const adjustedSpeeds: seq<real>
    const brakeData: seq<real>
    const rpmData: seq<real>

    var elapsed: real
    var distanceTravelled: real
    var position: Vec3
    /** `brakeLightMaterial.emissiveIntensity` */
    var brakeIntensity: int
    var accelerationPlaying: bool
    var cruisePlaying: bool
    var decelerationPlaying: bool

    function Playing(): Sounds
      reads this`accelerationPlaying, this`cruisePlaying, this`decelerationPlaying
    {
      Sounds(accelerationPlaying, cruisePlaying, decelerationPlaying)
    }

    ghost predicate Valid()
      reads this`elapsed, this`accelerationPlaying, this`cruisePlaying, this`decelerationPlaying
    {
      |spacedPoints| > 0 && |distances| == |spacedPoints| && |adjustedSpeeds| > 0
      && |speedData| == |adjustedSpeeds|
      && duration > 0.0 && totalDistance == Last(distances)
      && (forall j :: 0 <= j < |distances| ==> 0.0 <= distances[j] <= totalDistance)
      && elapsed >= 0.0
      && AtMostOnePlaying(Playing())
    }

    /** Mount: the tables of MovingCar.jsx; the brake light dark and no sound playing. */
    constructor (points: seq<Vec3>, dist: Metric, speedData: seq<real>, brakeData: seq<real>,
                 rpmData: seq<real>, duration: real)
      requires |points| > 0 && NonNegative(dist)
      requires duration > 0.0 && |speedData| > 0 && Mean(speedData) != 0.0
      ensures Valid()
      ensures spacedPoints == points && distances == DistanceTable(points, dist)
      ensures totalDistance == PathLength(points, dist)
      ensures adjustedSpeeds == AdjustedSpeeds(speedData, totalDistance / duration)
      ensures this.speedData == speedData && this.brakeData == brakeData && this.rpmData == rpmData
      ensures this.duration == duration
      ensures elapsed == 0.0 && distanceTravelled == 0.0 && brakeIntensity == 0
      ensures Playing() == Sounds(false, false, false)
    {
      var table := BuildDistances(points, dist);
      DistanceTableMonotone(points, dist);
      TotalIsPathLength(points, dist);
      spacedPoints := points;
      distances := table;
      totalDistance := Last(table);
      this.duration := duration;
      this.speedData := speedData;
      adjustedSpeeds := AdjustedSpeeds(speedData, Last(table) / duration);
      this.brakeData := brakeData;
      this.rpmData := rpmData;
      elapsed := 0.0;
      distanceTravelled := 0.0;
      position := Vec3(0.0, 0.0, 0.0);
      brakeIntensity := 0;
      accelerationPlaying, cruisePlaying, decelerationPlaying := false, false, false;
    }

    /** The motion part of the frame, identical to MovingCar.jsx but for the camera offset. */
    method Advance(delta: real, cameraMode: string, camera: Camera)
      returns (speedIndex: nat, pointIndex: nat, nextIndex: nat)
      requires Valid() && delta >= 0.0
      modifies this`elapsed, this`distanceTravelled, this`position, camera
      ensures Valid()
      ensures elapsed == old(elapsed) + delta && speedIndex < |adjustedSpeeds|
      ensures speedIndex == SpeedIndex(elapsed / duration, |adjustedSpeeds|)
      ensures distanceTravelled == old(distanceTravelled) + adjustedSpeeds[speedIndex] * delta
      ensures pointIndex == PointIndex(distances, ClampDistance(distanceTravelled, totalDistance))
      ensures nextIndex == NextIndex(pointIndex, |spacedPoints|)
      ensures position == spacedPoints[pointIndex]
      ensures cameraMode == "follow" ==>
                camera.position == Offset(position, 0.0, 5.0, -10.0) && camera.target == position
      ensures cameraMode != "follow" ==>
                camera.position == old(camera.position) && camera.target == old(camera.target)
    {
      elapsed := elapsed + delta;
      var normalizedTime := elapsed / duration;
      speedIndex := SpeedIndex(normalizedTime, |adjustedSpeeds|);
      var currentSpeed := adjustedSpeeds[speedIndex];
      distanceTravelled := distanceTravelled + currentSpeed * delta;
      var travelled := ClampDistance(distanceTravelled, totalDistance);
      pointIndex := PointIndex(distances, travelled);
      nextIndex := NextIndex(pointIndex, |spacedPoints|);
      position := spacedPoints[pointIndex];
      if cameraMode == "follow" {
        camera.position := Offset(position, 0.0, 5.0, -10.0);
        camera.target := position;
      }
    }

    /** The RPM-band branch: start the band's sound and stop the other two, unless it plays. */
    method UpdateSound(rpm: Option<real>)
      requires Valid()
      modifies this`accelerationPlaying, this`cruisePlaying, this`decelerationPlaying
      ensures Valid()
      ensures Playing() == Select(old(Playing()), BandOf(rpm))
      ensures forall o :: IsPlaying(Playing(), o) <==> o == BandOf(rpm)
    {
      SelectRule(Playing(), BandOf(rpm));
      if rpm.Some? && rpm.value > 9000.0 {
        if !accelerationPlaying {
          accelerationPlaying := true;
          cruisePlaying := false;
          decelerationPlaying := false;
        }
      } else if rpm.Some? && rpm.value > 5000.0 {
        if !cruisePlaying {
          cruisePlaying := true;
          accelerationPlaying := false;
          decelerationPlaying := false;
        }
      } else {
        if !decelerationPlaying {
          decelerationPlaying := true;
          accelerationPlaying := false;
          cruisePlaying := false;
        }
      }
    }

    /**
     * One `useFrame` callback: the motion step, the raw (not rescaled) speed sample published
     * to the store, the lap time, the brake light, the engine sound, and the lap reset.
     */
    method Step(delta: real, cameraMode: string, camera: Camera, store: Store.RaceStore)
      returns (speedIndex: nat, pointIndex: nat, nextIndex: nat)
      requires Valid() && delta >= 0.0
      modifies this`elapsed, this`distanceTravelled, this`position, this`brakeIntensity
      modifies this`accelerationPlaying, this`cruisePlaying, this`decelerationPlaying
      modifies camera, store`currentSpeed, store`currentLapTime
      ensures Valid()
      ensures speedIndex == SpeedIndex((old(elapsed) + delta) / duration, |adjustedSpeeds|)
      ensures pointIndex < |spacedPoints| && nextIndex == NextIndex(pointIndex, |spacedPoints|)
      ensures pointIndex == PointIndex(distances,
                ClampDistance(old(distanceTravelled) + adjustedSpeeds[speedIndex] * delta, totalDistance))
      ensures position == spacedPoints[pointIndex]
      ensures cameraMode == "follow" ==>
                camera.position == Offset(position, 0.0, 5.0, -10.0) && camera.target == position
      ensures cameraMode != "follow" ==>
                camera.position == old(camera.position) && camera.target == old(camera.target)
      ensures store.currentSpeed == speedData[speedIndex]
      ensures store.currentLapTime == old(elapsed) + delta
      ensures brakeIntensity == BrakeIntensity(At(brakeData, speedIndex))
      ensures Playing() == Select(old(Playing()), BandOf(At(rpmData, speedIndex)))
      ensures (old(elapsed) + delta) / duration >= 1.0 ==> elapsed == 0.0 && distanceTravelled == 0.0
      ensures (old(elapsed) + delta) / duration < 1.0 ==>
                elapsed == old(elapsed) + delta
                && distanceTravelled == old(distanceTravelled) + adjustedSpeeds[speedIndex] * delta
    {
      speedIndex, pointIndex, nextIndex := Advance(delta, cameraMode, camera);
      var normalizedTime := elapsed / duration;
      store.SetCurrentSpeed(speedData[speedIndex]);
      store.SetCurrentLapTime(elapsed);
      brakeIntensity := BrakeIntensity(At(brakeData, speedIndex));
      UpdateSound(At(rpmData, speedIndex));
      if normalizedTime >= 1.0 {
        elapsed := 0.0;
        distanceTravelled := 0.0;
      }
    }
  }
}
