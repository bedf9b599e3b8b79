/**
 * MovingBox.jsx: one driver's box, replaying that driver's laps one after the other against
 * the race clock of newStore.jsx. The component's state (`currentLapData`, the point and
 * distance tables, the adjusted speeds) and its refs (elapsed time, distance, lap index)
 * are fields; its two effects and its frame callback are methods. A frame reads the lap
 * captured when the component last rendered, so a lap switch takes effect from the next
 * frame on, and the tables follow only when `LoadLapTables` (the effect on
 * `currentLapData`) runs.
 */
module MovingBox {

  import opened RaceData
  import opened Track
  import Visibility
  import NewStore

  /**
   * `Telemetry`: the track points after the fixed rotation, the curve's spaced points
   * over them, and the speed profile.
   */
  datatype Telemetry = Telemetry(points: seq<Vec3>, spacedPoints: seq<Vec3>, speed: seq<real>)

  /** One entry of `laps`: when the lap starts on the race clock, its duration, its telemetry. */
  datatype BoxLap = BoxLap(lapStartTime: real, lapDuration: real, telemetry: Option<Telemetry>)

  /**
   * What the source divides by without checking: a positive lap duration, and a non-empty
   * speed profile with a non-zero mean. The curve always yields at least one spaced point.
   */
  predicate WellFormed(lap: BoxLap)
  {
    lap.lapDuration > 0.0
    && (lap.telemetry.Some? ==>
          |lap.telemetry.value.spacedPoints| > 0 && |lap.telemetry.value.speed| > 0
          && Mean(lap.telemetry.value.speed) != 0.0)
  }

  /** `(lapIndexRef.current + 1) % laps.length`: the following lap, back to the first after the last. */
  function NextLap(i: nat, count: nat): (r: nat)
    requires count > 0
    ensures r < count
    ensures i < count - 1 ==> r == i + 1
    ensures i == count - 1 ==> r == 0
  {
    (i + 1) % count
  }

  class Box {
    const driverName: string
    const dist: Metric

    var laps: seq<BoxLap>
    var lapIndex: nat
    var currentLapData: Option<BoxLap>
    var points: seq<Vec3>
    var spacedPoints: seq<Vec3>
    var distances: seq<real>
    var adjustedSpeeds: seq<real>
    var elapsed: real
    var distanceTravelled: real
    /** `meshRef.current.position` */
    var position: Vec3

    /**
     * Every lap is well formed; the tables are those of one telemetry: empty until the first
     * load, and once points exist, non-empty and rising to their last entry.
     */
    ghost predicate Valid()
      reads this`laps, this`currentLapData, this`points, this`spacedPoints, this`distances,
            this`adjustedSpeeds
    {
      NonNegative(dist)
      && (forall i :: 0 <= i < |laps| ==> WellFormed(laps[i]))
      && (currentLapData.Some? ==> WellFormed(currentLapData.value))
      && |distances| == |spacedPoints|
      && (|points| > 0 ==>
            |spacedPoints| > 0 && |adjustedSpeeds| > 0
            && forall j :: 0 <= j < |distances| ==> distances[j] <= Last(distances))
    }

    /** `Runs(time)`: the frame callback gets past its two guards. */
    predicate Runs(time: real)
      reads this`currentLapData, this`points
    {
      currentLapData.Some? && |points| > 0 && time - currentLapData.value.lapStartTime >= 0.0
    }

    /** Mount: `useState(laps[0])`, empty tables, both refs and the lap index at zero. */
    constructor (driverName: string, laps: seq<BoxLap>, dist: Metric)
      requires NonNegative(dist)
      requires forall i :: 0 <= i < |laps| ==> WellFormed(laps[i])
      ensures Valid()
      ensures this.driverName == driverName && this.laps == laps && lapIndex == 0
      ensures currentLapData == At(laps, 0)
      ensures points == [] && spacedPoints == [] && distances == [] && adjustedSpeeds == []
      ensures elapsed == 0.0 && distanceTravelled == 0.0
    {
      this.driverName := driverName;
      this.dist := dist;
      this.laps := laps;
      lapIndex := 0;
      currentLapData := At(laps, 0);
      points, spacedPoints, distances, adjustedSpeeds := [], [], [], [];
      elapsed, distanceTravelled := 0.0, 0.0;
      position := Vec3(0.0, 0.0, 0.0);
    }

    /**
     * The effect on `laps`: the new list replaces the old one; when it has a lap at the
     * current index that lap becomes current and both refs restart from zero.
     */
    method OnLapsChange(newLaps: seq<BoxLap>)
      requires Valid()
      requires forall i :: 0 <= i < |newLaps| ==> WellFormed(newLaps[i])
      modifies this`laps, this`currentLapData, this`elapsed, this`distanceTravelled
      ensures Valid() && laps == newLaps
      ensures lapIndex < |newLaps| ==>
                currentLapData == Some(newLaps[lapIndex]) && elapsed == 0.0 && distanceTravelled == 0.0
      ensures lapIndex >= |newLaps| ==>
                currentLapData == old(currentLapData) && elapsed == old(elapsed)
                && distanceTravelled == old(distanceTravelled)
    {
      laps := newLaps;
      if lapIndex < |newLaps| {
        currentLapData := Some(newLaps[lapIndex]);
        elapsed := 0.0;
        distanceTravelled := 0.0;
      }
    }

    /**
     * The effect on `currentLapData`: with telemetry, the points, the spaced points, their
     * distance table and the speed profile rescaled to `totalDistance / LapDuration`;
     * without, the old tables stay.
     */
    method LoadLapTables()
      requires Valid()
      modifies this`points, this`spacedPoints, this`distances, this`adjustedSpeeds
      ensures Valid()
      ensures currentLapData.Some? && currentLapData.value.telemetry.Some? ==>
                var lap := currentLapData.value;
                var t := lap.telemetry.value;
                points == t.points && spacedPoints == t.spacedPoints
                && distances == DistanceTable(t.spacedPoints, dist)
                && Last(distances) == PathLength(t.spacedPoints, dist)
                && adjustedSpeeds == AdjustedSpeeds(t.speed, Last(distances) / lap.lapDuration)
      ensures currentLapData.None? || currentLapData.value.telemetry.None? ==>
                points == old(points) && spacedPoints == old(spacedPoints)
                && distances == old(distances) && adjustedSpeeds == old(adjustedSpeeds)
    {
      if currentLapData.Some? && currentLapData.value.telemetry.Some? {
        var lap := currentLapData.value;
        var t := lap.telemetry.value;
        var table := BuildDistances(t.spacedPoints, dist);
        DistanceTableMonotone(t.spacedPoints, dist);
        TotalIsPathLength(t.spacedPoints, dist);
        var averageSpeed := Last(table) / lap.lapDuration;
        points := t.points;
        spacedPoints := t.spacedPoints;
        distances := table;
        adjustedSpeeds := AdjustedSpeeds(t.speed, averageSpeed);
      }
    }

    /**
     * The box moved from distance `from` at the speed of the sample for the elapsed share of
     * the lap, for `delta` seconds, and stands on the first spaced point that reaches the
     * distance travelled, held at the last once the distance passes the total.
     */
    ghost predicate MovedFrom(lap: BoxLap, from: real, delta: real)
      reads this`elapsed, this`adjustedSpeeds, this`distanceTravelled, this`position,
            this`spacedPoints, this`distances
    {
      && lap.lapDuration > 0.0 && |adjustedSpeeds| > 0 && |distances| == |spacedPoints| > 0
      && var k := SpeedIndex(elapsed / lap.lapDuration, |adjustedSpeeds|);
         && 0 <= k < |adjustedSpeeds|
         && distanceTravelled == from + adjustedSpeeds[k] * delta
         && position == spacedPoints[PointIndex(distances, ClampDistance(distanceTravelled, Last(distances)))]
    }

    /** The moving part of the frame, for the lap captured at render and the given elapsed time. */
    method Move(lap: BoxLap, delta: real)
      requires lap.lapDuration > 0.0 && elapsed >= 0.0
      requires |adjustedSpeeds| > 0 && |distances| == |spacedPoints| > 0
      modifies this`distanceTravelled, this`position
      ensures MovedFrom(lap, old(distanceTravelled), delta)
    {
      var from := distanceTravelled;
      var normalizedTime := elapsed / lap.lapDuration;
      NonNegativeQuotient(elapsed, lap.lapDuration);
      var speedIndex := SpeedIndex(normalizedTime, |adjustedSpeeds|);
      var currentSpeed := adjustedSpeeds[speedIndex];
      distanceTravelled := distanceTravelled + currentSpeed * delta;
      var travelled := ClampDistance(distanceTravelled, Last(distances));
      var pointIndex := PointIndex(distances, travelled);
      var nextIndex := NextIndex(pointIndex, |spacedPoints|);
      position := spacedPoints[pointIndex];
      assert distanceTravelled == from + adjustedSpeeds[speedIndex] * delta;
    }

    /**
     * One `useFrame` callback against the store's clock and skip flag. Nothing happens
     * without lap data or points, or before the lap's start. With the skip flag set the refs
     * jump to the lap's end and the flag is cleared. Otherwise elapsed is the session time
     * into the lap; once it reaches the lap's duration the next lap (wrapping around) is
     * made current and both refs restart, and then the box moves.
     */
    method Step(delta: real, store: NewStore.TimingStore)
      requires Valid() && |laps| > 0
      modifies this`lapIndex, this`currentLapData, this`elapsed, this`distanceTravelled,
               this`position, store`skipNextLap
      ensures Valid()
      ensures !old(Runs(store.time)) ==>
                lapIndex == old(lapIndex) && currentLapData == old(currentLapData)
                && elapsed == old(elapsed) && distanceTravelled == old(distanceTravelled)
                && position == old(position) && store.skipNextLap == old(store.skipNextLap)
      ensures old(Runs(store.time)) && old(store.skipNextLap) ==>
                elapsed == old(currentLapData).value.lapDuration
                && distanceTravelled == Last(distances) && !store.skipNextLap
                && lapIndex == old(lapIndex) && currentLapData == old(currentLapData)
                && position == old(position)
      ensures old(Runs(store.time)) && !old(store.skipNextLap) ==>
                var lap := old(currentLapData).value;
                var sessionTime := store.time - lap.lapStartTime;
                store.skipNextLap == old(store.skipNextLap)
                && (sessionTime >= lap.lapDuration ==>
                      lapIndex == NextLap(old(lapIndex), |laps|)
                      && currentLapData == Some(laps[lapIndex]) && elapsed == 0.0)
                && (sessionTime < lap.lapDuration ==>
                      lapIndex == old(lapIndex) && currentLapData == old(currentLapData)
                      && elapsed == sessionTime)
      ensures old(Runs(store.time)) && !old(store.skipNextLap) ==>
                var lap := old(currentLapData).value;
                var restarted := store.time - lap.lapStartTime >= lap.lapDuration;
                MovedFrom(lap, if restarted then 0.0 else old(distanceTravelled), delta)
    {
      if currentLapData.None? || |points| == 0 {
        return;
      }
      var lap := currentLapData.value;
      var currentSessionTime := store.time - lap.lapStartTime;
      if currentSessionTime < 0.0 {
        return;
      }
      if store.skipNextLap {
        elapsed := lap.lapDuration;
        distanceTravelled := Last(distances);
        store.SetSkipNextLap(false);
      } else {
        Advance(lap, currentSessionTime, delta);
      }
    }

    /**
     * The frame past its guards without the skip flag: elapsed becomes the session time into
     * the lap; once that reaches the lap's duration the next lap becomes current and both refs
     * restart; then the box moves.
     */
    method Advance(lap: BoxLap, sessionTime: real, delta: real)
      requires Valid() && |laps| > 0 && currentLapData == Some(lap) && |points| > 0 && sessionTime >= 0.0
      modifies this`lapIndex, this`currentLapData, this`elapsed, this`distanceTravelled, this`position
      ensures Valid()
      ensures sessionTime >= lap.lapDuration ==>
                lapIndex == NextLap(old(lapIndex), |laps|)
                && currentLapData == Some(laps[lapIndex]) && elapsed == 0.0
      ensures sessionTime < lap.lapDuration ==>
                lapIndex == old(lapIndex) && currentLapData == old(currentLapData) && elapsed == sessionTime
      ensures MovedFrom(lap, if sessionTime >= lap.lapDuration then 0.0 else old(distanceTravelled), delta)
    {
      elapsed := sessionTime;
      if elapsed >= lap.lapDuration {
        lapIndex := NextLap(lapIndex, |laps|);
        currentLapData := Some(laps[lapIndex]);
        elapsed := 0.0;
        distanceTravelled := 0.0;
      }
      Move(lap, delta);
    }

    /**
     * Rendering: nothing without lap data or points; otherwise the box, shown exactly when
     * its driver is not in the store's hidden list.
     */
    method Render(store: NewStore.TimingStore) returns (rendered: bool, visible: bool)
      ensures rendered <==> currentLapData.Some? && |points| > 0
      ensures rendered ==> (visible <==> Visibility.IsVisible(driverName, store.driversVisibility))
      ensures !rendered ==> !visible
    {
      if currentLapData.None? || |points| == 0 {
        return false, false;
      }
      rendered := true;
      visible := driverName !in store.driversVisibility;
    }
  }

  /**
   * A driver's box from a store with no hidden drivers: shown; hidden after the driver is
   * toggled in the store's list; shown again after a second toggle.
   */
  method VisibilityScenario(lap: BoxLap, dist: Metric) returns (first: bool, second: bool, third: bool)
    requires NonNegative(dist) && WellFormed(lap)
    requires lap.telemetry.Some? && |lap.telemetry.value.points| > 0
    ensures first && !second && third
  {
    var store := new NewStore.TimingStore();
    var box := new Box("VER", [lap], dist);
    box.LoadLapTables();
    var rendered;
    rendered, first := box.Render(store);
    store.ToggleDriverVisibility("VER");
    rendered, second := box.Render(store);
    store.ToggleDriverVisibility("VER");
    rendered, third := box.Render(store);
  }
}
