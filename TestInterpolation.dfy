/**
 * The `Car` of Test.jsx: a box placed on a timestamped path by linear interpolation. Each
 * frame scans the samples from index 1 for the first one later than the session time and
 * interpolates between it and the sample before it; when no later sample exists the box
 * stays where it is. The scan assumes no ordering of the timestamps.
 */
module TestInterpolation {

  import opened RaceData
  import opened Track

  /** One sample of `path`: its timestamp and its raw coordinates `[x, y, z]`. */
  datatype PathSample = PathSample(timestamp: real, coordinates: Vec3)

  /**
   * `adjustCoordinates`: the offset (-47.5, -0.055) with z mirrored about 19.5, then the
   * fixed rotation about the y axis, which is given as `rotate`.
   */
  function AdjustCoordinates(path: seq<PathSample>, rotate: Vec3 -> Vec3): (r: seq<Vec3>)
    ensures |r| == |path|
    ensures forall i :: 0 <= i < |path| ==>
              r[i] == rotate(Vec3(path[i].coordinates.x - 47.5, path[i].coordinates.y - 0.055,
                                  -path[i].coordinates.z + 19.5))
  {
    seq(|path|, i requires 0 <= i < |path| =>
      var p := path[i].coordinates;
      rotate(Vec3(p.x - 47.5, p.y - 0.055, -p.z + 19.5)))
  }

  /** The first index from `from` on whose timestamp exceeds t. */
  function FirstLater(path: seq<PathSample>, t: real, from: nat): (r: Option<nat>)
    ensures r.Some? ==>
              from <= r.value < |path| && path[r.value].timestamp > t
              && forall j :: from <= j < r.value ==> path[j].timestamp <= t
    ensures r.None? ==> forall j :: from <= j < |path| ==> path[j].timestamp <= t
    decreases |path| - from
  {
    if from >= |path| then None
    else if path[from].timestamp > t then Some(from)
    else FirstLater(path, t, from + 1)
  }

  /** The `for` loop with its `break`: the index of `nextPoint`, if any. */
  method FindNext(path: seq<PathSample>, t: real) returns (next: Option<nat>)
    ensures next == FirstLater(path, t, 1)
  {
    var i := 1;
    while i < |path|
      invariant 1 <= i
      invariant FirstLater(path, t, 1) == FirstLater(path, t, i)
      decreases |path| - i
    {
      if path[i].timestamp > t {
        return Some(i);
      }
      i := i + 1;
    }
    return None;
  }

  /** `progress`: how far the time lies from the previous sample toward the next. */
  function Progress(t: real, prevTimestamp: real, nextTimestamp: real): real
    requires prevTimestamp != nextTimestamp
  {
    (t - prevTimestamp) / (nextTimestamp - prevTimestamp)
  }

  /**
   * What the source divides by: the only pair whose timestamps the scan does not order is
   * the first one, so those two must differ.
   */
  predicate Divisible(path: seq<PathSample>)
  {
    |path| < 2 || path[0].timestamp != path[1].timestamp
  }

  /** Where one frame leaves the box, given where it stands. */
  function FramePosition(path: seq<PathSample>, adjusted: seq<Vec3>, t: real, current: Vec3): Vec3
    requires |adjusted| == |path| && Divisible(path)
  {
    match FirstLater(path, t, 1)
    case None => current
    case Some(i) =>
      assert i >= 2 ==> path[i - 1].timestamp <= t;
      Lerp(adjusted[i - 1], adjusted[i], Progress(t, path[i - 1].timestamp, path[i].timestamp))
  }

  class Car {
    const path: seq<PathSample>
    const adjustedPath: seq<Vec3>
    /** `mesh.current.position` */
    var position: Vec3

    constructor (path: seq<PathSample>, rotate: Vec3 -> Vec3)
      ensures this.path == path && adjustedPath == AdjustCoordinates(path, rotate)
      ensures position == Vec3(0.0, 0.0, 0.0)
    {
      this.path := path;
      adjustedPath := AdjustCoordinates(path, rotate);
      position := Vec3(0.0, 0.0, 0.0);
    }

    /**
     * One `useFrame` callback at session time t. `path.indexOf` finds the very sample
     * objects the scan picked, so the indices are those of the scan.
     */
    method Frame(t: real)
      requires |adjustedPath| == |path| && Divisible(path)
      modifies this`position
      ensures position == FramePosition(path, adjustedPath, t, old(position))
    {
      var next := FindNext(path, t);
      if next.Some? {
        var nextIndex := next.value;
        var prevIndex := nextIndex - 1;
        var progress := Progress(t, path[prevIndex].timestamp, path[nextIndex].timestamp);
        var x := adjustedPath[prevIndex].x + (adjustedPath[nextIndex].x - adjustedPath[prevIndex].x) * progress;
        var y := adjustedPath[prevIndex].y + (adjustedPath[nextIndex].y - adjustedPath[prevIndex].y) * progress;
        var z := adjustedPath[prevIndex].z + (adjustedPath[nextIndex].z - adjustedPath[prevIndex].z) * progress;
        position := Vec3(x, y, z);
      }
    }
  }

  /**
   * Past the first pair, the chosen pair brackets the time whatever the order of the
   * timestamps (the previous sample was passed over by the scan), so the progress lies in
   * [0, 1) and each coordinate lies between the two samples' coordinates.
   */
  lemma BracketEncloses(path: seq<PathSample>, adjusted: seq<Vec3>, t: real)
    requires |adjusted| == |path|
    requires FirstLater(path, t, 1).Some? && FirstLater(path, t, 1).value >= 2
    ensures var i := FirstLater(path, t, 1).value;
            path[i - 1].timestamp <= t < path[i].timestamp
            && 0.0 <= Progress(t, path[i - 1].timestamp, path[i].timestamp) < 1.0
    ensures Divisible(path) ==>
              var i := FirstLater(path, t, 1).value;
              var p := FramePosition(path, adjusted, t, Vec3(0.0, 0.0, 0.0));
              Between(adjusted[i - 1].x, p.x, adjusted[i].x)
              && Between(adjusted[i - 1].y, p.y, adjusted[i].y)
              && Between(adjusted[i - 1].z, p.z, adjusted[i].z)
  {
    var i := FirstLater(path, t, 1).value;
    var a, b := path[i - 1].timestamp, path[i].timestamp;
    FractionBounds(t - a, b - a);
  }

  predicate Between(a: real, x: real, b: real)
  {
    (a <= x <= b) || (b <= x <= a)
  }

  predicate StrictlyIncreasing(path: seq<PathSample>)
  {
    forall i, j :: 0 <= i < j < |path| ==> path[i].timestamp < path[j].timestamp
  }

  /**
   * With strictly increasing timestamps, a session time equal to sample k's timestamp (k
   * not the last) places the box exactly at sample k.
   */
  lemma ExactAtSample(path: seq<PathSample>, adjusted: seq<Vec3>, k: nat, current: Vec3)
    requires |adjusted| == |path| && StrictlyIncreasing(path) && k + 1 < |path|
    ensures Divisible(path)
    ensures FirstLater(path, path[k].timestamp, 1) == Some(k + 1)
    ensures FramePosition(path, adjusted, path[k].timestamp, current) == adjusted[k]
  {
    var t := path[k].timestamp;
    var r := FirstLater(path, t, 1);
    assert path[k + 1].timestamp > t;
    assert r.value == k + 1;
    assert Progress(t, path[k].timestamp, path[k + 1].timestamp) == 0.0;
  }

  /**
   * Before the first sample the first pair is still chosen and the progress is negative:
   * the box is placed on the extension of the first segment, not clamped to the first sample.
   */
  lemma BeforeFirstExtrapolates(path: seq<PathSample>, t: real)
    requires |path| >= 2 && StrictlyIncreasing(path) && t < path[0].timestamp
    ensures FirstLater(path, t, 1) == Some(1)
    ensures Progress(t, path[0].timestamp, path[1].timestamp) < 0.0
  {
    FractionBounds(t - path[0].timestamp, path[1].timestamp - path[0].timestamp);
  }

  /** Without a later sample from index 1 on (a path shorter than two included) the box stays put. */
  lemma NoLaterSampleStays(path: seq<PathSample>, adjusted: seq<Vec3>, t: real, current: Vec3)
    requires |adjusted| == |path| && Divisible(path)
    requires forall j :: 1 <= j < |path| ==> path[j].timestamp <= t
    ensures FramePosition(path, adjusted, t, current) == current
  {
  }
}
