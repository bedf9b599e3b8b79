/**
 * The `Rain` of TestRain.jsx: 5000 raindrops drawn as points in one flat position buffer,
 * three numbers per drop (x, y, z), filled once and updated in place every frame. Each
 * frame only y changes: down by 2, and back to 500 once it is below -50. `Math.random()`
 * draws are a parameter; Float32 rounding is not modelled.
 */
module TestRain {

  import opened Track

  const Count := 5000

  /** The three numbers of drop i. */
  function PointAt(s: seq<real>, i: nat): Vec3
    requires 3 * i + 2 < |s|
  {
    Vec3(s[3 * i], s[3 * i + 1], s[3 * i + 2])
  }

  /** The point built from three draws in [0, 1): x and z in [-425, 425), y in [0, 500). */
  function InitialPoint(rx: real, ry: real, rz: real): (p: Vec3)
    ensures 0.0 <= rx < 1.0 ==> -425.0 <= p.x < 425.0
    ensures 0.0 <= ry < 1.0 ==> 0.0 <= p.y < 500.0
    ensures 0.0 <= rz < 1.0 ==> -425.0 <= p.z < 425.0
  {
    Vec3((rx - 0.5) * 850.0, ry * 500.0, (rz - 0.5) * 850.0)
  }

  /**
   * One frame for one drop: y falls by 2 unless that takes it below -50, and then it is
   * 500. x and z stay; a y within [-50, 500] stays within it.
   */
  function Fall(p: Vec3): (r: Vec3)
    ensures r.x == p.x && r.z == p.z
    ensures r.y == p.y - 2.0 || r.y == 500.0
    ensures -50.0 <= p.y <= 500.0 ==> -50.0 <= r.y <= 500.0
  {
    var y := p.y - 2.0;
    if y < -50.0 then p.(y := 500.0) else p.(y := y)
  }

  /** Every drop's y lies within [-50, 500]. */
  predicate InRange(s: seq<real>)
  {
    |s| == Count * 3 && forall i :: 0 <= i < Count ==> -50.0 <= PointAt(s, i).y <= 500.0
  }

  /** A buffer whose drops all fell one frame stays within range. */
  lemma FallKeepsRange(before: seq<real>, after: seq<real>)
    requires InRange(before) && |after| == Count * 3
    requires forall i :: 0 <= i < Count ==> PointAt(after, i) == Fall(PointAt(before, i))
    ensures InRange(after)
  {
    forall i | 0 <= i < Count
      ensures -50.0 <= PointAt(after, i).y <= 500.0
    {
      assert PointAt(after, i) == Fall(PointAt(before, i));
    }
  }

  /** The initial `for` loop over `new Float32Array(count * 3)`, three draws per drop. */
  method Initialize(draws: seq<real>) returns (positions: array<real>)
    requires |draws| == Count * 3
    ensures fresh(positions) && positions.Length == Count * 3
    ensures forall i :: 0 <= i < Count ==>
              PointAt(positions[..], i) == InitialPoint(draws[3 * i], draws[3 * i + 1], draws[3 * i + 2])
  {
    positions := new real[Count * 3](_ => 0.0);
    for i := 0 to Count
      invariant forall j :: 0 <= j < i ==>
                  PointAt(positions[..], j) == InitialPoint(draws[3 * j], draws[3 * j + 1], draws[3 * j + 2])
    {
      positions[i * 3] := (draws[3 * i] - 0.5) * 850.0;
      positions[i * 3 + 1] := draws[3 * i + 1] * 500.0;
      positions[i * 3 + 2] := (draws[3 * i + 2] - 0.5) * 850.0;
      assert PointAt(positions[..], i) == InitialPoint(draws[3 * i], draws[3 * i + 1], draws[3 * i + 2]);
    }
  }

  /** With draws in [0, 1) every initial y is within [-50, 500]. */
  lemma InitialInRange(draws: seq<real>, positions: seq<real>)
    requires |draws| == Count * 3 && |positions| == Count * 3
    requires forall k :: 0 <= k < |draws| ==> 0.0 <= draws[k] < 1.0
    requires forall i :: 0 <= i < Count ==>
               PointAt(positions, i) == InitialPoint(draws[3 * i], draws[3 * i + 1], draws[3 * i + 2])
    ensures InRange(positions)
  {
    forall i | 0 <= i < Count
      ensures -50.0 <= PointAt(positions, i).y <= 500.0
    {
      assert 0.0 <= draws[3 * i + 1] < 1.0;
      assert PointAt(positions, i) == InitialPoint(draws[3 * i], draws[3 * i + 1], draws[3 * i + 2]);
    }
  }

  /**
   * One `useFrame` callback on the buffer behind `rainRef` (`null` while the ref is unset,
   * and then nothing happens): every drop falls one frame.
   */
  method Update(positions: array?<real>)
    requires positions != null ==> positions.Length == Count * 3
    modifies positions
    ensures positions != null ==>
              forall i :: 0 <= i < Count ==> PointAt(positions[..], i) == Fall(PointAt(old(positions[..]), i))
    ensures positions != null && InRange(old(positions[..])) ==> InRange(positions[..])
  {
    if positions == null {
      return;
    }
    for i := 0 to Count
      invariant forall j :: 0 <= j < i ==>
                  PointAt(positions[..], j) == Fall(PointAt(old(positions[..]), j))
      invariant forall j :: i <= j < Count ==> PointAt(positions[..], j) == PointAt(old(positions[..]), j)
    {
      ghost var before := PointAt(positions[..], i);
      positions[i * 3 + 1] := positions[i * 3 + 1] - 2.0;
      if positions[i * 3 + 1] < -50.0 {
        positions[i * 3 + 1] := 500.0;
      }
      assert PointAt(positions[..], i) == Fall(before);
    }
    if InRange(old(positions[..])) {
      FallKeepsRange(old(positions[..]), positions[..]);
    }
  }
}
