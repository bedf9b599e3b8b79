/**
 * Rain.jsx: 3500 raindrops drawn as line segments in one flat position buffer, six numbers
 * per drop (start x, y, z, then end x, y, z). The buffer is filled once and then updated in
 * place every frame. `Math.random()` draws are a parameter; Float32 rounding is not modelled.
 */
module Rain {

  import opened Track

  const Count := 3500

  /** A drop's segment, from its start point to its end point. */
  datatype Segment = Segment(start: Vec3, end: Vec3)

  /** The six numbers of drop i. */
  function DropAt(s: seq<real>, i: nat): Segment
    requires 6 * i + 5 < |s|
  {
    Segment(Vec3(s[6 * i], s[6 * i + 1], s[6 * i + 2]), Vec3(s[6 * i + 3], s[6 * i + 4], s[6 * i + 5]))
  }

  /**
   * The drop built from three draws in [0, 1): start x and z in [-425, 425), start y in
   * [0, 500), and the end point straight below the start point by 10.
   */
  function InitialDrop(rx: real, ry: real, rz: real): (d: Segment)
    ensures d.end == Vec3(d.start.x, d.start.y - 10.0, d.start.z)
    ensures 0.0 <= rx < 1.0 ==> -425.0 <= d.start.x < 425.0
    ensures 0.0 <= ry < 1.0 ==> 0.0 <= d.start.y < 500.0
    ensures 0.0 <= rz < 1.0 ==> -425.0 <= d.start.z < 425.0
  {
    var x, y, z := (rx - 0.5) * 850.0, ry * 500.0, (rz - 0.5) * 850.0;
    Segment(Vec3(x, y, z), Vec3(x, y - 10.0, z))
  }

  /**
   * One frame for one drop: both ends fall by 2, and a start that falls below -50 goes back
   * to 500 with the end at 490. Only the two y values change; a segment 10 long stays 10
   * long; a start within [-50, 500] stays within it.
   */
  function Fall(d: Segment): (r: Segment)
    ensures r.start.x == d.start.x && r.start.z == d.start.z
    ensures r.end.x == d.end.x && r.end.z == d.end.z
    ensures d.start.y - d.end.y == 10.0 ==> r.start.y - r.end.y == 10.0
    ensures -50.0 <= d.start.y <= 500.0 ==> -50.0 <= r.start.y <= 500.0
  {
    var startY, endY := d.start.y - 2.0, d.end.y - 2.0;
    if startY < -50.0 then d.(start := d.start.(y := 500.0), end := d.end.(y := 490.0))
    else d.(start := d.start.(y := startY), end := d.end.(y := endY))
  }

  /** Every drop is 10 long and starts within [-50, 500]. */
  predicate Healthy(s: seq<real>)
  {
    |s| == Count * 6
    && forall i :: 0 <= i < Count ==>
         DropAt(s, i).start.y - DropAt(s, i).end.y == 10.0
         && -50.0 <= DropAt(s, i).start.y <= 500.0
  }

  /**
   * A buffer whose drops all fell one frame stays healthy: the update keeps the segment
   * length and the start's range.
   */
  lemma FallKeepsHealthy(before: seq<real>, after: seq<real>)
    requires Healthy(before) && |after| == Count * 6
    requires forall i :: 0 <= i < Count ==> DropAt(after, i) == Fall(DropAt(before, i))
    ensures Healthy(after)
  {
    forall i | 0 <= i < Count
      ensures DropAt(after, i).start.y - DropAt(after, i).end.y == 10.0
      ensures -50.0 <= DropAt(after, i).start.y <= 500.0
    {
      assert DropAt(after, i) == Fall(DropAt(before, i));
    }
  }

  /** The initial `for` loop over `new Float32Array(count * 6)`, three draws per drop. */
  method Initialize(draws: seq<real>) returns (positions: array<real>)
    requires |draws| == Count * 3
    ensures fresh(positions) && positions.Length == Count * 6
    ensures forall i :: 0 <= i < Count ==>
              DropAt(positions[..], i) == InitialDrop(draws[3 * i], draws[3 * i + 1], draws[3 * i + 2])
  {
    positions := new real[Count * 6](_ => 0.0);
    for i := 0 to Count
      invariant forall j :: 0 <= j < i ==>
                  DropAt(positions[..], j) == InitialDrop(draws[3 * j], draws[3 * j + 1], draws[3 * j + 2])
    {
      var x := (draws[3 * i] - 0.5) * 850.0;
      var y := draws[3 * i + 1] * 500.0;
      var z := (draws[3 * i + 2] - 0.5) * 850.0;
      WriteDrop(positions, i, Segment(Vec3(x, y, z), Vec3(x, y - 10.0, z)));
    }
  }

  /** The six assignments `positions[i * 6 + k] = ...` for one drop. */
  method WriteDrop(positions: array<real>, i: nat, d: Segment)
    requires positions.Length == Count * 6 && i < Count
    modifies positions
    ensures DropAt(positions[..], i) == d
    ensures forall j :: 0 <= j < Count && j != i ==> DropAt(positions[..], j) == DropAt(old(positions[..]), j)
  {
    positions[i * 6] := d.start.x;
    positions[i * 6 + 1] := d.start.y;
    positions[i * 6 + 2] := d.start.z;
    positions[i * 6 + 3] := d.end.x;
    positions[i * 6 + 4] := d.end.y;
    positions[i * 6 + 5] := d.end.z;
    assert forall k :: 0 <= k < positions.Length && (k < i * 6 || k >= i * 6 + 6) ==> positions[k] == old(positions[k]);
  }

  /** With draws in [0, 1) the initial buffer is healthy. */
  lemma InitialHealthy(draws: seq<real>, positions: seq<real>)
    requires |draws| == Count * 3 && |positions| == Count * 6
    requires forall k :: 0 <= k < |draws| ==> 0.0 <= draws[k] < 1.0
    requires forall i :: 0 <= i < Count ==>
               DropAt(positions, i) == InitialDrop(draws[3 * i], draws[3 * i + 1], draws[3 * i + 2])
    ensures Healthy(positions)
  {
    forall i | 0 <= i < Count
      ensures DropAt(positions, i).start.y - DropAt(positions, i).end.y == 10.0
      ensures -50.0 <= DropAt(positions, i).start.y <= 500.0
    {
      var d := InitialDrop(draws[3 * i], draws[3 * i + 1], draws[3 * i + 2]);
      assert 0.0 <= draws[3 * i + 1] < 1.0;
      assert DropAt(positions, i) == d;
    }
  }

  /**
   * One `useFrame` callback on the buffer behind `rainRef` (`null` while the ref is unset,
   * and then nothing happens): every drop falls one frame.
   */
  method Update(positions: array?<real>)
    requires positions != null ==> positions.Length == Count * 6
    modifies positions
    ensures positions != null ==>
              forall i :: 0 <= i < Count ==> DropAt(positions[..], i) == Fall(DropAt(old(positions[..]), i))
    ensures positions != null && Healthy(old(positions[..])) ==> Healthy(positions[..])
  {
    if positions == null {
      return;
    }
    for i := 0 to Count
      invariant forall j :: 0 <= j < i ==>
                  DropAt(positions[..], j) == Fall(DropAt(old(positions[..]), j))
      invariant forall j :: i <= j < Count ==> DropAt(positions[..], j) == DropAt(old(positions[..]), j)
    {
      FallDrop(positions, i);
    }
    if Healthy(old(positions[..])) {
      FallKeepsHealthy(old(positions[..]), positions[..]);
    }
  }

  /** The loop body for drop i: its start and end y fall by 2, or reset to 500 and 490. */
  method FallDrop(positions: array<real>, i: nat)
    requires positions.Length == Count * 6 && i < Count
    modifies positions
    ensures DropAt(positions[..], i) == Fall(DropAt(old(positions[..]), i))
    ensures forall j :: 0 <= j < Count && j != i ==> DropAt(positions[..], j) == DropAt(old(positions[..]), j)
  {
    positions[i * 6 + 1] := positions[i * 6 + 1] - 2.0;
    positions[i * 6 + 4] := positions[i * 6 + 4] - 2.0;
    if positions[i * 6 + 1] < -50.0 {
      positions[i * 6 + 1] := 500.0;
      positions[i * 6 + 4] := 490.0;
    }
    assert forall k :: 0 <= k < positions.Length && (k < i * 6 || k >= i * 6 + 6) ==> positions[k] == old(positions[k]);
  }
}
