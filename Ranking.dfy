/**
 * The three steps that turn merged leaderboard rows into the table, shared by
 * PositionsTable.jsx (`getDriverPositions`) and Timing.jsx (the render body):
 * keep the first row per driver, sort by position, and renumber repeated positions.
 */
module Ranking {

  import opened RaceData

  // ---------------------------------------------------------------------------------------
  // De-duplication: `rows.reduce((acc, lap) => acc.some(d => d.Driver === lap.Driver) ? acc : [...acc, lap], [])`

  function DedupeByDriver(rows: seq<Row>): seq<Row>
  {
    if rows == [] then []
    else
      var acc := DedupeByDriver(rows[..|rows| - 1]);
      var r := rows[|rows| - 1];
      if r.driver in Drivers(acc) then acc else acc + [r]
  }

  /** Row `i` is the first row of its driver. */
  predicate FirstOfDriver(rows: seq<Row>, i: nat)
    requires i < |rows|
  {
    forall k :: 0 <= k < i ==> rows[k].driver != rows[i].driver
  }

  predicate DistinctDrivers(rows: seq<Row>)
  {
    forall i, j :: 0 <= i < j < |rows| ==> rows[i].driver != rows[j].driver
  }

  /** De-duplication leaves pairwise distinct drivers, and exactly the drivers of the input. */
  lemma {:induction false} DedupeDrivers(rows: seq<Row>)
    ensures DistinctDrivers(DedupeByDriver(rows))
    ensures forall d :: d in Drivers(DedupeByDriver(rows)) <==> d in Drivers(rows)
  {
    if rows != [] {
      var n := |rows| - 1;
      var front := rows[..n];
      DedupeDrivers(front);
      var acc := DedupeByDriver(front);
      var r := rows[n];
      assert Drivers(rows) == Drivers(front) + [r.driver];
      if r.driver !in Drivers(acc) {
        AppendNewDriver(acc, r);
      }
    }
  }

  /** Appending a row of a new driver keeps the drivers distinct and adds that driver. */
  lemma AppendNewDriver(acc: seq<Row>, r: Row)
    requires DistinctDrivers(acc) && r.driver !in Drivers(acc)
    ensures DistinctDrivers(acc + [r])
    ensures Drivers(acc + [r]) == Drivers(acc) + [r.driver]
  {
    var out := acc + [r];
    assert Drivers(out) == Drivers(acc) + [r.driver];
    forall j1, j2 | 0 <= j1 < j2 < |out| ensures out[j1].driver != out[j2].driver {
      if j2 == |acc| {
        assert out[j1].driver == Drivers(acc)[j1];
      }
    }
  }

  /** `out` is `rows` at the increasing indices `idx`, each the first row of its driver. */
  predicate Selects(rows: seq<Row>, out: seq<Row>, idx: seq<nat>)
  {
    && |idx| == |out|
    && (forall j :: 0 <= j < |idx| ==> idx[j] < |rows| && out[j] == rows[idx[j]] && FirstOfDriver(rows, idx[j]))
    && (forall j1, j2 :: 0 <= j1 < j2 < |idx| ==> idx[j1] < idx[j2])
  }

  /**
   * De-duplication keeps exactly the first row of every driver, in input order: the result
   * is the input restricted to an increasing list of indices, each the first row of its driver.
   */
  lemma {:induction false} DedupeKeepsFirstRows(rows: seq<Row>) returns (idx: seq<nat>)
    ensures Selects(rows, DedupeByDriver(rows), idx)
  {
    if rows == [] {
      idx := [];
    } else {
      var n := |rows| - 1;
      var front := rows[..n];
      var idx0 := DedupeKeepsFirstRows(front);
      var acc := DedupeByDriver(front);
      SelectsInLongerRows(rows, n, acc, idx0);
      if rows[n].driver in Drivers(acc) {
        idx := idx0;
      } else {
        DedupeDrivers(front);
        LastNewIsFirst(rows);
        idx := idx0 + [n];
        SelectsAppend(rows, acc, idx0);
      }
    }
  }

  /** A selection from a prefix `rows[..n]` is a selection from `rows`, below n. */
  lemma SelectsInLongerRows(rows: seq<Row>, n: nat, out: seq<Row>, idx: seq<nat>)
    requires n <= |rows| && Selects(rows[..n], out, idx)
    ensures Selects(rows, out, idx)
    ensures forall j :: 0 <= j < |idx| ==> idx[j] < n
  {
    forall j | 0 <= j < |idx| ensures out[j] == rows[idx[j]] && FirstOfDriver(rows, idx[j]) {
      FirstInPrefix(rows, n, idx[j]);
    }
  }

  /** Appending the last row, the first of its driver, extends a selection below it. */
  lemma SelectsAppend(rows: seq<Row>, out: seq<Row>, idx: seq<nat>)
    requires |rows| > 0 && Selects(rows, out, idx) && FirstOfDriver(rows, |rows| - 1)
    requires forall j :: 0 <= j < |idx| ==> idx[j] < |rows| - 1
    ensures Selects(rows, out + [rows[|rows| - 1]], idx + [|rows| - 1])
  {
  }

  /** A first row of the prefix `rows[..n]` is a first row of `rows`. */
  lemma FirstInPrefix(rows: seq<Row>, n: nat, i: nat)
    requires i < n <= |rows| && FirstOfDriver(rows[..n], i)
    ensures FirstOfDriver(rows, i)
  {
    assert forall k :: 0 <= k < i ==> rows[..n][k] == rows[k];
  }

  /** The last row is the first of its driver when no earlier row has that driver. */
  lemma LastNewIsFirst(rows: seq<Row>)
    requires |rows| > 0 && rows[|rows| - 1].driver !in Drivers(rows[..|rows| - 1])
    ensures FirstOfDriver(rows, |rows| - 1)
  {
    var n := |rows| - 1;
    forall k | 0 <= k < n ensures rows[k].driver != rows[n].driver {
      assert Drivers(rows[..n])[k] == rows[k].driver;
    }
  }

  // ---------------------------------------------------------------------------------------
  // Sorting: the comparator puts "DNF" last, "Finished" first and numbers in ascending order.

  /** The comparator's classes: "Finished" rows, numeric rows, "DNF" rows. */
  function Rank(p: Position): nat
  {
    match p
    case Finished => 0
    case Num(_) => 1
    case DNF => 2
  }

  /** `a` may stand before `b`: the comparator does not ask to swap them. */
  predicate InOrder(a: Position, b: Position)
  {
    Rank(a) < Rank(b) || (Rank(a) == Rank(b) && (a.Num? && b.Num? ==> a.n <= b.n))
  }

  predicate Sorted(rows: seq<Row>)
  {
    forall i, j :: 0 <= i < j < |rows| ==> InOrder(rows[i].position, rows[j].position)
  }

  /** Inserts `r` before the first row it may precede; rows equal to `r` stay behind it. */
  function Insert(r: Row, sorted: seq<Row>): seq<Row>
  {
    if sorted == [] || InOrder(r.position, sorted[0].position) then [r] + sorted
    else [sorted[0]] + Insert(r, sorted[1..])
  }

  /** `Array.prototype.sort` with that comparator, as a stable insertion sort. */
  function SortRows(rows: seq<Row>): seq<Row>
  {
    if rows == [] then [] else Insert(rows[0], SortRows(rows[1..]))
  }

  lemma {:induction false} InsertSorted(r: Row, sorted: seq<Row>)
    requires Sorted(sorted)
    ensures Sorted(Insert(r, sorted))
    ensures multiset(Insert(r, sorted)) == multiset(sorted) + multiset{r}
    decreases |sorted|
  {
    if sorted == [] || InOrder(r.position, sorted[0].position) {
      PrependSorted(r, sorted);
    } else {
      var rest := sorted[1..];
      assert sorted == [sorted[0]] + rest;
      InsertSorted(r, rest);
      PrependBeforeAll(sorted[0], r, rest, Insert(r, rest));
    }
  }

  /** A row that may precede the first row of sorted rows may precede them all. */
  lemma PrependSorted(r: Row, sorted: seq<Row>)
    requires Sorted(sorted) && (sorted == [] || InOrder(r.position, sorted[0].position))
    ensures Sorted([r] + sorted)
  {
    var out := [r] + sorted;
    forall i, j | 0 <= i < j < |out| ensures InOrder(out[i].position, out[j].position) {
      if i == 0 {
        assert out[j] == sorted[j - 1];
        assert InOrder(sorted[0].position, sorted[j - 1].position) || j == 1;
      }
    }
  }

  /**
   * The head `x` of sorted rows `[x] + rest`, which `r` may not precede, may precede every
   * row of a sorted `ins` made of `rest` and `r`.
   */
  lemma PrependBeforeAll(x: Row, r: Row, rest: seq<Row>, ins: seq<Row>)
    requires Sorted([x] + rest) && !InOrder(r.position, x.position)
    requires Sorted(ins) && multiset(ins) == multiset(rest) + multiset{r}
    ensures Sorted([x] + ins)
  {
    var out := [x] + ins;
    forall i, j | 0 <= i < j < |out| ensures InOrder(out[i].position, out[j].position) {
      if i == 0 {
        var y := out[j];
        assert y in multiset(ins);
        if y == r {
          assert InOrder(x.position, r.position);
        } else {
          assert y in rest;
          var k :| 0 <= k < |rest| && rest[k] == y;
          assert ([x] + rest)[0] == x && ([x] + rest)[k + 1] == y;
        }
      } else {
        assert out[i] == ins[i - 1] && out[j] == ins[j - 1];
      }
    }
  }

  /** The sorted rows are a permutation of the input, ordered "Finished", numbers ascending, "DNF". */
  lemma {:induction false} SortRowsSortedPermutation(rows: seq<Row>)
    ensures Sorted(SortRows(rows))
    ensures multiset(SortRows(rows)) == multiset(rows)
  {
    if rows != [] {
      SortRowsSortedPermutation(rows[1..]);
      InsertSorted(rows[0], SortRows(rows[1..]));
      assert rows == [rows[0]] + rows[1..];
    }
  }

  lemma {:induction false} InsertDrivers(r: Row, sorted: seq<Row>)
    ensures forall d :: d in Drivers(Insert(r, sorted)) <==> d == r.driver || d in Drivers(sorted)
    ensures DistinctDrivers(sorted) && r.driver !in Drivers(sorted) ==> DistinctDrivers(Insert(r, sorted))
    decreases |sorted|
  {
    var out := Insert(r, sorted);
    if sorted == [] || InOrder(r.position, sorted[0].position) {
      assert Drivers(out) == [r.driver] + Drivers(sorted);
    } else {
      var rest := sorted[1..];
      InsertDrivers(r, rest);
      assert Drivers(sorted) == [sorted[0].driver] + Drivers(rest);
      assert Drivers(out) == [sorted[0].driver] + Drivers(Insert(r, rest));
      if DistinctDrivers(sorted) && r.driver !in Drivers(sorted) {
        assert DistinctDrivers(rest);
        forall j1, j2 | 0 <= j1 < j2 < |out| ensures out[j1].driver != out[j2].driver {
          if j1 == 0 {
            assert out[j2].driver == Drivers(Insert(r, rest))[j2 - 1];
            assert sorted[0].driver !in Drivers(rest);
          } else {
            assert out[j1] == Insert(r, rest)[j1 - 1] && out[j2] == Insert(r, rest)[j2 - 1];
          }
        }
      }
    }
  }

  /** Sorting keeps the set of drivers, and rows with distinct drivers stay distinct. */
  lemma {:induction false} SortRowsDrivers(rows: seq<Row>)
    ensures forall d :: d in Drivers(SortRows(rows)) <==> d in Drivers(rows)
    ensures DistinctDrivers(rows) ==> DistinctDrivers(SortRows(rows))
  {
    if rows != [] {
      var rest := rows[1..];
      SortRowsDrivers(rest);
      InsertDrivers(rows[0], SortRows(rest));
      assert Drivers(rows) == [rows[0].driver] + Drivers(rest);
    }
  }

  /** In sorted rows no "DNF" row precedes a non-"DNF" row and no numeric row precedes a "Finished" row. */
  lemma SortedGroups(rows: seq<Row>)
    requires Sorted(rows)
    ensures forall i, j :: 0 <= i < j < |rows| && rows[i].position == DNF ==> rows[j].position == DNF
    ensures forall i, j :: 0 <= i < j < |rows| && rows[j].position == Finished ==>
                             rows[i].position == Finished
  {
  }

  // ---------------------------------------------------------------------------------------
  // Duplicate-position repair: `rows.forEach((lap, index) => { if (seen.has(lap.Position))
  // lap.Position = index + 1; seen.add(lap.Position); })`

  function PositionSet(rows: seq<Row>): set<Position>
  {
    set i | 0 <= i < |rows| :: rows[i].position
  }

  lemma PositionSetAppend(rows: seq<Row>, r: Row)
    ensures PositionSet(rows + [r]) == PositionSet(rows) + {r.position}
  {
    var both := rows + [r];
    assert forall i :: 0 <= i < |rows| ==> both[i] == rows[i];
    assert both[|rows|] == r;
  }

  /** The repaired rows: the forEach as a fold over the prefix. */
  function Repaired(rows: seq<Row>): (out: seq<Row>)
    ensures |out| == |rows|
  {
    if rows == [] then []
    else
      var acc := Repaired(rows[..|rows| - 1]);
      var r := rows[|rows| - 1];
      if r.position in PositionSet(acc) then acc + [r.(position := Num(|rows|))] else acc + [r]
  }

  /** The rule per row: a row whose position already appeared among the repaired rows before it gets index+1. */
  predicate RepairedAt(rows: seq<Row>, out: seq<Row>, i: nat)
    requires i < |rows| && |out| == |rows|
  {
    out[i] == if rows[i].position in PositionSet(out[..i]) then rows[i].(position := Num(i + 1))
              else rows[i]
  }

  /** Repair keeps the length and the order; only a repeated position is replaced, by index+1. */
  lemma {:induction false} RepairedRule(rows: seq<Row>)
    ensures |Repaired(rows)| == |rows|
    ensures forall i :: 0 <= i < |rows| ==> RepairedAt(rows, Repaired(rows), i)
    ensures Drivers(Repaired(rows)) == Drivers(rows)
  {
    if rows != [] {
      var n := |rows| - 1;
      var front := rows[..n];
      RepairedRule(front);
      var out := Repaired(rows);
      assert out[..n] == Repaired(front);
      forall i | 0 <= i < n ensures RepairedAt(rows, out, i) {
        RepairedAtInLonger(rows, out, n, i);
      }
      assert RepairedAt(rows, out, n);
    }
    RepairKeepsDrivers(rows, Repaired(rows));
  }

  /** The rule at row i of a prefix holds at row i of the whole. */
  lemma RepairedAtInLonger(rows: seq<Row>, out: seq<Row>, n: nat, i: nat)
    requires i < n <= |rows| == |out| && RepairedAt(rows[..n], out[..n], i)
    ensures RepairedAt(rows, out, i)
  {
    assert out[..n][..i] == out[..i];
  }

  /** The rule changes positions only, so every row keeps its driver. */
  lemma RepairKeepsDrivers(rows: seq<Row>, out: seq<Row>)
    requires |out| == |rows| && forall i :: 0 <= i < |rows| ==> RepairedAt(rows, out, i)
    ensures Drivers(out) == Drivers(rows)
  {
    forall i | 0 <= i < |rows| ensures Drivers(out)[i] == Drivers(rows)[i] {
      assert RepairedAt(rows, out, i);
    }
  }

  /** Repair never leaves two "DNF" rows or two "Finished" rows: every repeated position is numeric. */
  lemma {:induction false} RepairedRepeatsAreNumeric(rows: seq<Row>)
    ensures forall i, j ::
              0 <= i < j < |rows| && Repaired(rows)[i].position == Repaired(rows)[j].position
              ==> Repaired(rows)[i].position.Num?
  {
    RepairedRule(rows);
    var out := Repaired(rows);
    forall i, j | 0 <= i < j < |out| && out[i].position == out[j].position
      ensures out[i].position.Num?
    {
      assert RepairedAt(rows, out, j);
      assert out[i].position in PositionSet(out[..j]) by { assert out[..j][i] == out[i]; }
    }
  }

  /** No numeric position exceeds its row's index+1 (the leader at 1, and so on). */
  predicate WithinIndex(rows: seq<Row>)
  {
    forall i :: 0 <= i < |rows| && rows[i].position.Num? ==> rows[i].position.n <= i + 1
  }

  predicate DistinctPositions(rows: seq<Row>)
  {
    forall i, j :: 0 <= i < j < |rows| ==> rows[i].position != rows[j].position
  }

  /**
   * When no numeric position exceeds its row's index+1, the repaired positions are pairwise
   * distinct, and they still do not exceed index+1.
   */
  lemma {:induction false} RepairedDistinct(rows: seq<Row>)
    requires WithinIndex(rows)
    ensures WithinIndex(Repaired(rows)) && DistinctPositions(Repaired(rows))
  {
    if rows != [] {
      var n := |rows| - 1;
      var front := rows[..n];
      assert WithinIndex(front) by {
        forall i | 0 <= i < n ensures front[i] == rows[i] { }
      }
      RepairedDistinct(front);
      RepairAppendDistinct(Repaired(front), rows[n]);
    }
  }

  /** The last step of the fold keeps positions within index+1 and pairwise distinct. */
  lemma RepairAppendDistinct(acc: seq<Row>, r: Row)
    requires WithinIndex(acc) && DistinctPositions(acc)
    requires r.position.Num? ==> r.position.n <= |acc| + 1
    ensures var last := if r.position in PositionSet(acc) then r.(position := Num(|acc| + 1)) else r;
            WithinIndex(acc + [last]) && DistinctPositions(acc + [last])
  {
    var last := if r.position in PositionSet(acc) then r.(position := Num(|acc| + 1)) else r;
    var out := acc + [last];
    forall i, j | 0 <= i < j < |out| ensures out[i].position != out[j].position {
      if j == |acc| {
        assert out[i] == acc[i];
        if r.position !in PositionSet(acc) {
          assert acc[i].position in PositionSet(acc);
        }
      }
    }
  }

  /** Repair does not always make positions distinct: two rows at position 2 stay at 2. */
  lemma RepairKeepsDuplicateTwo(a: Row, b: Row)
    requires a.position == Num(2) && b.position == Num(2)
    ensures Repaired([a, b])[0].position == Num(2) && Repaired([a, b])[1].position == Num(2)
  {
    assert [a, b][..1] == [a];
    assert Repaired([a]) == [a];
    assert PositionSet([a]) == {Num(2)};
  }

  /** The forEach itself: a loop that tracks the positions seen so far in a set. */
  method RepairPositions(rows: seq<Row>) returns (out: seq<Row>)
    ensures |out| == |rows|
    ensures forall i :: 0 <= i < |rows| ==> RepairedAt(rows, out, i)
    ensures out == Repaired(rows)
  {
    out := [];
    var seen: set<Position> := {};
    for index := 0 to |rows|
      invariant |out| == index
      invariant out == Repaired(rows[..index])
      invariant seen == PositionSet(out)
    {
      var lap := rows[index];
      assert rows[..index + 1][..index] == rows[..index];
      if lap.position in seen {
        lap := lap.(position := Num(index + 1));
      }
      PositionSetAppend(out, lap);
      seen := seen + {lap.position};
      out := out + [lap];
    }
    assert rows[..|rows|] == rows;
    RepairedRule(rows);
  }

  // ---------------------------------------------------------------------------------------
  // The three steps together

  /** De-duplicate, sort, repair: the table built from merged rows. */
  function Ranked(rows: seq<Row>): seq<Row>
  {
    Repaired(SortRows(DedupeByDriver(rows)))
  }

  /** The table lists every driver of the input exactly once, and no one else. */
  lemma RankedDrivers(rows: seq<Row>)
    ensures DistinctDrivers(Ranked(rows))
    ensures forall d :: d in Drivers(Ranked(rows)) <==> d in Drivers(rows)
  {
    var unique := DedupeByDriver(rows);
    DedupeDrivers(rows);
    SortRowsDrivers(unique);
    RepairedRule(SortRows(unique));
    SameDriversDistinct(Ranked(rows), SortRows(unique));
  }

  lemma SameDriversDistinct(a: seq<Row>, b: seq<Row>)
    requires Drivers(a) == Drivers(b) && DistinctDrivers(b)
    ensures DistinctDrivers(a)
  {
    forall i, j | 0 <= i < j < |a| ensures a[i].driver != a[j].driver {
      assert Drivers(a)[i] == Drivers(b)[i] && Drivers(a)[j] == Drivers(b)[j];
    }
  }
}
