/**
 * The timing page of Timing.jsx: its component state (lap records, stream, current lap, lap
 * count, session time), the handler that stores the fetched data, the one-second clock, the
 * effect that raises the current lap, the skip button and the table's ranking. The request
 * itself is not modelled; the handler receives the fetched values as parameters, and the wall
 * clock is the parameter `now`, in milliseconds.
 */
module Timing {

  import opened RaceData
  import opened Ranking

  // ---------------------------------------------------------------------------------------
  // The two reduces over the lap records

  /**
   * `data.reduce((prev, current) => prev.NumberOfLaps > current.NumberOfLaps ? prev : current)`:
   * a reduce without an initial value, which throws on an empty array (here `None`).
   */
  function MaxLapsRecord(laps: seq<LapRecord>): Option<LapRecord>
  {
    if laps == [] then None
    else
      var current := laps[|laps| - 1];
      match MaxLapsRecord(laps[..|laps| - 1])
      case None => Some(current)
      case Some(prev) => if prev.numberOfLaps > current.numberOfLaps then Some(prev) else Some(current)
  }

  /**
   * The reduce fails exactly on no records; otherwise it returns the record at an index `k`
   * with the greatest lap count, and no later record has as many laps (ties go to the later record).
   */
  lemma {:induction false} MaxLapsRecordSpec(laps: seq<LapRecord>) returns (k: nat)
    ensures MaxLapsRecord(laps).None? <==> laps == []
    ensures laps != [] ==>
              && k < |laps| && laps[k] == MaxLapsRecord(laps).value
              && (forall i :: 0 <= i < |laps| ==> laps[i].numberOfLaps <= laps[k].numberOfLaps)
              && (forall i :: k < i < |laps| ==> laps[i].numberOfLaps < laps[k].numberOfLaps)
  {
    k := 0;
    if laps != [] {
      var front := laps[..|laps| - 1];
      var current := laps[|laps| - 1];
      var k0 := MaxLapsRecordSpec(front);
      assert forall i :: 0 <= i < |front| ==> front[i] == laps[i];
      match MaxLapsRecord(front)
      case None => k := 0;
      case Some(prev) =>
        if prev.numberOfLaps > current.numberOfLaps { k := k0; } else { k := |laps| - 1; }
    }
  }

  /** `lapsData.reduce((maxLap, lap) => time >= lap.Time && lap.NumberOfLaps > maxLap ? lap.NumberOfLaps : maxLap, 0)`. */
  function MaxCompletedLap(laps: seq<LapRecord>, time: real): int
  {
    if laps == [] then 0
    else
      var maxLap := MaxCompletedLap(laps[..|laps| - 1], time);
      var lap := laps[|laps| - 1];
      if time >= lap.time && lap.numberOfLaps > maxLap then lap.numberOfLaps else maxLap
  }

  /**
   * The result is the greatest lap count among the records whose time has been reached, or 0
   * when there is none or all of them are at most 0.
   */
  lemma {:induction false} MaxCompletedLapSpec(laps: seq<LapRecord>, time: real)
    ensures MaxCompletedLap(laps, time) >= 0
    ensures forall i :: 0 <= i < |laps| && laps[i].time <= time ==>
                          laps[i].numberOfLaps <= MaxCompletedLap(laps, time)
    ensures MaxCompletedLap(laps, time) == 0
            || exists i :: 0 <= i < |laps| && laps[i].time <= time
                             && laps[i].numberOfLaps == MaxCompletedLap(laps, time)
  {
    if laps != [] {
      var front := laps[..|laps| - 1];
      MaxCompletedLapSpec(front, time);
      assert forall i :: 0 <= i < |front| ==> front[i] == laps[i];
    }
  }

  /**
   * After a skip to the time of the record of lap n, the lap effect can raise the current lap
   * to at least n: that record's time has been reached.
   */
  lemma SkipReachesLap(laps: seq<LapRecord>, n: int)
    requires FindLap(laps, n).Some?
    ensures MaxCompletedLap(laps, FindLap(laps, n).value.time) >= n
  {
    var rec := FindLap(laps, n).value;
    var k :| 0 <= k < |laps| && laps[k] == rec && rec.numberOfLaps == n;
    MaxCompletedLapSpec(laps, rec.time);
  }

  // ---------------------------------------------------------------------------------------
  // getCurrentPositionData

  /**
   * The driver's latest stream entry at or before `time`, or all-"DNF" fields when there is
   * none; gap and interval read "Finished" on the final lap once the driver has a record of it.
   */
  function PositionDataAt(laps: seq<LapRecord>, stream: seq<StreamEntry>, currentLap: int,
                          maxLaps: int, time: real, driver: string): PositionData
  {
    match LatestEntry(stream, driver, Some(time))
    case None => PositionData(DNF, "DNF", "DNF")
    case Some(e) =>
      if currentLap == maxLaps && exists l :: l in laps && l.driver == driver && l.numberOfLaps == maxLaps
      then PositionData(Num(e.position), "Finished", "Finished")
      else EntryData(e)
  }

  /**
   * Without an entry of the driver at or before the time all three fields read "DNF"; with
   * one, the position is that of the driver's latest such entry, and gap and interval are the
   * entry's own except on the final lap for a driver with a record of it, where they read "Finished".
   */
  lemma PositionDataAtSpec(laps: seq<LapRecord>, stream: seq<StreamEntry>, currentLap: int,
                           maxLaps: int, time: real, driver: string)
    ensures var r := PositionDataAt(laps, stream, currentLap, maxLaps, time, driver);
            && ((forall i :: 0 <= i < |stream| ==> !(stream[i].driver == driver && stream[i].time <= time))
                  <==> r == PositionData(DNF, "DNF", "DNF"))
            && (r.position != DNF ==>
                  exists k :: 0 <= k < |stream| && stream[k].driver == driver && stream[k].time <= time
                    && (forall i :: (0 <= i < |stream| && stream[i].driver == driver && stream[i].time <= time)
                                      ==> stream[i].time <= stream[k].time)
                    && r.position == Num(stream[k].position)
                    && (if currentLap == maxLaps
                           && exists l :: l in laps && l.driver == driver && l.numberOfLaps == maxLaps
                        then r.gap == "Finished" && r.interval == "Finished"
                        else r == EntryData(stream[k])))
  {
    LatestEntryNone(stream, driver, Some(time));
    if LatestEntry(stream, driver, Some(time)).Some? {
      var k := LatestEntryIsLatest(stream, driver, Some(time));
      assert Eligible(stream[k], driver, Some(time));
    }
  }

  // ---------------------------------------------------------------------------------------
  // The table's ranking

  /** `combinedData`: every lap record merged with its driver's position data. */
  function CombinedRows(laps: seq<LapRecord>, stream: seq<StreamEntry>, currentLap: int,
                        maxLaps: int, time: real): (rows: seq<Row>)
    ensures Drivers(rows) == seq(|laps|, i requires 0 <= i < |laps| => laps[i].driver)
    ensures forall i :: 0 <= i < |rows| ==> rows[i].position != Finished
  {
    seq(|laps|, i requires 0 <= i < |laps| =>
      Merge(laps[i].driver, laps[i].teamColor,
            PositionDataAt(laps, stream, currentLap, maxLaps, time, laps[i].driver)))
  }

  /**
   * The page's comparator: "DNF" after everything, otherwise the difference of the positions.
   * A difference with "Finished" is `NaN`, which the sort reads as 0.
   */
  function TimingCompare(a: Position, b: Position): int
  {
    if a == DNF then 1
    else if b == DNF then -1
    else if a.Num? && b.Num? then a.n - b.n
    else 0
  }

  /**
   * On the positions this page produces (numbers and "DNF"), its comparator orders two
   * different kinds of position, or two numbers, exactly as the leaderboard's order does; for
   * two "DNF" rows it contradicts itself, and the sort keeps their order.
   */
  lemma TimingCompareAgrees(a: Position, b: Position)
    requires a != Finished && b != Finished && !(a == DNF && b == DNF)
    ensures TimingCompare(a, b) <= 0 <==> InOrder(a, b)
  {
  }

  /** The table's rows: one per driver, sorted, repeated positions renumbered. */
  function TimingBoard(laps: seq<LapRecord>, stream: seq<StreamEntry>, currentLap: int,
                       maxLaps: int, time: real): seq<Row>
  {
    Ranked(CombinedRows(laps, stream, currentLap, maxLaps, time))
  }

  /** The table lists every driver with a lap record exactly once, and nobody else. */
  lemma TimingBoardDrivers(laps: seq<LapRecord>, stream: seq<StreamEntry>, currentLap: int,
                           maxLaps: int, time: real)
    ensures DistinctDrivers(TimingBoard(laps, stream, currentLap, maxLaps, time))
    ensures forall d :: d in Drivers(TimingBoard(laps, stream, currentLap, maxLaps, time)) <==>
                          exists l :: l in laps && l.driver == d
  {
    var combined := CombinedRows(laps, stream, currentLap, maxLaps, time);
    RankedDrivers(combined);
    forall d ensures d in Drivers(combined) <==> exists l :: l in laps && l.driver == d {
      if d in Drivers(combined) {
        var i :| 0 <= i < |Drivers(combined)| && Drivers(combined)[i] == d;
        assert laps[i] in laps;
      }
      if l :| l in laps && l.driver == d {
        var i :| 0 <= i < |laps| && laps[i] == l;
        assert Drivers(combined)[i] == d;
      }
    }
  }

  /**
   * The repair runs after the sort, so it can leave a "DNF" row above a numeric one: of two
   * "DNF" rows behind the leader, the second is renumbered 3 and stays below the first.
   */
  lemma RepairCanLiftDnfAboveNumber(a: Row, b: Row, c: Row)
    requires a.position == Num(1) && b.position == DNF && c.position == DNF
    ensures Repaired([a, b, c])[1].position == DNF
    ensures Repaired([a, b, c])[2].position == Num(3)
  {
    var rows := [a, b, c];
    assert rows[..1] == [a] && rows[..2] == [a, b];
    assert [a][..0] == [];
    assert Repaired([a]) == [a];
    assert PositionSet([a]) == {Num(1)};
    assert Repaired([a, b]) == [a, b];
    assert PositionSet([a, b]) == {Num(1), DNF};
  }

  // ---------------------------------------------------------------------------------------
  // The component state

  class TimingPage {
    var lapsData: seq<LapRecord>
    var streamData: seq<StreamEntry>
    var currentLap: int
    var maxLaps: int
    var time: real
    var startTime: real
    var dataLoaded: bool
    var requestMade: bool
    /** `startTimestamp.current`; its initial `null` counts as 0 in the clock's subtraction. */
    var startTimestamp: real

    constructor ()
      ensures lapsData == [] && streamData == [] && currentLap == 0 && maxLaps == 0
      ensures time == 0.0 && startTime == 0.0 && !dataLoaded && !requestMade
      ensures startTimestamp == 0.0
    {
      lapsData, streamData, currentLap, maxLaps := [], [], 0, 0;
      time, startTime, dataLoaded, requestMade := 0.0, 0.0, false, false;
      startTimestamp := 0.0;
    }

    /** The mount effect sends the request once: it only raises the `requestMade` flag here. */
    method Mount() returns (send: bool)
      modifies this`requestMade
      ensures send == !old(requestMade) && requestMade
    {
      send := !requestMade;
      requestMade := true;
    }

    /**
     * The response handler: store the records and the stream and set lap 1; on an empty list
     * of records the lap-count reduce throws and nothing more happens; otherwise set the lap
     * count, start the clock at the session start and mark the data loaded.
     */
    method OnResponse(laps: seq<LapRecord>, stream: seq<StreamEntry>, sessionStart: real, now: real)
      modifies this`lapsData, this`streamData, this`currentLap, this`maxLaps, this`startTime,
               this`time, this`dataLoaded, this`startTimestamp
      ensures lapsData == laps && streamData == stream && currentLap == 1
      ensures laps == [] ==> maxLaps == old(maxLaps) && startTime == old(startTime)
                             && time == old(time) && dataLoaded == old(dataLoaded)
                             && startTimestamp == old(startTimestamp)
      ensures laps != [] ==> (maxLaps == MaxLapsRecord(laps).value.numberOfLaps
                              && startTime == sessionStart && time == sessionStart
                              && dataLoaded && startTimestamp == now)
    {
      lapsData := laps;
      streamData := stream;
      currentLap := 1;
      var driverWithMaxLaps := MaxLapsRecord(laps);
      if driverWithMaxLaps.None? {
        return;
      }
      maxLaps := driverWithMaxLaps.value.numberOfLaps;
      startTime := sessionStart;
      time := sessionStart;
      dataLoaded := true;
      startTimestamp := now;
    }

    /** The one-second interval: the start time plus the whole seconds since the clock started. */
    method ClockTick(now: real)
      modifies this`time
      ensures dataLoaded ==> time == startTime + ((now - startTimestamp) / 1000.0).Floor as real
      ensures !dataLoaded ==> time == old(time)
    {
      if dataLoaded {
        time := startTime + ((now - startTimestamp) / 1000.0).Floor as real;
      }
    }

    /** The lap effect: the current lap is raised to the greatest completed lap, never lowered. */
    method SyncLap()
      modifies this`currentLap
      ensures var m := MaxCompletedLap(lapsData, time);
              currentLap == (if m > old(currentLap) then m else old(currentLap))
      ensures currentLap >= old(currentLap)
    {
      var maxCompletedLap := MaxCompletedLap(lapsData, time);
      if maxCompletedLap > currentLap {
        currentLap := maxCompletedLap;
      }
    }

    /** Skip: jump the time to the record of the next lap; without one nothing changes. */
    method SkipNextLap()
      modifies this`time
      ensures var next := FindLap(lapsData, currentLap + 1);
              time == if next.Some? then next.value.time else old(time)
    {
      var nextLap := FindLap(lapsData, currentLap + 1);
      if nextLap.Some? {
        time := nextLap.value.time;
      }
    }

    /** The skip followed by the lap effect reaches the next lap whenever it has a record. */
    method SkipThenSync()
      modifies this`time, this`currentLap
      ensures FindLap(lapsData, old(currentLap) + 1).Some? ==> currentLap >= old(currentLap) + 1
      ensures currentLap >= old(currentLap)
    {
      SkipNextLap();
      SyncLap();
      if FindLap(lapsData, old(currentLap) + 1).Some? {
        SkipReachesLap(lapsData, old(currentLap) + 1);
      }
    }

    /** The render body's ranking: merge, de-duplicate, sort, then repair positions in one pass. */
    method Rows() returns (rows: seq<Row>)
      ensures rows == TimingBoard(lapsData, streamData, currentLap, maxLaps, time)
    {
      var combinedData := CombinedRows(lapsData, streamData, currentLap, maxLaps, time);
      var allDrivers := DedupeByDriver(combinedData);
      var sortedLapsData := SortRows(allDrivers);
      rows := RepairPositions(sortedLapsData);
    }
  }
}
