/**
 * The leaderboard of PositionsTable.jsx: the clock tick that publishes the session time and
 * picks the current lap, the per-driver position lookup, the ranking pipeline behind
 * `getDriverPositions`, and the skip-to-next-lap button. The wall clock (`Date.now()`) is the
 * parameter `now`, in milliseconds.
 */
module PositionsTable {

  import opened RaceData
  import opened Ranking
  import opened Store

  /** The store fields the lookup and the ranking read. */
  datatype RaceFeed = RaceFeed(lapsData: seq<LapRecord>, streamData: seq<StreamEntry>,
                               completedLapsData: Dict<int>, driverStatusData: Dict<string>,
                               maxLaps: int, sessionEndTime: real)

  function FeedOf(s: RaceStore): RaceFeed
    reads s`lapsData, s`streamData, s`completedLapsData, s`driverStatusData, s`maxLaps,
          s`sessionEndTime
  {
    RaceFeed(s.lapsData, s.streamData, s.completedLapsData, s.driverStatusData, s.maxLaps,
             s.sessionEndTime)
  }

  // ---------------------------------------------------------------------------------------
  // getCurrentPositionData

  /** The fields used when the driver has no stream entry yet: by status and completed laps. */
  function Fallback(f: RaceFeed, driver: string): PositionData
  {
    if Lookup(f.driverStatusData, driver) == Some("DNF") then PositionData(DNF, "DNF", "DNF")
    else if Lookup(f.completedLapsData, driver) == Some(f.maxLaps - 1) then
      PositionData(Num(|f.lapsData| + 1), "+1 Lap", "+1 Lap")
    else PositionData(Num(|f.lapsData| + 1), "Finished", "Finished")
  }

  /** The entry's fields with gap and interval both replaced by `text`. */
  function Labelled(e: StreamEntry, text: string): PositionData
  {
    PositionData(Num(e.position), text, text)
  }

  function CurrentPositionData(f: RaceFeed, driver: string, currentTime: real, currentLap: int)
    : PositionData
  {
    var status := Lookup(f.driverStatusData, driver);
    match LatestEntry(f.streamData, driver, Some(currentTime))
    case None => Fallback(f, driver)
    case Some(e) =>
      if currentLap != f.maxLaps then EntryData(e)
      else if currentTime >= f.sessionEndTime then
        if status != Some("DNF") then Labelled(e, "Finished") else EntryData(e)
      else if status == Some("Finished") then
        var last := LatestEntry(f.streamData, driver, None);
        if last.Some? && last.value.time <= currentTime then Labelled(e, "Finished") else EntryData(e)
      else if status == Some("+1 Lap") then
        var completed := Lookup(f.completedLapsData, driver);
        if completed.Some? && currentLap > completed.value then Labelled(e, "+1 Lap") else EntryData(e)
      else EntryData(e)
  }

  /**
   * Without a stream entry of the driver at or before the time: "DNF" in all three fields
   * for a DNF driver, else position |lapsData|+1 with "+1 Lap" when the driver completed
   * maxLaps-1 laps, and with "Finished" otherwise.
   */
  lemma NoEntryFallback(f: RaceFeed, driver: string, t: real, lap: int)
    requires forall i :: 0 <= i < |f.streamData| ==>
               !(f.streamData[i].driver == driver && f.streamData[i].time <= t)
    ensures var r := CurrentPositionData(f, driver, t, lap);
            (Lookup(f.driverStatusData, driver) == Some("DNF") ==> r == PositionData(DNF, "DNF", "DNF"))
            && (Lookup(f.driverStatusData, driver) != Some("DNF") ==>
                  r.position == Num(|f.lapsData| + 1) && r.gap == r.interval
                  && (r.gap == "+1 Lap" <==> Lookup(f.completedLapsData, driver) == Some(f.maxLaps - 1))
                  && (r.gap == "Finished" <==> Lookup(f.completedLapsData, driver) != Some(f.maxLaps - 1)))
  {
    LatestEntryNone(f.streamData, driver, Some(t));
  }

  /**
   * With an entry at or before the time, the result carries the position of the driver's
   * latest such entry (greatest time, the first among equal times); before the final lap its
   * gap and interval are the entry's own, and otherwise they are the entry's own or a label.
   */
  lemma LatestEntryUsed(f: RaceFeed, driver: string, t: real, lap: int, j: nat)
    requires j < |f.streamData| && f.streamData[j].driver == driver && f.streamData[j].time <= t
    ensures exists k :: 0 <= k < |f.streamData| && f.streamData[k].driver == driver
              && f.streamData[k].time <= t
              && (forall i :: (0 <= i < |f.streamData| && f.streamData[i].driver == driver
                                 && f.streamData[i].time <= t) ==> f.streamData[i].time <= f.streamData[k].time)
              && (forall i :: (0 <= i < k && f.streamData[i].driver == driver && f.streamData[i].time <= t)
                                ==> f.streamData[i].time < f.streamData[k].time)
              && var r := CurrentPositionData(f, driver, t, lap);
                 r.position == Num(f.streamData[k].position)
                 && (lap != f.maxLaps ==> r == EntryData(f.streamData[k]))
                 && (r == EntryData(f.streamData[k]) || r == Labelled(f.streamData[k], "Finished")
                     || r == Labelled(f.streamData[k], "+1 Lap"))
  {
    LatestEntryNone(f.streamData, driver, Some(t));
    assert Eligible(f.streamData[j], driver, Some(t));
    var k := LatestEntryIsLatest(f.streamData, driver, Some(t));
    assert Eligible(f.streamData[k], driver, Some(t));
  }

  /** On the final lap, once the session has ended, every driver with an entry and no DNF status is "Finished". */
  lemma FinishedAtSessionEnd(f: RaceFeed, driver: string, t: real, j: nat)
    requires j < |f.streamData| && f.streamData[j].driver == driver && f.streamData[j].time <= t
    requires t >= f.sessionEndTime && Lookup(f.driverStatusData, driver) != Some("DNF")
    ensures CurrentPositionData(f, driver, t, f.maxLaps).gap == "Finished"
    ensures CurrentPositionData(f, driver, t, f.maxLaps).interval == "Finished"
    ensures CurrentPositionData(f, driver, t, f.maxLaps).position.Num?
  {
    LatestEntryNone(f.streamData, driver, Some(t));
    assert Eligible(f.streamData[j], driver, Some(t));
  }

  /** The lookup never yields the position "Finished", and yields "DNF" only for a DNF driver without entries. */
  lemma PositionKinds(f: RaceFeed, driver: string, t: real, lap: int)
    ensures CurrentPositionData(f, driver, t, lap).position != Finished
    ensures CurrentPositionData(f, driver, t, lap).position == DNF <==>
              Lookup(f.driverStatusData, driver) == Some("DNF")
              && forall i :: 0 <= i < |f.streamData| ==>
                   !(f.streamData[i].driver == driver && f.streamData[i].time <= t)
  {
    LatestEntryNone(f.streamData, driver, Some(t));
  }

  // ---------------------------------------------------------------------------------------
  // getDriverPositions

  /** `lapsData.filter(lap => lap.NumberOfLaps === n)`. */
  function LapsNumbered(laps: seq<LapRecord>, n: int): (r: seq<LapRecord>)
    ensures forall l :: l in r <==> l in laps && l.numberOfLaps == n
  {
    if laps == [] then []
    else (if laps[0].numberOfLaps == n then [laps[0]] else []) + LapsNumbered(laps[1..], n)
  }

  function LapDrivers(laps: seq<LapRecord>): (ds: set<string>)
    ensures forall d :: d in ds <==> exists l :: l in laps && l.driver == d
  {
    set l | l in laps :: l.driver
  }

  /** `keys.filter(k => !excluded.has(k))`. */
  function NotIn(keys: seq<string>, excluded: set<string>): (r: seq<string>)
    ensures forall k :: k in r <==> k in keys && k !in excluded
  {
    if keys == [] then []
    else (if keys[0] !in excluded then [keys[0]] else []) + NotIn(keys[1..], excluded)
  }

  /** The rows of the lap's own records: each record merged with its driver's position data. */
  function RecordRows(f: RaceFeed, recs: seq<LapRecord>, t: real, lap: int): seq<Row>
  {
    if recs == [] then []
    else [Merge(recs[0].driver, recs[0].teamColor, CurrentPositionData(f, recs[0].driver, t, lap))]
         + RecordRows(f, recs[1..], t, lap)
  }

  /** The rows pushed for drivers outside the lap: their team colour (or "transparent") and position data. */
  function ExtraRows(f: RaceFeed, ds: seq<string>, t: real, lap: int): seq<Row>
  {
    if ds == [] then []
    else [Merge(ds[0], TeamColorOf(f.lapsData, ds[0]), CurrentPositionData(f, ds[0], t, lap))]
         + ExtraRows(f, ds[1..], t, lap)
  }

  /** Drivers with status "DNF" and no record in the lap, in key order. */
  function DnfDrivers(f: RaceFeed, lap: int): seq<string>
  {
    NotIn(KeysWithValue(f.driverStatusData, "DNF"), LapDrivers(LapsNumbered(f.lapsData, lap)))
  }

  /** Drivers that completed lap-1 laps and have no record in the lap, in key order. */
  function PlusOneLapDrivers(f: RaceFeed, lap: int): seq<string>
  {
    NotIn(KeysWithValue(f.completedLapsData, lap - 1), LapDrivers(LapsNumbered(f.lapsData, lap)))
  }

  /** `updatedDriverPositions`: lap rows, then DNF rows, then "+1 Lap" rows, before de-duplication. */
  function MergedRows(f: RaceFeed, t: real, lap: int): seq<Row>
  {
    RecordRows(f, LapsNumbered(f.lapsData, lap), t, lap)
      + ExtraRows(f, DnfDrivers(f, lap), t, lap)
      + ExtraRows(f, PlusOneLapDrivers(f, lap), t, lap)
  }

  /** The drivers that belong on the board for a lap. */
  predicate OnBoard(f: RaceFeed, lap: int, d: string)
  {
    (exists l :: l in f.lapsData && l.numberOfLaps == lap && l.driver == d)
    || Lookup(f.driverStatusData, d) == Some("DNF")
    || Lookup(f.completedLapsData, d) == Some(lap - 1)
  }

  lemma {:induction false} RecordRowsDrivers(f: RaceFeed, recs: seq<LapRecord>, t: real, lap: int)
    ensures forall d :: d in Drivers(RecordRows(f, recs, t, lap)) <==> exists l :: l in recs && l.driver == d
  {
    if recs != [] {
      RecordRowsDrivers(f, recs[1..], t, lap);
      assert Drivers(RecordRows(f, recs, t, lap)) == [recs[0].driver] + Drivers(RecordRows(f, recs[1..], t, lap));
      assert forall l :: l in recs <==> l == recs[0] || l in recs[1..];
    }
  }

  lemma {:induction false} ExtraRowsDrivers(f: RaceFeed, ds: seq<string>, t: real, lap: int)
    ensures Drivers(ExtraRows(f, ds, t, lap)) == ds
  {
    if ds != [] {
      ExtraRowsDrivers(f, ds[1..], t, lap);
      assert Drivers(ExtraRows(f, ds, t, lap)) == [ds[0]] + Drivers(ExtraRows(f, ds[1..], t, lap));
    }
  }

  lemma DriversConcat(a: seq<Row>, b: seq<Row>)
    ensures Drivers(a + b) == Drivers(a) + Drivers(b)
  {
  }

  /** The merged rows name exactly the drivers on the board. */
  lemma MergedDrivers(f: RaceFeed, t: real, lap: int)
    ensures forall d :: d in Drivers(MergedRows(f, t, lap)) <==> OnBoard(f, lap, d)
  {
    var recs := LapsNumbered(f.lapsData, lap);
    var a := RecordRows(f, recs, t, lap);
    var b := ExtraRows(f, DnfDrivers(f, lap), t, lap);
    var c := ExtraRows(f, PlusOneLapDrivers(f, lap), t, lap);
    KeysWithValueSpec(f.driverStatusData, "DNF");
    KeysWithValueSpec(f.completedLapsData, lap - 1);
    RecordRowsDrivers(f, recs, t, lap);
    ExtraRowsDrivers(f, DnfDrivers(f, lap), t, lap);
    ExtraRowsDrivers(f, PlusOneLapDrivers(f, lap), t, lap);
    DriversConcat(a, b);
    DriversConcat(a + b, c);
  }

  /** The board for a lap: merged, de-duplicated, sorted and repaired rows. */
  function Board(f: RaceFeed, t: real, lap: int): seq<Row>
  {
    Ranked(MergedRows(f, t, lap))
  }

  /** The board lists every driver on it exactly once, and no one else. */
  lemma BoardDrivers(f: RaceFeed, t: real, lap: int)
    ensures DistinctDrivers(Board(f, t, lap))
    ensures forall d :: d in Drivers(Board(f, t, lap)) <==> OnBoard(f, lap, d)
  {
    MergedDrivers(f, t, lap);
    RankedDrivers(MergedRows(f, t, lap));
  }

  /** The display name of a driver code: its first record's `DriverName`, else the code. */
  function DriverName(laps: seq<LapRecord>, driver: string): string
  {
    match FindDriverLap(laps, driver)
    case Some(l) => l.driverName
    case None => driver
  }

  function Names(laps: seq<LapRecord>, ds: seq<string>): (ns: seq<string>)
    ensures |ns| == |ds| && forall i :: 0 <= i < |ds| ==> ns[i] == DriverName(laps, ds[i])
  {
    if ds == [] then [] else [DriverName(laps, ds[0])] + Names(laps, ds[1..])
  }

  /** The drivers of the merged rows whose gap reads "Finished", in order. */
  function FinishedDrivers(rows: seq<Row>): (ds: seq<string>)
    ensures forall d :: d in ds <==> exists i :: 0 <= i < |rows| && rows[i].driver == d && rows[i].gap == "Finished"
  {
    if rows == [] then []
    else
      var rest := FinishedDrivers(rows[1..]);
      assert forall i :: 1 <= i < |rows| ==> rows[i] == rows[1..][i - 1];
      (if rows[0].gap == "Finished" then [rows[0].driver] else []) + rest
  }

  /**
   * `driverList`: every name of a lap-1 record, mapped to true unless it is the name of a DNF
   * driver or of a driver whose merged row is "Finished".
   */
  function DriverList(f: RaceFeed, merged: seq<Row>, lap: int): map<string, bool>
  {
    var dnf := Names(f.lapsData, DnfDrivers(f, lap));
    var finished := Names(f.lapsData, FinishedDrivers(merged));
    var names := set l | l in LapsNumbered(f.lapsData, 1) :: l.driverName;
    map n | n in names :: n !in dnf && n !in finished
  }

  /**
   * The driver list has an entry for exactly the names of the lap-1 records; an entry is
   * false exactly for the name of a DNF driver without a record in the lap, or of a driver
   * whose merged row has gap "Finished".
   */
  lemma DriverListSpec(f: RaceFeed, merged: seq<Row>, lap: int)
    ensures var m := DriverList(f, merged, lap);
            && (forall n :: n in m <==> exists l :: l in f.lapsData && l.numberOfLaps == 1 && l.driverName == n)
            && (forall n :: n in m ==>
                  (!m[n] <==> (exists d :: d in DnfDrivers(f, lap) && DriverName(f.lapsData, d) == n)
                              || (exists i :: 0 <= i < |merged| && merged[i].gap == "Finished"
                                                && DriverName(f.lapsData, merged[i].driver) == n)))
  {
    var m := DriverList(f, merged, lap);
    forall n | n in m
      ensures (!m[n] <==> (exists d :: d in DnfDrivers(f, lap) && DriverName(f.lapsData, d) == n)
                          || (exists i :: 0 <= i < |merged| && merged[i].gap == "Finished"
                                            && DriverName(f.lapsData, merged[i].driver) == n))
    {
      InNames(f.lapsData, DnfDrivers(f, lap), n);
      InFinishedNames(f.lapsData, merged, n);
    }
  }

  /** A name is among the names of some drivers exactly when one of them carries it. */
  lemma InNames(laps: seq<LapRecord>, ds: seq<string>, n: string)
    ensures n in Names(laps, ds) <==> exists d :: d in ds && DriverName(laps, d) == n
  {
    if n in Names(laps, ds) {
      var i :| 0 <= i < |ds| && Names(laps, ds)[i] == n;
      assert ds[i] in ds;
    }
    if d :| d in ds && DriverName(laps, d) == n {
      var i :| 0 <= i < |ds| && ds[i] == d;
      assert Names(laps, ds)[i] == n;
    }
  }

  /** A name is among the finished drivers' names exactly when a "Finished" row's driver carries it. */
  lemma InFinishedNames(laps: seq<LapRecord>, merged: seq<Row>, n: string)
    ensures n in Names(laps, FinishedDrivers(merged)) <==>
              exists i :: 0 <= i < |merged| && merged[i].gap == "Finished" && DriverName(laps, merged[i].driver) == n
  {
    var fin := FinishedDrivers(merged);
    InNames(laps, fin, n);
    if i :| 0 <= i < |merged| && merged[i].gap == "Finished" && DriverName(laps, merged[i].driver) == n {
      assert merged[i].driver in fin;
    }
  }

  /**
   * `getDriverPositions(currentTime, currentLap)`: builds the rows, de-duplicates, sorts and
   * repairs them in one pass that tracks the positions seen, and computes the driver list.
   */
  method GetDriverPositions(f: RaceFeed, currentTime: real, currentLap: int)
    returns (rows: seq<Row>, driverList: map<string, bool>)
    ensures rows == Board(f, currentTime, currentLap)
    ensures driverList == DriverList(f, MergedRows(f, currentTime, currentLap), currentLap)
  {
    var updated := MergedRows(f, currentTime, currentLap);
    var allDrivers := DedupeByDriver(updated);
    var sortedRows := SortRows(allDrivers);
    rows := RepairPositions(sortedRows);
    driverList := DriverList(f, updated, currentLap);
  }

  // ---------------------------------------------------------------------------------------
  // The clock tick

  /**
   * The published time: the manual start time if one is set, else the start time, plus the
   * elapsed seconds, but never past the session end.
   */
  function ClockTime(manualStartTime: Option<real>, startTime: real, elapsed: real, sessionEnd: real)
    : (r: real)
    ensures r <= sessionEnd
    ensures var base := if manualStartTime.Some? then manualStartTime.value else startTime;
            (base + elapsed <= sessionEnd ==> r == base + elapsed)
            && (r == base + elapsed || r == sessionEnd)
  {
    var base := if manualStartTime.Some? then manualStartTime.value else startTime;
    if base + elapsed > sessionEnd then sessionEnd else base + elapsed
  }

  /** The index of the first lap record whose time is past `t`, or |laps| when there is none. */
  function FirstLapAfter(laps: seq<LapRecord>, t: real): (i: nat)
    ensures i <= |laps|
    ensures forall j :: 0 <= j < i ==> laps[j].time <= t
    ensures i < |laps| ==> laps[i].time > t
  {
    if laps == [] then 0
    else if laps[0].time > t then 0
    else 1 + FirstLapAfter(laps[1..], t)
  }

  /**
   * The lap the tick asks for is the index of that record plus one (|laps|+1 when none);
   * it is taken only when it differs from the current lap and does not exceed maxLaps.
   */
  function NextCurrentLap(currentLap: int, laps: seq<LapRecord>, t: real, maxLaps: int): (r: int)
    ensures var target := FirstLapAfter(laps, t) + 1;
            (target <= maxLaps ==> r == target) && (target > maxLaps ==> r == currentLap)
  {
    var target := FirstLapAfter(laps, t) + 1;
    if currentLap != target && target <= maxLaps then target else currentLap
  }

  /** Once the time reaches every record's time the lap asked for is |laps|+1, which needs maxLaps > |laps|. */
  lemma LapAfterAllRecords(currentLap: int, laps: seq<LapRecord>, t: real, maxLaps: int)
    requires forall j :: 0 <= j < |laps| ==> laps[j].time <= t
    ensures FirstLapAfter(laps, t) == |laps|
    ensures NextCurrentLap(currentLap, laps, t, maxLaps) ==
              if |laps| + 1 <= maxLaps then |laps| + 1 else currentLap
  {
  }

  /** The clock half of a tick: publish the clamped time and move the current lap. */
  method PublishClock(s: RaceStore, now: real) returns (newTime: real)
    modifies s`time, s`currentLap
    ensures newTime == ClockTime(s.manualStartTime, s.startTime, (now - s.startTimestamp) / 1000.0,
                                 s.sessionEndTime)
    ensures s.time == newTime && s.time <= s.sessionEndTime
    ensures s.currentLap == NextCurrentLap(old(s.currentLap), s.lapsData, newTime, s.maxLaps)
  {
    var elapsedTime := (now - s.startTimestamp) / 1000.0;
    newTime := ClockTime(s.manualStartTime, s.startTime, elapsedTime, s.sessionEndTime);
    s.SetTime(newTime);
    s.SetCurrentLap(NextCurrentLap(s.currentLap, s.lapsData, newTime, s.maxLaps));
  }

  /** The board half of a tick: publish the rows and the driver list for a time and a lap. */
  method PublishBoard(s: RaceStore, t: real, lap: int)
    modifies s`driverPositions, s`driverList
    ensures s.driverPositions == Board(FeedOf(s), t, lap)
    ensures s.driverList == DriverList(FeedOf(s), MergedRows(FeedOf(s), t, lap), lap)
  {
    var feed := FeedOf(s);
    var rows, driverList := GetDriverPositions(feed, t, lap);
    s.SetDriverList(driverList);
    s.SetDriverPositions(rows);
    assert FeedOf(s) == feed;
  }

  /**
   * One tick of the interval while data is loaded: publish the clamped time, move the current
   * lap, and publish the board and driver list, computed, as in the source's closure, for the
   * lap the tick started with. Without loaded data there is no interval and nothing changes.
   */
  method Tick(s: RaceStore, now: real)
    modifies s`time, s`currentLap, s`driverPositions, s`driverList
    ensures !old(s.dataLoaded) ==> unchanged(s)
    ensures old(s.dataLoaded) ==>
              var t := ClockTime(s.manualStartTime, s.startTime, (now - s.startTimestamp) / 1000.0,
                                 s.sessionEndTime);
              && s.time == t
              && s.time <= s.sessionEndTime
              && s.currentLap == NextCurrentLap(old(s.currentLap), s.lapsData, t, s.maxLaps)
              && s.driverPositions == Board(FeedOf(s), t, old(s.currentLap))
              && s.driverList == DriverList(FeedOf(s), MergedRows(FeedOf(s), t, old(s.currentLap)),
                                            old(s.currentLap))
  {
    if !s.dataLoaded {
      return;
    }
    var lap := s.currentLap;
    var newTime := PublishClock(s, now);
    PublishBoard(s, newTime, lap);
  }

  // ---------------------------------------------------------------------------------------
  // handleSkipNextLap

  /**
   * Before the last lap, and when a record of the current lap number exists, jump the clock to
   * that record's time, advance the lap, restart the wall-clock reference and raise the skip
   * flag; otherwise nothing changes.
   */
  method SkipNextLap(s: RaceStore, now: real)
    modifies s`manualStartTime, s`time, s`currentLap, s`startTimestamp, s`skipNextLap
    ensures var rec := FindLap(old(s.lapsData), old(s.currentLap));
            if old(s.currentLap) < old(s.maxLaps) && rec.Some? then
              && s.manualStartTime == Some(rec.value.time)
              && s.time == rec.value.time
              && s.currentLap == old(s.currentLap) + 1
              && s.startTimestamp == now
              && s.skipNextLap
            else unchanged(s)
  {
    if s.currentLap < s.maxLaps {
      var currentLapData := FindLap(s.lapsData, s.currentLap);
      if currentLapData.Some? {
        var nextLapTime := currentLapData.value.time;
        s.SetManualStartTime(Some(nextLapTime));
        s.SetTime(nextLapTime);
        s.SetCurrentLap(s.currentLap + 1);
        s.startTimestamp := now;
        s.SetSkipNextLap(true);
      }
    }
  }

  /**
   * The skip test's store: lap 1 of 10 with records for laps 1 (at 10 s) and 2 (at 20 s); the
   * skip sets the manual start time and the time to 10, the lap to 2 and the skip flag.
   */
  method SkipScenario(now: real) returns (s: RaceStore)
    ensures s.manualStartTime == Some(10.0) && s.time == 10.0 && s.currentLap == 2 && s.skipNextLap
  {
    s := new RaceStore();
    s.SetMaxLaps(10);
    s.SetCurrentLap(1);
    s.SetLapsData([LapRecord("", "", "", 1, 10.0), LapRecord("", "", "", 2, 20.0)]);
    SkipNextLap(s, now);
  }
}
