/**
 * The smaller store of newStore.jsx, read by MovingBox.jsx: the same fields as the
 * application store's race slice, the same single-field setters and the same driver toggle.
 */
module NewStore {

  import opened RaceData
  import opened Visibility

  /** The store's state and its setters. */
  class TimingStore {
    var lapsData: seq<LapRecord>
    var streamData: seq<StreamEntry>
    var completedLapsData: Dict<int>
    var driverStatusData: Dict<string>
    var currentLap: int
    var maxLaps: int
    var time: real
    var startTime: real
    var manualStartTime: Option<real>
    var dataLoaded: bool
    var driverPositions: seq<Row>
    var requestMade: bool
    var startTimestamp: real
    var sessionEndTime: real
    var manualSkip: bool
    var skipNextLap: bool
    var driverList: map<string, bool>
    var driversVisibility: seq<string>

    /** The initial state. */
    constructor ()
      ensures lapsData == []
      ensures streamData == []
      ensures completedLapsData == []
      ensures driverStatusData == []
      ensures currentLap == 0
      ensures maxLaps == 0
      ensures time == 0.0
      ensures startTime == 0.0
      ensures manualStartTime == None
      ensures dataLoaded == false
      ensures driverPositions == []
      ensures requestMade == false
      ensures startTimestamp == 0.0
      ensures sessionEndTime == 0.0
      ensures manualSkip == false
      ensures skipNextLap == false
      ensures driverList == map[]
      ensures driversVisibility == []
    {
      lapsData := [];
      streamData := [];
      completedLapsData := [];
      driverStatusData := [];
      currentLap := 0;
      maxLaps := 0;
      time := 0.0;
      startTime := 0.0;
      manualStartTime := None;
      dataLoaded := false;
      driverPositions := [];
      requestMade := false;
      startTimestamp := 0.0;
      sessionEndTime := 0.0;
      manualSkip := false;
      skipNextLap := false;
      driverList := map[];
      driversVisibility := [];
    }

    method SetLapsData(v: seq<LapRecord>)
      modifies this`lapsData
      ensures lapsData == v
    {
      lapsData := v;
    }

    method SetStreamData(v: seq<StreamEntry>)
      modifies this`streamData
      ensures streamData == v
    {
      streamData := v;
    }

    method SetCompletedLapsData(v: Dict<int>)
      modifies this`completedLapsData
      ensures completedLapsData == v
    {
      completedLapsData := v;
    }

    method SetDriverStatusData(v: Dict<string>)
      modifies this`driverStatusData
      ensures driverStatusData == v
    {
      driverStatusData := v;
    }

    method SetCurrentLap(v: int)
      modifies this`currentLap
      ensures currentLap == v
    {
      currentLap := v;
    }

    method SetMaxLaps(v: int)
      modifies this`maxLaps
      ensures maxLaps == v
    {
      maxLaps := v;
    }

    method SetTime(v: real)
      modifies this`time
      ensures time == v
    {
      time := v;
    }

    method SetStartTime(v: real)
      modifies this`startTime
      ensures startTime == v
    {
      startTime := v;
    }

    method SetManualStartTime(v: Option<real>)
      modifies this`manualStartTime
      ensures manualStartTime == v
    {
      manualStartTime := v;
    }

    method SetDataLoaded(v: bool)
      modifies this`dataLoaded
      ensures dataLoaded == v
    {
      dataLoaded := v;
    }

    method SetDriverPositions(v: seq<Row>)
      modifies this`driverPositions
      ensures driverPositions == v
    {
      driverPositions := v;
    }

    method SetManualSkip(v: bool)
      modifies this`manualSkip
      ensures manualSkip == v
    {
      manualSkip := v;
    }

    method SetSkipNextLap(v: bool)
      modifies this`skipNextLap
      ensures skipNextLap == v
    {
      skipNextLap := v;
    }

    method SetDriverList(v: map<string, bool>)
      modifies this`driverList
      ensures driverList == v
    {
      driverList := v;
    }

    /** Hides a shown driver's car, or shows a hidden one again. */
    method ToggleDriverVisibility(driver: string)
      modifies this`driversVisibility
      ensures driversVisibility == Toggled(old(driversVisibility), driver)
      ensures driver in driversVisibility <==> driver !in old(driversVisibility)
      ensures forall d :: d != driver ==> (d in driversVisibility <==> d in old(driversVisibility))
    {
      if driver in driversVisibility {
        driversVisibility := Without(driversVisibility, driver);
      } else {
        driversVisibility := driversVisibility + [driver];
      }
    }
  }

  /** Setters touch only their own field: setting the lap keeps the time and the skip flag. */
  method SetterScenario() returns (s: TimingStore)
    ensures s.currentLap == 3 && s.time == 12.5 && s.skipNextLap
    ensures s.maxLaps == 0 && s.manualStartTime == None
  {
    s := new TimingStore();
    s.SetTime(12.5);
    s.SetSkipNextLap(true);
    s.SetCurrentLap(3);
  }
}
