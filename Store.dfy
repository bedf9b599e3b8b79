/**
 * The application store of store.jsx: one object whose fields are replaced one at a time by
 * their setters. A setter may change only its own field (its `modifies` clause names that
 * field alone), so every other field keeps its value. The `{ current: ... }` refs
 * (`requestMade`, `startTimestamp`, `sessionEndTime`) are plain fields that the components
 * assign directly. Fetched JSON that the modelled code only stores is a `Payload`.
 */
module Store {

  import opened RaceData
  import opened Visibility

  /** The `translation` slice: an offset in x and z. */
  datatype Translation = Translation(x: real, z: real)

  /** The `rotation` slice: an angle about x. */
  datatype Rotation = Rotation(x: real)

  /** The store's state and its setters. */
  class RaceStore {
    var dataLoaded: bool
    var loading: bool
    var requestMade: bool
    var startTimestamp: real
    var sessionEndTime: real
    var manualSkip: bool
    var skipNextLap: bool
    var time: real
    var startTime: real
    var manualStartTime: Option<real>
    var currentLap: int
    var maxLaps: int
    var currentLapTime: real
    var lapDuration: Option<real>
    var lapsData: seq<LapRecord>
    var streamData: seq<StreamEntry>
    var completedLapsData: Dict<int>
    var driverStatusData: Dict<string>
    var driverPositions: seq<Row>
    var driverList: map<string, bool>
    var driversVisibility: seq<string>
    var telemetryData: Option<Payload>
    var selectedDriver: string
    var drivers: seq<Payload>
    var laps: seq<Payload>
    var selectedYear: Option<int>
    var selectedLap: Option<int>
    var selectedType: Option<string>
    var isDriverSelectDisabled: bool
    var isLapSelectDisabled: bool
    var isYearSelectDisabled: bool
    var cameraMode: string
    var isRacingLineVisible: bool
    var translation: Translation
    var rotation: Rotation
    var speedData: Option<seq<real>>
    var brakeData: Option<seq<real>>
    var rpmData: Option<seq<real>>
    var currentSpeed: real
    var speedMultiplierOverride: real
    var weatherData: seq<Payload>
    var currentWeather: string
    var isSoundMuted: bool
    var flags: seq<Payload>

    /** The initial state. */
    constructor ()
      ensures dataLoaded == false
      ensures loading == false
      ensures requestMade == false
      ensures startTimestamp == 0.0
      ensures sessionEndTime == 0.0
      ensures manualSkip == false
      ensures skipNextLap == false
      ensures time == 0.0
      ensures startTime == 0.0
      ensures manualStartTime == None
      ensures currentLap == 0
      ensures maxLaps == 0
      ensures currentLapTime == 0.0
      ensures lapDuration == None
      ensures lapsData == []
      ensures streamData == []
      ensures completedLapsData == []
      ensures driverStatusData == []
      ensures driverPositions == []
      ensures driverList == map[]
      ensures driversVisibility == []
      ensures telemetryData == None
      ensures selectedDriver == "HAM"
      ensures drivers == []
      ensures laps == []
      ensures selectedYear == None
      ensures selectedLap == None
      ensures selectedType == None
      ensures isDriverSelectDisabled == true
      ensures isLapSelectDisabled == true
      ensures isYearSelectDisabled == true
      ensures cameraMode == "free"
      ensures isRacingLineVisible == false
      ensures translation == Translation(0.0, 0.0)
      ensures rotation == Rotation(0.0)
      ensures speedData == None
      ensures brakeData == None
      ensures rpmData == None
      ensures currentSpeed == 0.0
      ensures speedMultiplierOverride == 1.0
      ensures weatherData == []
      ensures currentWeather == "sunny"
      ensures isSoundMuted == true
      ensures flags == []
    {
      dataLoaded := false;
      loading := false;
      requestMade := false;
      startTimestamp := 0.0;
      sessionEndTime := 0.0;
      manualSkip := false;
      skipNextLap := false;
      time := 0.0;
      startTime := 0.0;
      manualStartTime := None;
      currentLap := 0;
      maxLaps := 0;
      currentLapTime := 0.0;
      lapDuration := None;
      lapsData := [];
      streamData := [];
      completedLapsData := [];
      driverStatusData := [];
      driverPositions := [];
      driverList := map[];
      driversVisibility := [];
      telemetryData := None;
      selectedDriver := "HAM";
      drivers := [];
      laps := [];
      selectedYear := None;
      selectedLap := None;
      selectedType := None;
      isDriverSelectDisabled := true;
      isLapSelectDisabled := true;
      isYearSelectDisabled := true;
      cameraMode := "free";
      isRacingLineVisible := false;
      translation := Translation(0.0, 0.0);
      rotation := Rotation(0.0);
      speedData := None;
      brakeData := None;
      rpmData := None;
      currentSpeed := 0.0;
      speedMultiplierOverride := 1.0;
      weatherData := [];
      currentWeather := "sunny";
      isSoundMuted := true;
      flags := [];
    }

    method SetDataLoaded(v: bool)
      modifies this`dataLoaded
      ensures dataLoaded == v
    {
      dataLoaded := v;
    }

    method SetLoading(v: bool)
      modifies this`loading
      ensures loading == v
    {
      loading := v;
    }

    method SetManualSkip(v: bool)
      modifies this`manualSkip
      ensures manualSkip == v
    {
      manualSkip := v;
    }

    method SetSkipNextLap(v: bool)
      modifies this`skipNextLap
      ensures skipNextLap == v
    {
      skipNextLap := v;
    }

    method SetTime(v: real)
      modifies this`time
      ensures time == v
    {
      time := v;
    }

    method SetStartTime(v: real)
      modifies this`startTime
      ensures startTime == v
    {
      startTime := v;
    }

    method SetManualStartTime(v: Option<real>)
      modifies this`manualStartTime
      ensures manualStartTime == v
    {
      manualStartTime := v;
    }

    method SetCurrentLap(v: int)
      modifies this`currentLap
      ensures currentLap == v
    {
      currentLap := v;
    }

    method SetMaxLaps(v: int)
      modifies this`maxLaps
      ensures maxLaps == v
    {
      maxLaps := v;
    }

    method SetCurrentLapTime(v: real)
      modifies this`currentLapTime
      ensures currentLapTime == v
    {
      currentLapTime := v;
    }

    method SetLapDuration(v: Option<real>)
      modifies this`lapDuration
      ensures lapDuration == v
    {
      lapDuration := v;
    }

    method SetLapsData(v: seq<LapRecord>)
      modifies this`lapsData
      ensures lapsData == v
    {
      lapsData := v;
    }

    method SetStreamData(v: seq<StreamEntry>)
      modifies this`streamData
      ensures streamData == v
    {
      streamData := v;
    }

    method SetCompletedLapsData(v: Dict<int>)
      modifies this`completedLapsData
      ensures completedLapsData == v
    {
      completedLapsData := v;
    }

    method SetDriverStatusData(v: Dict<string>)
      modifies this`driverStatusData
      ensures driverStatusData == v
    {
      driverStatusData := v;
    }

    method SetDriverPositions(v: seq<Row>)
      modifies this`driverPositions
      ensures driverPositions == v
    {
      driverPositions := v;
    }

    method SetDriverList(v: map<string, bool>)
      modifies this`driverList
      ensures driverList == v
    {
      driverList := v;
    }

    method SetTelemetryData(v: Option<Payload>)
      modifies this`telemetryData
      ensures telemetryData == v
    {
      telemetryData := v;
    }

    method SetSelectedDriver(v: string)
      modifies this`selectedDriver
      ensures selectedDriver == v
    {
      selectedDriver := v;
    }

    method SetDrivers(v: seq<Payload>)
      modifies this`drivers
      ensures drivers == v
    {
      drivers := v;
    }

    method SetLaps(v: seq<Payload>)
      modifies this`laps
      ensures laps == v
    {
      laps := v;
    }

    method SetSelectedYear(v: Option<int>)
      modifies this`selectedYear
      ensures selectedYear == v
    {
      selectedYear := v;
    }

    method SetSelectedLap(v: Option<int>)
      modifies this`selectedLap
      ensures selectedLap == v
    {
      selectedLap := v;
    }

    method SetSelectedType(v: Option<string>)
      modifies this`selectedType
      ensures selectedType == v
    {
      selectedType := v;
    }

    method SetIsDriverSelectDisabled(v: bool)
      modifies this`isDriverSelectDisabled
      ensures isDriverSelectDisabled == v
    {
      isDriverSelectDisabled := v;
    }

    method SetIsLapSelectDisabled(v: bool)
      modifies this`isLapSelectDisabled
      ensures isLapSelectDisabled == v
    {
      isLapSelectDisabled := v;
    }

    method SetIsYearSelectDisabled(v: bool)
      modifies this`isYearSelectDisabled
      ensures isYearSelectDisabled == v
    {
      isYearSelectDisabled := v;
    }

    method SetCameraMode(v: string)
      modifies this`cameraMode
      ensures cameraMode == v
    {
      cameraMode := v;
    }

    method SetTranslation(v: Translation)
      modifies this`translation
      ensures translation == v
    {
      translation := v;
    }

    method SetRotation(v: Rotation)
      modifies this`rotation
      ensures rotation == v
    {
      rotation := v;
    }

    method SetSpeedData(v: Option<seq<real>>)
      modifies this`speedData
      ensures speedData == v
    {
      speedData := v;
    }

    method SetBrakeData(v: Option<seq<real>>)
      modifies this`brakeData
      ensures brakeData == v
    {
      brakeData := v;
    }

    method SetRpmData(v: Option<seq<real>>)
      modifies this`rpmData
      ensures rpmData == v
    {
      rpmData := v;
    }

    method SetCurrentSpeed(v: real)
      modifies this`currentSpeed
      ensures currentSpeed == v
    {
      currentSpeed := v;
    }

    method SetSpeedMultiplierOverride(v: real)
      modifies this`speedMultiplierOverride
      ensures speedMultiplierOverride == v
    {
      speedMultiplierOverride := v;
    }

    method SetWeatherData(v: seq<Payload>)
      modifies this`weatherData
      ensures weatherData == v
    {
      weatherData := v;
    }

    method SetCurrentWeather(v: string)
      modifies this`currentWeather
      ensures currentWeather == v
    {
      currentWeather := v;
    }

    method SetIsSoundMuted(v: bool)
      modifies this`isSoundMuted
      ensures isSoundMuted == v
    {
      isSoundMuted := v;
    }

    method SetFlags(v: seq<Payload>)
      modifies this`flags
      ensures flags == v
    {
      flags := v;
    }

    /** Hides a shown driver's car, or shows a hidden one again. */
    method ToggleDriverVisibility(driver: string)
      modifies this`driversVisibility
      ensures driversVisibility == Toggled(old(driversVisibility), driver)
      ensures driver in driversVisibility <==> driver !in old(driversVisibility)
      ensures forall d :: d != driver ==> (d in driversVisibility <==> d in old(driversVisibility))
    {
      if driver in driversVisibility {
        driversVisibility := Without(driversVisibility, driver);
      } else {
        driversVisibility := driversVisibility + [driver];
      }
    }

    /** Shows the racing line when hidden and hides it when shown. */
    method ToggleRacingLineVisibility()
      modifies this`isRacingLineVisible
      ensures isRacingLineVisible == !old(isRacingLineVisible)
    {
      isRacingLineVisible := !isRacingLineVisible;
    }
  }

  /**
   * The store tests' sequences on a fresh store: a setter changes its own field and nothing
   * else, two racing-line toggles restore the flag, and two toggles of "HAM" restore the list's
   * membership.
   */
  method StoreScenario() returns (s: RaceStore)
    ensures s.time == 100.0 && s.currentLap == 5 && s.maxLaps == 0
    ensures !s.isRacingLineVisible && "HAM" !in s.driversVisibility
    ensures s.selectedDriver == "VER" && s.cameraMode == "free" && s.isSoundMuted
  {
    s := new RaceStore();
    s.SetTime(100.0);
    assert s.currentLap == 0 && s.maxLaps == 0;
    s.SetCurrentLap(5);
    assert s.time == 100.0;
    s.ToggleRacingLineVisibility();
    assert s.isRacingLineVisible;
    s.ToggleRacingLineVisibility();
    s.ToggleDriverVisibility("HAM");
    assert "HAM" in s.driversVisibility;
    s.ToggleDriverVisibility("HAM");
    s.SetSelectedDriver("VER");
  }
}
