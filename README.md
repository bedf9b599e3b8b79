# Race-replay viewer: a Dafny model of its sequential core

The viewer replays a Formula 1 session in three.js. Below the rendering sits a layer of
sequential logic:

- the race clock and the leaderboard: time formatting, lap selection, the latest telemetry entry per driver, and the ranking pipeline;
- the per-frame motion of the cars along a sampled track;
- the interpolated test car;
- the rain particle buffers;
- the two zustand stores;
- the flag caption.

This project models that layer in Dafny and proves what the code promises about it.

One module per source file, plus shared modules:

| module | models |
|---|---|
| `RaceData` | lap records, stream entries and leaderboard rows; `Option`; JavaScript objects keyed by driver, as association lists in `Object.keys` order; the latest-entry fold |
| `TimeFormat` | `formatTime` (identical in `PositionsTable.jsx` and `Timing.jsx`) with JavaScript's truncating `%` written out |
| `Ranking` | de-duplication by driver, the comparator sort (as a stable insertion sort), and the in-place duplicate-position repair |
| `Visibility` | the hidden-driver toggle shared by both stores, and the visibility rule |
| `Store`, `NewStore` | `store.jsx` and `newStore.jsx` as classes; every setter's `modifies` frame is its one field |
| `PositionsTable` | the interval tick, `getCurrentPositionData`, `getDriverPositions` and `handleSkipNextLap`, with the wall clock as a parameter |
| `Timing` | the reduces, the lap effect, the clock, the skip and the table ranking of `Timing.jsx`, with the page's state as a class |
| `Track` | geometry shared by the car components: the cumulative distance table (built by a loop), speed normalisation, the clamped speed index, `findIndex` with its fallback, the wrapped next index and the distance clamp |
| `MovingCar`, `MovingCarWithSound`, `MovingBox`, `MovingCarSimple` | each component's refs and state as a class; each `useFrame` callback as a `Step` method |
| `TestInterpolation` | the bracketing loop and the linear interpolation of `Test.jsx` |
| `Rain`, `TestRain` | the `Float32Array` buffers as Dafny arrays, initialised and updated in place |
| `FlagIndicator` | `renderIcon` and `renderText` |

Points are `Vec3` values over reals. `Vector3.distanceTo` is a function parameter `dist` that
the constructors require to be non-negative. Curves, rotations and `Math.random()` draws are
inputs, and the clock is an input in milliseconds.

## Model

| member | source | states |
|---|---|---|
| RaceData.Lookup | src/components/PositionsTable.jsx:185-186 | Reading `obj[driver]` yields a value stored under that key, and nothing exactly when no entry has the key |
| RaceData.KeysWithValueSpec | src/components/PositionsTable.jsx:94-96 | `Object.keys(obj).filter(k => obj[k] === v)` lists exactly the keys whose value is v, each once, all of them keys of the object |
| RaceData.LatestEntryNone | src/components/PositionsTable.jsx:175-183 | The latest-entry fold finds nothing exactly when no entry of the driver lies at or before the bound |
| RaceData.LatestEntryIsLatest | src/components/PositionsTable.jsx:175-183 | The fold returns an eligible entry with the greatest time among the driver's eligible entries, and earlier eligible entries have strictly smaller times (the first among equal times wins) |
| RaceData.FindLap | src/components/PositionsTable.jsx:229 | `lapsData.find(lap => lap.NumberOfLaps === n)`: none exactly when no record has lap count n; otherwise a record of the list with that lap count |
| RaceData.At | src/components/MovingBox.jsx:26 | An array read `s[i]` is undefined (none) exactly past the end, otherwise the element; also the brake and rpm reads of src/components/MovingCarwithsound.jsx |
| TimeFormat.NatToStringDigits | src/components/PositionsTable.jsx:13 | `String(n)` of a non-negative integer is a non-empty digit string that reads back as n, one digit below 10 and two below 100 |
| TimeFormat.PaddedField | src/components/PositionsTable.jsx:13-15 | A non-negative field padded to two places is at least two digits, reads back as the field, and is exactly two digits below 100: one leading zero before a single digit, two or more digits kept whole |
| TimeFormat.DivOfFloor | src/components/PositionsTable.jsx:9-11 | For t >= 0 and k > 0, floor(t / k) is floor(t) div k and the truncating t % k is floor(t) mod k plus the fraction of t |
| TimeFormat.FloorFields | src/pages/Timing.jsx:4-14 | For t >= 0 the hour, minute and second fields are floor(t)/3600, (floor(t) mod 3600)/60 and floor(t) mod 60: they depend only on the whole seconds |
| TimeFormat.FormatTimeRoundTrip | src/components/PositionsTable.jsx:8-18 | For t >= 0 the text parses as HH:MM:SS back to floor(t), so H*3600 + M*60 + S = floor(t) with M and S in 0..59, and it is 8 characters below 100 hours |
| TimeFormat.ClockRoundTrip | src/components/PositionsTable.jsx:13-17 | The `H:MM:SS` template over fields with minutes and seconds below 60 parses back to H*3600 + M*60 + S, and is 8 characters when H < 100 |
| TimeFormat.FormatTimeZero | src/tests/PositionsTable.test.jsx:44 | Time zero shows as "00:00:00" |
| Ranking.DedupeDrivers | src/components/PositionsTable.jsx:119-124 | De-duplication leaves pairwise distinct drivers and exactly the drivers of the input |
| Ranking.DedupeKeepsFirstRows | src/components/PositionsTable.jsx:119-124 | De-duplication keeps, in input order, exactly the first row of each driver (an increasing list of first-occurrence indices) |
| Ranking.InsertSorted | src/components/PositionsTable.jsx:126-132 | Inserting a row into sorted rows keeps them sorted and adds exactly that row (multiset) |
| Ranking.SortRowsSortedPermutation | src/components/PositionsTable.jsx:126-132 | The sort yields rows sorted as "Finished", then ascending numbers, then "DNF", and is a permutation of its input |
| Ranking.InsertDrivers | src/components/PositionsTable.jsx:126-132 | Insertion adds exactly the row's driver and keeps drivers distinct when the driver was new |
| Ranking.SortRowsDrivers | src/components/PositionsTable.jsx:126-132 | Sorting keeps the set of drivers and their distinctness |
| Ranking.SortedGroups | src/components/PositionsTable.jsx:126-132 | In sorted rows no "DNF" row precedes another kind of row and every row before a "Finished" row is "Finished" |
| Ranking.PositionSetAppend | src/components/PositionsTable.jsx:139 | Adding a row's position to the set of positions seen extends the set by that position |
| Ranking.Repaired | src/components/PositionsTable.jsx:134-140 | The reference definition of the repair, one output row per input row; its rule is stated by Ranking.RepairedRule and the forEach loop is proved equal to it by Ranking.RepairPositions |
| Ranking.RepairedRule | src/components/PositionsTable.jsx:134-140 | Repair keeps length, order and drivers; a row whose position appeared among the repaired rows before it gets index+1, every other row is untouched |
| Ranking.RepairedRepeatsAreNumeric | src/components/PositionsTable.jsx:134-140 | After repair no position other than a number can repeat: at most one "DNF" row and at most one "Finished" row |
| Ranking.RepairedDistinct | src/components/PositionsTable.jsx:134-140 | When no numeric position exceeds its row's index+1, the repaired positions are pairwise distinct and still within index+1 |
| Ranking.RepairKeepsDuplicateTwo | src/components/PositionsTable.jsx:134-140 | Repair does not always remove duplicates: two rows at position 2 both stay at 2 |
| Ranking.RankedDrivers | src/components/PositionsTable.jsx:119-140 | De-duplicating, sorting and repairing together list every input driver exactly once and nobody else |
| Ranking.RepairPositions | src/components/PositionsTable.jsx:134-140 | The forEach with a set of seen positions yields exactly the repaired rows, row by row by the repair rule |
| Visibility.Without | src/utils/store.jsx:68 | `filter(d => d !== driver)` drops the driver, keeps every other driver's membership and never grows the list |
| Visibility.WithoutKeepsOrder | src/utils/store.jsx:67-68 | Removal distributes over concatenation and keeps a single entry exactly when it is another driver, so the others keep their order; a list without the driver is unchanged |
| Visibility.Toggled | src/utils/store.jsx:65-73 | A toggle flips the driver's membership and leaves every other driver's membership alone; an unlisted driver goes last, after the existing entries, which keep their places |
| Visibility.ToggleTwiceMembership | src/utils/newStore.jsx:36-44 | Two toggles restore every driver's membership |
| Visibility.ToggleFlipsVisibility | src/components/MovingBox.jsx:121 | Toggling a driver flips whether its car is shown; every other car keeps its visibility |
| Visibility.ToggleHamTwice | src/tests/Store.test.jsx:141-147 | From the empty list one toggle lists "HAM" and a second one removes it |
| Store.RaceStore.constructor | src/utils/store.jsx:3-148 | The initial state: among others currentLap 0, selectedDriver "HAM", cameraMode "free", isSoundMuted true, empty lists, null selections |
| Store.RaceStore.SetDataLoaded | src/utils/store.jsx:6 | `dataLoaded` becomes the argument; its frame is that one field, so nothing else changes |
| Store.RaceStore.SetLoading | src/utils/store.jsx:9 | `loading` becomes the argument; its frame is that one field, so nothing else changes |
| Store.RaceStore.SetManualSkip | src/utils/store.jsx:18 | `manualSkip` becomes the argument; its frame is that one field, so nothing else changes |
| Store.RaceStore.SetSkipNextLap | src/utils/store.jsx:21 | `skipNextLap` becomes the argument; its frame is that one field, so nothing else changes |
| Store.RaceStore.SetTime | src/utils/store.jsx:25 | `time` becomes the argument; its frame is that one field, so nothing else changes |
| Store.RaceStore.SetStartTime | src/utils/store.jsx:28 | `startTime` becomes the argument; its frame is that one field, so nothing else changes |
| Store.RaceStore.SetManualStartTime | src/utils/store.jsx:31 | `manualStartTime` becomes the argument; its frame is that one field, so nothing else changes |
| Store.RaceStore.SetCurrentLap | src/utils/store.jsx:34 | `currentLap` becomes the argument; its frame is that one field, so nothing else changes |
| Store.RaceStore.SetMaxLaps | src/utils/store.jsx:37 | `maxLaps` becomes the argument; its frame is that one field, so nothing else changes |
| Store.RaceStore.SetCurrentLapTime | src/utils/store.jsx:40 | `currentLapTime` becomes the argument; its frame is that one field, so nothing else changes |
| Store.RaceStore.SetLapDuration | src/utils/store.jsx:43 | `lapDuration` becomes the argument; its frame is that one field, so nothing else changes |
| Store.RaceStore.SetLapsData | src/utils/store.jsx:47 | `lapsData` becomes the argument; its frame is that one field, so nothing else changes |
| Store.RaceStore.SetStreamData | src/utils/store.jsx:50 | `streamData` becomes the argument; its frame is that one field, so nothing else changes |
| Store.RaceStore.SetCompletedLapsData | src/utils/store.jsx:53 | `completedLapsData` becomes the argument; its frame is that one field, so nothing else changes |
| Store.RaceStore.SetDriverStatusData | src/utils/store.jsx:56 | `driverStatusData` becomes the argument; its frame is that one field, so nothing else changes |
| Store.RaceStore.SetDriverPositions | src/utils/store.jsx:59 | `driverPositions` becomes the argument; its frame is that one field, so nothing else changes |
| Store.RaceStore.SetDriverList | src/utils/store.jsx:62 | `driverList` becomes the argument; its frame is that one field, so nothing else changes |
| Store.RaceStore.SetTelemetryData | src/utils/store.jsx:76 | `telemetryData` becomes the argument; its frame is that one field, so nothing else changes |
| Store.RaceStore.SetSelectedDriver | src/utils/store.jsx:79 | `selectedDriver` becomes the argument; its frame is that one field, so nothing else changes |
| Store.RaceStore.SetDrivers | src/utils/store.jsx:82 | `drivers` becomes the argument; its frame is that one field, so nothing else changes |
| Store.RaceStore.SetLaps | src/utils/store.jsx:85 | `laps` becomes the argument; its frame is that one field, so nothing else changes |
| Store.RaceStore.SetSelectedYear | src/utils/store.jsx:89 | `selectedYear` becomes the argument; its frame is that one field, so nothing else changes |
| Store.RaceStore.SetSelectedLap | src/utils/store.jsx:92 | `selectedLap` becomes the argument; its frame is that one field, so nothing else changes |
| Store.RaceStore.SetSelectedType | src/utils/store.jsx:95 | `selectedType` becomes the argument; its frame is that one field, so nothing else changes |
| Store.RaceStore.SetIsDriverSelectDisabled | src/utils/store.jsx:98 | `isDriverSelectDisabled` becomes the argument; its frame is that one field, so nothing else changes |
| Store.RaceStore.SetIsLapSelectDisabled | src/utils/store.jsx:101 | `isLapSelectDisabled` becomes the argument; its frame is that one field, so nothing else changes |
| Store.RaceStore.SetIsYearSelectDisabled | src/utils/store.jsx:104 | `isYearSelectDisabled` becomes the argument; its frame is that one field, so nothing else changes |
| Store.RaceStore.SetCameraMode | src/utils/store.jsx:108 | `cameraMode` becomes the argument; its frame is that one field, so nothing else changes |
| Store.RaceStore.SetTranslation | src/utils/store.jsx:114 | `translation` becomes the argument; its frame is that one field, so nothing else changes |
| Store.RaceStore.SetRotation | src/utils/store.jsx:117 | `rotation` becomes the argument; its frame is that one field, so nothing else changes |
| Store.RaceStore.SetSpeedData | src/utils/store.jsx:121 | `speedData` becomes the argument; its frame is that one field, so nothing else changes |
| Store.RaceStore.SetBrakeData | src/utils/store.jsx:124 | `brakeData` becomes the argument; its frame is that one field, so nothing else changes |
| Store.RaceStore.SetRpmData | src/utils/store.jsx:127 | `rpmData` becomes the argument; its frame is that one field, so nothing else changes |
| Store.RaceStore.SetCurrentSpeed | src/utils/store.jsx:131 | `currentSpeed` becomes the argument; its frame is that one field, so nothing else changes |
| Store.RaceStore.SetSpeedMultiplierOverride | src/utils/store.jsx:134 | `speedMultiplierOverride` becomes the argument; its frame is that one field, so nothing else changes |
| Store.RaceStore.SetWeatherData | src/utils/store.jsx:137 | `weatherData` becomes the argument; its frame is that one field, so nothing else changes |
| Store.RaceStore.SetCurrentWeather | src/utils/store.jsx:140 | `currentWeather` becomes the argument; its frame is that one field, so nothing else changes |
| Store.RaceStore.SetIsSoundMuted | src/utils/store.jsx:143 | `isSoundMuted` becomes the argument; its frame is that one field, so nothing else changes |
| Store.RaceStore.SetFlags | src/utils/store.jsx:147 | `flags` becomes the argument; its frame is that one field, so nothing else changes |
| Store.RaceStore.ToggleDriverVisibility | src/utils/store.jsx:65-73 | The hidden list becomes the toggled list: the driver's membership flips, every other driver's is kept; only that field changes |
| Store.RaceStore.ToggleRacingLineVisibility | src/utils/store.jsx:111 | The racing-line flag is negated; only that field changes |
| Store.StoreScenario | src/tests/Store.test.jsx:63-185 | Setting time and lap leaves the other field alone, two racing-line toggles restore false, two toggles of "HAM" unlist it, and untouched fields keep their initial values |
| NewStore.TimingStore.constructor | src/utils/newStore.jsx:3-45 | The initial state: currentLap 0, maxLaps 0, manualStartTime null, skipNextLap false, empty lists |
| NewStore.TimingStore.SetLapsData | src/utils/newStore.jsx:5 | `lapsData` becomes the argument; its frame is that one field, so nothing else changes |
| NewStore.TimingStore.SetStreamData | src/utils/newStore.jsx:7 | `streamData` becomes the argument; its frame is that one field, so nothing else changes |
| NewStore.TimingStore.SetCompletedLapsData | src/utils/newStore.jsx:9 | `completedLapsData` becomes the argument; its frame is that one field, so nothing else changes |
| NewStore.TimingStore.SetDriverStatusData | src/utils/newStore.jsx:11 | `driverStatusData` becomes the argument; its frame is that one field, so nothing else changes |
| NewStore.TimingStore.SetCurrentLap | src/utils/newStore.jsx:13 | `currentLap` becomes the argument; its frame is that one field, so nothing else changes |
| NewStore.TimingStore.SetMaxLaps | src/utils/newStore.jsx:15 | `maxLaps` becomes the argument; its frame is that one field, so nothing else changes |
| NewStore.TimingStore.SetTime | src/utils/newStore.jsx:17 | `time` becomes the argument; its frame is that one field, so nothing else changes |
| NewStore.TimingStore.SetStartTime | src/utils/newStore.jsx:19 | `startTime` becomes the argument; its frame is that one field, so nothing else changes |
| NewStore.TimingStore.SetManualStartTime | src/utils/newStore.jsx:21 | `manualStartTime` becomes the argument; its frame is that one field, so nothing else changes |
| NewStore.TimingStore.SetDataLoaded | src/utils/newStore.jsx:23 | `dataLoaded` becomes the argument; its frame is that one field, so nothing else changes |
| NewStore.TimingStore.SetDriverPositions | src/utils/newStore.jsx:25 | `driverPositions` becomes the argument; its frame is that one field, so nothing else changes |
| NewStore.TimingStore.SetManualSkip | src/utils/newStore.jsx:30 | `manualSkip` becomes the argument; its frame is that one field, so nothing else changes |
| NewStore.TimingStore.SetSkipNextLap | src/utils/newStore.jsx:32 | `skipNextLap` becomes the argument; its frame is that one field, so nothing else changes |
| NewStore.TimingStore.SetDriverList | src/utils/newStore.jsx:34 | `driverList` becomes the argument; its frame is that one field, so nothing else changes |
| NewStore.TimingStore.ToggleDriverVisibility | src/utils/newStore.jsx:36-44 | The hidden list becomes the toggled list: the driver's membership flips, every other driver's is kept; only that field changes |
| NewStore.SetterScenario | src/utils/newStore.jsx:12-32 | Setting time, skip flag and lap from the initial state leaves maxLaps 0 and manualStartTime null |
| PositionsTable.NoEntryFallback | src/components/PositionsTable.jsx:188-196 | Without an entry at or before the time: all "DNF" for a DNF driver; otherwise position |lapsData|+1 with "+1 Lap" exactly when completed laps = maxLaps-1, and "Finished" otherwise |
| PositionsTable.LatestEntryUsed | src/components/PositionsTable.jsx:175-222 | With an entry at or before the time the result carries the position of the driver's latest such entry (first among equal times); before the final lap its fields are the entry's own, else the entry's or a "Finished"/"+1 Lap" label |
| PositionsTable.FinishedAtSessionEnd | src/components/PositionsTable.jsx:198-202 | On the final lap at or after the session end, a driver with an entry and no DNF status reads "Finished" in gap and interval and keeps a numeric position |
| PositionsTable.PositionKinds | src/components/PositionsTable.jsx:175-222 | The lookup never yields position "Finished", and yields "DNF" exactly for a DNF driver without an entry at or before the time |
| PositionsTable.LapsNumbered | src/components/PositionsTable.jsx:90 | The records of the current lap are exactly the records with that lap count |
| PositionsTable.LapDrivers | src/components/PositionsTable.jsx:91 | The set of drivers in the lap holds exactly the drivers of those records |
| PositionsTable.NotIn | src/components/PositionsTable.jsx:94-96 | The key filter keeps exactly the keys not among the excluded drivers |
| PositionsTable.RecordRowsDrivers | src/components/PositionsTable.jsx:103-106 | The rows built from the lap records have exactly those records' drivers |
| PositionsTable.ExtraRowsDrivers | src/components/PositionsTable.jsx:113-117 | The rows added for DNF and "+1 Lap" drivers are, in order, exactly those drivers |
| PositionsTable.DriversConcat | src/components/PositionsTable.jsx:100 | Appending rows appends their drivers |
| PositionsTable.MergedDrivers | src/components/PositionsTable.jsx:88-117 | The merged rows cover exactly the drivers of the lap's records, the DNF drivers and the "+1 Lap" drivers |
| PositionsTable.BoardDrivers | src/components/PositionsTable.jsx:119-140 | The board lists each of those drivers exactly once and nobody else |
| PositionsTable.Names | src/components/PositionsTable.jsx:151-154 | Each driver is mapped to the name of its first record, or kept when it has none |
| PositionsTable.FinishedDrivers | src/components/PositionsTable.jsx:143-148 | Exactly the drivers of merged rows with gap "Finished" |
| PositionsTable.DriverListSpec | src/components/PositionsTable.jsx:156-163 | The driver list has an entry exactly for each name of a lap-1 record; an entry is false exactly for the name of a DNF driver or of a driver whose merged row is "Finished" |
| PositionsTable.GetDriverPositions | src/components/PositionsTable.jsx:88-171 | The rows are the de-duplicated, sorted and repaired board and the driver list is as specified |
| PositionsTable.ClockTime | src/components/PositionsTable.jsx:52-58 | The published time never exceeds the session end and equals (manual start or start) + elapsed whenever that does not |
| PositionsTable.FirstLapAfter | src/components/PositionsTable.jsx:62-64 | The index of the first record whose time exceeds t (|lapsData| when none): every earlier record's time is at most t |
| PositionsTable.NextCurrentLap | src/components/PositionsTable.jsx:62-70 | The lap becomes that index + 1 when it does not exceed maxLaps; otherwise the current lap stays |
| PositionsTable.LapAfterAllRecords | src/components/PositionsTable.jsx:68-69 | Once every record's time is reached the lap asked for is |lapsData|+1, taken only when it does not exceed maxLaps |
| PositionsTable.PublishClock | src/components/PositionsTable.jsx:52-70 | The store's time is the clamped time, never past the session end, and the lap is moved by the rule; nothing else changes |
| PositionsTable.PublishBoard | src/components/PositionsTable.jsx:72-74 | The store receives the board and the driver list for the given time and lap |
| PositionsTable.Tick | src/components/PositionsTable.jsx:47-86 | Without loaded data nothing changes; otherwise time, lap, board and driver list are published, the board computed for the lap the tick started with |
| PositionsTable.SkipNextLap | src/components/PositionsTable.jsx:227-239 | Before the last lap and with a record of the current lap: manual start and time become its time, the lap advances, the clock restarts and the skip flag is set; otherwise nothing changes |
| PositionsTable.SkipScenario | src/tests/PositionsTable.test.jsx:47-76 | From lap 1 of 10 with a lap-1 record at 10 s, the skip sets manual start and time to 10, the lap to 2 and the flag |
| Timing.MaxLapsRecordSpec | src/pages/Timing.jsx:45-49 | The reduce fails exactly on no records; otherwise it returns a record with the greatest lap count, and no later record ties it (ties go to the later record) |
| Timing.MaxCompletedLapSpec | src/pages/Timing.jsx:82-88 | The greatest lap count among records with time <= time, or 0 when none |
| Timing.SkipReachesLap | src/pages/Timing.jsx:116-121 | After skipping to the time of lap n's record, the completed-lap maximum is at least n |
| Timing.PositionDataAtSpec | src/pages/Timing.jsx:94-111 | All "DNF" exactly when the driver has no entry at or before the time; otherwise the latest such entry's position, with "Finished" labels on the final lap for a driver with a record of it |
| Timing.CombinedRows | src/pages/Timing.jsx:123-126 | One row per lap record, in order, with that record's driver; no row has position "Finished" |
| Timing.TimingCompareAgrees | src/pages/Timing.jsx:135-139 | On numbers and one "DNF", the page's comparator orders exactly as the leaderboard order |
| Timing.TimingBoardDrivers | src/pages/Timing.jsx:128-147 | The table lists every driver with a lap record exactly once and nobody else |
| Timing.RepairCanLiftDnfAboveNumber | src/pages/Timing.jsx:141-147 | Repair runs after the sort, so the second of two "DNF" rows is renumbered 3 while the first stays "DNF" |
| Timing.TimingPage.constructor | src/pages/Timing.jsx:17-25 | The initial state: no records, lap 0, lap count 0, time 0, not loaded, no request made |
| Timing.TimingPage.Mount | src/pages/Timing.jsx:27-29 | The request is sent only when none was made before, and the flag is then set |
| Timing.TimingPage.OnResponse | src/pages/Timing.jsx:33-63 | Records, stream and lap 1 are stored; with no records the reduce throws and nothing else changes; otherwise the lap count is the reduce's, the clock starts at the session start and data is loaded |
| Timing.TimingPage.ClockTick | src/pages/Timing.jsx:71-79 | While loaded the time is the start time plus the whole seconds since the clock started; otherwise unchanged |
| Timing.TimingPage.SyncLap | src/pages/Timing.jsx:81-92 | The current lap is raised to the greatest completed lap, never lowered |
| Timing.TimingPage.SkipNextLap | src/pages/Timing.jsx:116-121 | The time jumps to the record of the next lap; without one it is unchanged |
| Timing.TimingPage.SkipThenSync | src/pages/Timing.jsx:116-121 | A skip followed by the lap effect reaches the next lap whenever it has a record, and never lowers the lap |
| Timing.TimingPage.Rows | src/pages/Timing.jsx:123-147 | The rendered rows are the merged, de-duplicated, sorted and repaired table |
| Track.Mix | src/components/MovingCarSimple.jsx:78-81 | Linear interpolation stays between its ends for t in [0, 1] and hits them at 0 and 1 |
| Track.FractionBounds | src/pages/Test.jsx:42 | A part within [0, whole) gives a fraction in [0, 1); a negative part gives a negative fraction |
| Track.DistanceTable | src/components/MovingCar.jsx:42-49 | The reference definition of the cumulative distance table, one entry per point; its steps, monotonicity and total are stated by Track.DistanceTableSteps, Track.DistanceTableMonotone and Track.TotalIsPathLength, and Track.BuildDistances is proved equal to it |
| Track.DistanceTableSteps | src/components/MovingCar.jsx:42-49 | The table starts at 0 and each entry adds the distance from the previous point |
| Track.DistanceTableMonotone | src/components/MovingCar.jsx:42-49 | With a non-negative distance the table is non-decreasing and non-negative |
| Track.PathLengthAppend | src/components/MovingCar.jsx:42-49 | The path length of a path with one more point grows by the last step |
| Track.TotalIsPathLength | src/components/MovingCar.jsx:52 | The table's last entry, the total distance, is the path length |
| Track.BuildDistances | src/components/MovingCar.jsx:42-49 | The map with a running total yields the distance table |
| Track.Scaled | src/components/MovingCar.jsx:61 | Each speed is multiplied by the same factor |
| Track.ScaledSum | src/components/MovingCar.jsx:59-61 | Scaling every speed scales their sum |
| Track.AdjustedSpeeds | src/components/MovingCar.jsx:58-62 | The adjusted profile has one sample per raw sample |
| Track.ScaledMean | src/components/MovingCar.jsx:59-61 | Scaling every speed scales their mean |
| Track.AdjustedMean | src/components/MovingCar.jsx:55-62 | With a non-empty profile of non-zero mean, the adjusted speeds' mean is totalDistance / duration |
| Track.SpeedIndex | src/components/MovingCar.jsx:71 | The index is at most len-1 and at least 0 for a non-negative time |
| Track.SpeedIndexSlice | src/components/MovingCar.jsx:71 | Below the clamp the index is floor(normalizedTime * len), the slice holding the time; at the clamp the time is in the last slice or beyond |
| Track.FirstAtLeast | src/components/MovingCar.jsx:82 | The first index whose distance is at least d, or the length when none |
| Track.PointIndex | src/components/MovingCar.jsx:82-83 | Always a valid index; every earlier entry is below d; the entry reaches d, or it is the last index and no entry reaches d |
| Track.PastEndIsLastIndex | src/components/MovingCar.jsx:83 | A distance past every entry gives the last index |
| Track.NextIndex | src/components/MovingCar.jsx:86 | The next index is in range, is 0 exactly after the last index, and is i+1 otherwise |
| Track.ClampDistance | src/components/MovingCar.jsx:79 | The looked-up distance never exceeds the total or the travelled distance and is one of them |
| MovingCar.Car.constructor | src/components/MovingCar.jsx:42-62 | The memoised tables: spaced points, distance table, total = path length, adjusted speeds; elapsed and distance start at 0 |
| MovingCar.Car.Step | src/components/MovingCar.jsx:64-136 | Elapsed grows by delta; speed index, clamped lookup, point index and wrapped next index as specified; the follow camera sits at the car + (0, 10, -20) only in follow mode; the lap time is published; elapsed and distance reset once normalised time >= 1 |
| MovingCarWithSound.BrakeIntensity | src/components/MovingCarwithsound.jsx:178-179 | The intensity is 3 or 0, and 3 exactly when the brake sample exists and is non-zero (truthy) |
| MovingCarWithSound.BandOf | src/components/MovingCarwithsound.jsx:182-201 | Acceleration exactly above 9000 rpm, cruise exactly in (5000, 9000], deceleration otherwise (including no sample) |
| MovingCarWithSound.SelectRule | src/components/MovingCarwithsound.jsx:184-200 | The selected band plays afterwards; if it was not playing the other two stop; if it was, nothing changes; at most one playing stream is preserved |
| MovingCarWithSound.Car.constructor | src/components/MovingCarwithsound.jsx:41-57 | The memoised tables as in MovingCar, no stream playing, brake light off |
| MovingCarWithSound.Car.Advance | src/components/MovingCarwithsound.jsx:123-175 | Elapsed grows by delta, distance accumulates the adjusted speed times delta, and the indices, position and follow camera (0, 5, -10) are as specified |
| MovingCarWithSound.Car.UpdateSound | src/components/MovingCarwithsound.jsx:182-201 | The streams become the selection for the rpm band: exactly that band plays |
| MovingCarWithSound.Car.Step | src/components/MovingCarwithsound.jsx:123-207 | The point index is the clamped table lookup of the advanced distance and the car stands at that point; the follow camera sits at the car + (0, 5, -10) and looks at it only in follow mode, otherwise it stays; the published speed is the raw speedData[speedIndex]; brake intensity and streams follow the samples at the speed index; lap time published; reset once normalised time >= 1 |
| MovingBox.NextLap | src/components/MovingBox.jsx:85 | The next lap index stays in range and wraps from the last lap to 0 |
| MovingBox.Box.constructor | src/components/MovingBox.jsx:7-16 | Lap index 0, current lap data `laps[0]`, empty tables, elapsed and distance 0 |
| MovingBox.Box.OnLapsChange | src/components/MovingBox.jsx:25-31 | When a lap exists at the current index it becomes the current lap data and elapsed and distance reset to 0; otherwise they are kept |
| MovingBox.Box.LoadLapTables | src/components/MovingBox.jsx:33-66 | With telemetry the tables are rebuilt from the lap (distance table, adjusted speeds for the lap duration); without it they are kept |
| MovingBox.Box.Move | src/components/MovingBox.jsx:94-113 | Speed index clamped, distance accumulated then clamped to the total, point index and position as specified |
| MovingBox.Box.Advance | src/components/MovingBox.jsx:82-113 | Step's branch without the skip flag: elapsed becomes the session time; once it reaches the lap duration the lap index wraps to the next lap, that lap becomes current and elapsed restarts at 0; then the box moves from 0 (after a rollover) or from the old distance |
| MovingBox.Box.Step | src/components/MovingBox.jsx:68-115 | No-op without lap data or points and before the lap start; with the skip flag elapsed becomes the lap duration, distance the last entry and the flag clears; past the lap duration the lap index wraps modulo the lap count and elapsed and distance reset; otherwise one move |
| MovingBox.Box.Render | src/components/MovingBox.jsx:117-121 | The box is drawn only with lap data and points, and is visible exactly when its driver is not hidden |
| MovingBox.VisibilityScenario | src/components/MovingBox.jsx:121 | A box is visible, hidden after one toggle of its driver, and visible again after a second |
| MovingCarSimple.JsRemInt | src/components/MovingCarSimple.jsx:75 | JavaScript's truncating remainder: the Euclidean one for a non-negative dividend, in (-m, 0] for a negative one |
| MovingCarSimple.CameraPointIndex | src/components/MovingCarSimple.jsx:75 | Always a valid index: 150 points behind the car from index 150 on, else 0 (no wrap-around) |
| MovingCarSimple.Car.constructor | src/components/MovingCarSimple.jsx:41-50 | Distance table and total as path length; elapsed, distance and camera rig start at 0 |
| MovingCarSimple.Car.Step | src/components/MovingCarSimple.jsx:52-99 | Distance is overwritten as normalised time times the total; the follow camera pins the rig at height 2 and looks at height 2; tv mode places the camera at the car + (0, 5, -10); reset once normalised time >= 1 |
| MovingCarSimple.OverrunHoldsLastPoint | src/components/MovingCarSimple.jsx:59-60 | When the normalised time exceeds 1 on a track of positive length, the point index is the last one |
| TestInterpolation.AdjustCoordinates | src/pages/Test.jsx:12-18 | Each sample is offset by (-47.5, -0.055), z mirrored about 19.5, then rotated |
| TestInterpolation.FirstLater | src/pages/Test.jsx:30-36 | The first index from the start whose timestamp exceeds t, every one before it at most t; none when no such sample |
| TestInterpolation.FindNext | src/pages/Test.jsx:30-36 | The loop with its break finds the first index from 1 whose timestamp exceeds t |
| TestInterpolation.Car.constructor | src/pages/Test.jsx:12-18 | The path and its adjusted coordinates, position at the origin |
| TestInterpolation.Car.Frame | src/pages/Test.jsx:30-49 | The box is placed by the frame function: interpolated between the bracketing samples, or left where it is |
| TestInterpolation.BracketEncloses | src/pages/Test.jsx:30-46 | When the chosen index is 2 or more, prev.ts <= t < next.ts without any ordering assumption, progress is in [0, 1) and every coordinate lies between the two samples' |
| TestInterpolation.ExactAtSample | src/pages/Test.jsx:30-46 | With strictly increasing timestamps a time equal to sample k's (k not last) places the box exactly at sample k |
| TestInterpolation.BeforeFirstExtrapolates | src/pages/Test.jsx:30-46 | Before the first sample the first pair is chosen and the progress is negative: extrapolation, not clamping |
| TestInterpolation.NoLaterSampleStays | src/pages/Test.jsx:30-38 | Without a later sample from index 1 on (including paths shorter than two) the box stays put |
| Rain.InitialDrop | src/components/Rain.jsx:10-20 | The end point is the start point 10 lower with the same x and z; draws in [0, 1) give start x, z in [-425, 425) and y in [0, 500) |
| Rain.Fall | src/components/Rain.jsx:24-32 | Only the two y values change: both fall by 2, or the start resets to 500 and the end to 490; a 10-long segment stays 10 long; a start in [-50, 500] stays there |
| Rain.FallKeepsHealthy | src/components/Rain.jsx:26-31 | A buffer of 10-long drops with starts in [-50, 500] stays so after every drop falls |
| Rain.Initialize | src/components/Rain.jsx:10-20 | The fill loop writes every drop from its three draws |
| Rain.WriteDrop | src/components/Rain.jsx:13-18 | Writes exactly the six numbers of one drop and leaves every other drop unchanged |
| Rain.InitialHealthy | src/components/Rain.jsx:10-20 | With draws in [0, 1) the initial buffer is healthy |
| Rain.FallDrop | src/components/Rain.jsx:26-31 | Drop i falls one frame in place and every other drop is unchanged |
| Rain.Update | src/components/Rain.jsx:22-35 | A no-op without the ref; otherwise every drop falls one frame in place, and health is preserved |
| TestRain.InitialPoint | src/pages/TestRain.jsx:13-17 | Draws in [0, 1) give x and z in [-425, 425) and y in [0, 500) |
| TestRain.Fall | src/pages/TestRain.jsx:23-26 | x and z stay; y falls by 2 or resets to 500; a y in [-50, 500] stays there |
| TestRain.FallKeepsRange | src/pages/TestRain.jsx:23-26 | A buffer with every y in [-50, 500] stays so after every point falls |
| TestRain.Initialize | src/pages/TestRain.jsx:13-17 | The fill loop writes every point from its three draws |
| TestRain.InitialInRange | src/pages/TestRain.jsx:13-17 | With draws in [0, 1) every initial y is in [-50, 500] |
| TestRain.Update | src/pages/TestRain.jsx:19-30 | A no-op without the ref; otherwise every point falls one frame in place, and the range is preserved |
| FlagIndicator.RenderIcon | src/components/FlagIndicator.jsx:17-34 | The flag icon exactly for "green" and every unlisted type; the warning triangle exactly for "yellow", the stop sign exactly for "red", the car exactly for "safety-car", the side-on car exactly for "virtual-safety-car" and the crashed car exactly for "virtual-safety-car-ending" |
| FlagIndicator.UpperChar | src/components/FlagIndicator.jsx:45 | Upper-casing maps a-z to A-Z and leaves other characters alone |
| FlagIndicator.DefaultCaption | src/components/FlagIndicator.jsx:44-45 | Every other type gives a caption 5 longer than the type, ending in " Flag", with the first character upper-cased and the rest kept |
| FlagIndicator.Captions | src/components/FlagIndicator.jsx:36-47 | "yellow" gives "Yellow Flag", "red" "Red Flag", "green" "Green Flag", and the three safety-car types their fixed captions |
| FlagIndicator.SafetyCarCaptionsDiffer | src/components/FlagIndicator.jsx:36-47 | A safety-car caption never equals a flag caption |
## Left out

- three.js geometry is not modelled: `CatmullRomCurve3.getSpacedPoints`, `Vector3.distanceTo` (taken as any non-negative function), the Y-axis rotation matrices (a function parameter in `TestInterpolation.AdjustCoordinates`, already applied to the points elsewhere), quaternion `setFromUnitVectors` and `slerp` (the cars' orientation is left out), and the wheel rotation.
- Arithmetic is over reals. Float rounding, Float32 buffers and `parseFloat(newTime.toFixed(3))` in the tick are not modelled, so `PositionsTable.PublishClock` publishes the unrounded clamped time.
- Timers are not modelled: `accurateInterval`, `setInterval` and `setTimeout` (`FlagIndicator`'s fade-in `visible` state). `Date.now()` is the parameter `now`.
- Network requests are not modelled. `Timing.TimingPage.OnResponse` receives the fetched fields as parameters. The unused `Math.min` over the stream times in the response handler is left out; its result is never read.
- Audio loading, `AudioListener` and the sound buffers are left out. Each of the three streams is its `isPlaying` flag, and `play`/`stop` set it.
- Rendering and JSX are left out, except the two visibility rules (`MovingBox.Box.Render`) and the icon choice (`FlagIndicator.RenderIcon`). So are the material colours, the brake-light material and the emissive colour; only the intensity is modelled.
- Randomness: `Math.random()` results are a sequence of draws. The range facts assume draws in [0, 1).
- MovingBox.Box.Step requires a non-empty `laps`. With no laps the source computes `% 0`, giving a `NaN` lap index, and then reads `laps[NaN]`; the model does not follow it there.
- MovingCar.Car.Step, MovingCarWithSound.Car.Step and MovingCarSimple.Car.Step require `delta >= 0` (a frame never goes back in time), and so does the speed-index bound they rely on. Their constructors require what the source divides by without checking: a non-empty speed profile with a non-zero mean, and a positive duration.
- TestInterpolation.Car.Frame requires the first two timestamps to differ (`Divisible`): the source divides by their difference unchecked. Later brackets differ by construction.
- Ranking.SortRows is a stable insertion sort. Where the source comparator contradicts itself (two "DNF" rows, or two "Finished" rows in `PositionsTable.jsx`), the JavaScript engine may order them either way; the model keeps their input order.
- PositionsTable.Tick and PositionsTable.PublishBoard compute the board for the lap the tick started with, as the interval's closure does, but read every other input fresh from the store, which the source does not. The interval effect is re-created only when `dataLoaded`, `startTime`, `manualStartTime`, `lapsData`, `currentLap` or `maxLaps` changes (src/components/PositionsTable.jsx:86), and it keeps the `getDriverPositions` of that moment. `getDriverPositions` is itself memoised on `lapsData`, `driverStatusData` and `completedLapsData` only (src/components/PositionsTable.jsx:170), and keeps the `getCurrentPositionData` it was built with, which reads `streamData` and `maxLaps` (src/components/PositionsTable.jsx:175-224). So in the source a new `driverStatusData` or `completedLapsData` reaches the board only once the effect is re-created, and a new `streamData` or `maxLaps` only once, in addition, one of those three tables has changed; until then the board is built from the older values. The model does not keep these stale copies: every store update is visible at the next tick. React's batching is not modelled either.
- Payloads that are stored but never inspected (telemetry, driver and lap menus, weather, flags) are an opaque `Payload` type in `Store`.
- FlagIndicator.UpperChar upper-cases ASCII letters only; `toUpperCase` on other scripts is not modelled.
- Driver names in `driverList` form a Dafny `map`, so the key order of the JavaScript object is not modelled.
- The interpolation follows the code, not the documented intent of clamping at the path's ends. Before the first sample the box extrapolates along the first segment (`TestInterpolation.BeforeFirstExtrapolates`). After the last sample it stays where it was (`TestInterpolation.NoLaterSampleStays`).
