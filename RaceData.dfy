/**
 * Records shared by the leaderboard code (PositionsTable.jsx, Timing.jsx) and the stores:
 * lap records, timing-stream entries, leaderboard rows, and the fold that finds a driver's
 * latest stream entry at or before a given time.
 */
module RaceData {

  datatype Option<+T> = None | Some(value: T)

  /** `s[i]` in JavaScript: the element, or `undefined` (here `None`) past the end. */
  function At<T>(s: seq<T>, i: nat): (r: Option<T>)
    ensures r.Some? <==> i < |s|
    ensures r.Some? ==> r.value == s[i]
  {
    if i < |s| then Some(s[i]) else None
  }

  /** A leaderboard position: a number, or one of the two strings the code compares against. */
  datatype Position = Num(n: int) | DNF | Finished

  /** One element of `lapsData`: the lap `numberOfLaps` of `driver` ended at session time `time`. */
  datatype LapRecord = LapRecord(driver: string, driverName: string, teamColor: string,
                                 numberOfLaps: int, time: real)

  /**
   * One element of `streamData`: the timing screen of `driver` at session time `time`, with
   * its numeric race position.
   */
  datatype StreamEntry = StreamEntry(driver: string, time: real, position: int,
                                     gap: string, interval: string)

  /** The three fields a position lookup contributes to a leaderboard row. */
  datatype PositionData = PositionData(position: Position, gap: string, interval: string)

  /** A leaderboard row: a driver, its team colour and the position data merged into it. */
  datatype Row = Row(driver: string, teamColor: string, position: Position,
                     gap: string, interval: string)

  /** A fetched JSON value that the modelled code only stores and hands on, kept as its text. */
  datatype Payload = Payload(json: string)

  /**
   * A JavaScript object keyed by driver code, as the list of its entries in `Object.keys`
   * order; a key that is absent reads as `undefined`, here `None`.
   */
  type Dict<V> = seq<(string, V)>

  function Lookup<V>(d: Dict<V>, k: string): (r: Option<V>)
    ensures r.Some? ==> (k, r.value) in d
    ensures r.None? ==> forall i :: 0 <= i < |d| ==> d[i].0 != k
  {
    if d == [] then None
    else if d[0].0 == k then Some(d[0].1)
    else Lookup(d[1..], k)
  }

  /** The keys of `d`, in order. */
  function Keys<V>(d: Dict<V>): (ks: seq<string>)
    ensures |ks| == |d| && forall i :: 0 <= i < |d| ==> ks[i] == d[i].0
  {
    if d == [] then [] else [d[0].0] + Keys(d[1..])
  }

  /**
   * The keys of `d` whose value is `v`, in key order (`Object.keys(d).filter(k => d[k] === v)`);
   * a key listed twice counts once, with the value `Lookup` reads for it.
   */
  function KeysWithValue<V(==)>(d: Dict<V>, v: V): seq<string>
  {
    if d == [] then []
    else
      var front := d[..|d| - 1];
      var last := d[|d| - 1];
      KeysWithValue(front, v) + (if last.1 == v && last.0 !in Keys(front) then [last.0] else [])
  }

  /** Looking up in a list extended at the end finds an earlier entry first. */
  lemma LookupAppend<V>(front: Dict<V>, x: (string, V), k: string)
    ensures Lookup(front + [x], k) ==
              if k in Keys(front) then Lookup(front, k) else if x.0 == k then Some(x.1) else None
    decreases |front|
  {
    if front != [] {
      assert (front + [x])[1..] == front[1..] + [x];
      LookupAppend(front[1..], x, k);
      assert Keys(front) == [front[0].0] + Keys(front[1..]);
    }
  }

  /** A key is selected exactly when looking it up yields `v`; no key is selected twice. */
  lemma KeysWithValueSpec<V>(d: Dict<V>, v: V)
    ensures forall k :: k in KeysWithValue(d, v) <==> Lookup(d, k) == Some(v)
    ensures forall i, j :: 0 <= i < j < |KeysWithValue(d, v)| ==> KeysWithValue(d, v)[i] != KeysWithValue(d, v)[j]
    ensures forall k :: k in KeysWithValue(d, v) ==> k in Keys(d)
  {
    KeysWithValueMembers(d, v);
    KeysWithValueDistinct(d, v);
  }

  lemma {:induction false} KeysWithValueMembers<V>(d: Dict<V>, v: V)
    ensures forall k :: k in KeysWithValue(d, v) <==> Lookup(d, k) == Some(v)
    ensures forall k :: k in KeysWithValue(d, v) ==> k in Keys(d)
  {
    if d != [] {
      var front := d[..|d| - 1];
      var last := d[|d| - 1];
      KeysWithValueMembers(front, v);
      assert d == front + [last];
      forall k ensures Lookup(d, k) == if k in Keys(front) then Lookup(front, k)
                                       else if last.0 == k then Some(last.1) else None {
        LookupAppend(front, last, k);
      }
      assert Keys(d) == Keys(front) + [last.0];
    }
  }

  lemma {:induction false} KeysWithValueDistinct<V>(d: Dict<V>, v: V)
    ensures forall i, j :: 0 <= i < j < |KeysWithValue(d, v)| ==> KeysWithValue(d, v)[i] != KeysWithValue(d, v)[j]
  {
    if d != [] {
      var front := d[..|d| - 1];
      var last := d[|d| - 1];
      KeysWithValueDistinct(front, v);
      KeysWithValueMembers(front, v);
      var s, r := KeysWithValue(front, v), KeysWithValue(d, v);
      if last.1 == v && last.0 !in Keys(front) {
        assert r == s + [last.0];
        forall i, j | 0 <= i < j < |r| ensures r[i] != r[j] {
          if j == |s| {
            assert r[i] == s[i] && s[i] in s;
          } else {
            assert r[i] == s[i] && r[j] == s[j];
          }
        }
      } else {
        assert r == s;
      }
    }
  }

  /** The merge `{ ...row, ...data }`: the position fields come from `data`. */
  function Merge(driver: string, teamColor: string, data: PositionData): Row
  {
    Row(driver, teamColor, data.position, data.gap, data.interval)
  }

  /** A stream entry read as position data: its own position, gap and interval. */
  function EntryData(e: StreamEntry): PositionData
  {
    PositionData(Num(e.position), e.gap, e.interval)
  }

  /**
   * A stream entry that the position lookup for `driver` may use: its own entries, at or
   * before `bound` when there is one.
   */
  predicate Eligible(e: StreamEntry, driver: string, bound: Option<real>)
  {
    e.driver == driver && (bound.None? || e.time <= bound.value)
  }

  /**
   * The reduce over the stream that keeps an eligible entry when nothing is kept yet or when it
   * is strictly later than the kept one (a left fold, written as recursion on the prefix).
   */
  function LatestEntry(stream: seq<StreamEntry>, driver: string, bound: Option<real>): Option<StreamEntry>
  {
    if stream == [] then None
    else
      var kept := LatestEntry(stream[..|stream| - 1], driver, bound);
      var e := stream[|stream| - 1];
      if Eligible(e, driver, bound) && (kept.None? || e.time > kept.value.time) then Some(e)
      else kept
  }

  /** The fold finds nothing exactly when no entry is eligible. */
  lemma {:induction false} LatestEntryNone(stream: seq<StreamEntry>, driver: string, bound: Option<real>)
    ensures LatestEntry(stream, driver, bound).None? <==>
              forall i :: 0 <= i < |stream| ==> !Eligible(stream[i], driver, bound)
  {
    if stream != [] {
      var front := stream[..|stream| - 1];
      LatestEntryNone(front, driver, bound);
      assert forall i :: 0 <= i < |front| ==> front[i] == stream[i];
    }
  }

  /**
   * When the fold finds an entry, it is the entry at an index `k` that is eligible, has the
   * greatest time among the eligible entries, and is the first eligible entry with that time.
   */
  lemma {:induction false} LatestEntryIsLatest(stream: seq<StreamEntry>, driver: string, bound: Option<real>)
    returns (k: nat)
    requires LatestEntry(stream, driver, bound).Some?
    ensures k < |stream| && stream[k] == LatestEntry(stream, driver, bound).value
    ensures Eligible(stream[k], driver, bound)
    ensures forall i :: 0 <= i < |stream| && Eligible(stream[i], driver, bound) ==>
                          stream[i].time <= stream[k].time
    ensures forall i :: 0 <= i < k && Eligible(stream[i], driver, bound) ==>
                          stream[i].time < stream[k].time
  {
    var front := stream[..|stream| - 1];
    var kept := LatestEntry(front, driver, bound);
    var e := stream[|stream| - 1];
    assert forall i :: 0 <= i < |front| ==> front[i] == stream[i];
    if Eligible(e, driver, bound) && (kept.None? || e.time > kept.value.time) {
      k := |stream| - 1;
      if kept.Some? {
        var k0 := LatestEntryIsLatest(front, driver, bound);
      } else {
        LatestEntryNone(front, driver, bound);
      }
    } else {
      k := LatestEntryIsLatest(front, driver, bound);
    }
  }

  /** `array.find(p)` on lap records: the first record with `numberOfLaps == n`. */
  function FindLap(laps: seq<LapRecord>, n: int): (r: Option<LapRecord>)
    ensures r.None? <==> forall i :: 0 <= i < |laps| ==> laps[i].numberOfLaps != n
    ensures r.Some? ==> exists k :: 0 <= k < |laps| && laps[k] == r.value && r.value.numberOfLaps == n
                          && forall i :: 0 <= i < k ==> laps[i].numberOfLaps != n
  {
    if laps == [] then None
    else if laps[0].numberOfLaps == n then Some(laps[0])
    else
      var r := FindLap(laps[1..], n);
      assert forall i :: 1 <= i < |laps| ==> laps[i] == laps[1..][i - 1];
      r
  }

  /** `lapsData.find(lap => lap.Driver === driver)`. */
  function FindDriverLap(laps: seq<LapRecord>, driver: string): Option<LapRecord>
  {
    if laps == [] then None
    else if laps[0].driver == driver then Some(laps[0])
    else FindDriverLap(laps[1..], driver)
  }

  /** `lapsData.find(lap => lap.Driver === driver)?.TeamColor || "transparent"`. */
  function TeamColorOf(laps: seq<LapRecord>, driver: string): string
  {
    match FindDriverLap(laps, driver)
    case Some(l) => if l.teamColor != "" then l.teamColor else "transparent"
    case None => "transparent"
  }

  /** The drivers of a list of rows, in order. */
  function Drivers(rows: seq<Row>): (ds: seq<string>)
    ensures |ds| == |rows| && forall i :: 0 <= i < |rows| ==> ds[i] == rows[i].driver
  {
    if rows == [] then [] else [rows[0].driver] + Drivers(rows[1..])
  }
}
