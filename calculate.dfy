/** The batch calculation backend (calculate.py): the same-day constellation cache and its
    clearing, the required-field check and the time grid of a calculation request, the
    progress record of a batch, and the first-match satellite search. Positions come
    from an oracle: `subpoint(s, t)` is the latitude and longitude under satellite `s`
    (its index in the list) at time `t`. Times are whole seconds. */
module Calculate {
  import opened Common
  import opened Text

  // ---------------------------------------------------------------------------
  // The same-day constellation cache (cache_satellites, clear_satellite_cache)
  // ---------------------------------------------------------------------------

  const SecondsPerDay: int := 24 * 60 * 60

  /** Two instants fall on the same calendar date (whole days since the epoch). */
  predicate SameDay(a: int, b: int)
  {
    a / SecondsPerDay == b / SecondsPerDay
  }

  /** What the cache answers for a constellation at `now`: the stored value when one was
      stored on the same date, nothing otherwise. */
  function Lookup<T>(entries: map<string, (T, int)>, constellation: string, now: int): (r: Option<T>)
    ensures r.Some? <==> constellation in entries && SameDay(entries[constellation].1, now)
    ensures r.Some? ==> r.value == entries[constellation].0
  {
    if constellation in entries && SameDay(entries[constellation].1, now) then Some(entries[constellation].0)
    else None
  }

  class SatelliteCache<T> {
    /** Per constellation: the loaded satellites and when they were loaded. */
    var entries: map<string, (T, int)>

    constructor()
      ensures entries == map[]
    {
      entries := map[];
    }

    /** The cached satellites of a constellation when they were loaded today; otherwise the
        loader's result (`loaded`, consulted only then), which replaces the entry. */
    method Get(constellation: string, now: int, loaded: T) returns (satellites: T)
      modifies this
      ensures Lookup(old(entries), constellation, now).Some? ==>
        satellites == Lookup(old(entries), constellation, now).value && entries == old(entries)
      ensures Lookup(old(entries), constellation, now).None? ==>
        satellites == loaded && entries == old(entries)[constellation := (loaded, now)]
    {
      if constellation in entries {
        var (cached, timestamp) := entries[constellation];
        if now / SecondsPerDay == timestamp / SecondsPerDay {
          return cached;
        }
      }
      satellites := loaded;
      entries := entries[constellation := (satellites, now)];
    }

    /** Removes one constellation's entry; with no name, or an empty one (falsy in
        Python), empties the cache. */
    method ClearSatelliteCache(constellation: Option<string>)
      modifies this
      ensures constellation.Some? && constellation.value != [] ==>
        entries == old(entries) - {constellation.value}
      ensures constellation.None? || constellation.value == [] ==> entries == map[]
    {
      if constellation.Some? && constellation.value != [] {
        entries := entries - {constellation.value};
      } else {
        entries := map[];
      }
    }
  }

  /** A value stored at `now` is served for the rest of that date and not after it, and
      storing one constellation leaves what the cache says about the others unchanged. */
  lemma StoredThenServed<T>(entries: map<string, (T, int)>, constellation: string, v: T, now: int,
                            later: int, other: string)
    ensures Lookup(entries[constellation := (v, now)], constellation, later) ==
      (if SameDay(now, later) then Some(v) else None)
    ensures other != constellation ==>
      Lookup(entries[constellation := (v, now)], other, later) == Lookup(entries, other, later)
  {
  }

  /** Clearing one constellation makes the cache miss for it and changes nothing for the
      others. */
  lemma ClearedMisses<T>(entries: map<string, (T, int)>, constellation: string, other: string, now: int)
    ensures Lookup(entries - {constellation}, constellation, now).None?
    ensures other != constellation ==>
      Lookup(entries - {constellation}, other, now) == Lookup(entries, other, now)
  {
  }

  // ---------------------------------------------------------------------------
  // Required fields (calculate)
  // ---------------------------------------------------------------------------

  /** A field of the request's JSON body: `null`, or some value. */
  datatype JsonValue = Null | Value(text: string)

  const RequiredFields: seq<string> :=
    ["lat_ue", "lon_ue", "alt_ue", "start_time", "end_time", "interval", "frequency"]

  /** `data.get(field) is None`: the field is absent or null. */
  predicate IsMissing(data: map<string, JsonValue>, field: string)
  {
    field !in data || data[field] == Null
  }

  /** The fields of `fields` that are missing from `data`, in the order of `fields`. */
  function Missing(fields: seq<string>, data: map<string, JsonValue>): (r: seq<string>)
    ensures |r| <= |fields|
  {
    if fields == [] then []
    else (if IsMissing(data, fields[0]) then [fields[0]] else []) + Missing(fields[1..], data)
  }

  /** A field is listed exactly when it is one of the fields and is missing. */
  lemma {:induction false} MissingSpec(fields: seq<string>, data: map<string, JsonValue>, f: string)
    ensures f in Missing(fields, data) <==> f in fields && IsMissing(data, f)
  {
    if fields != [] {
      MissingSpec(fields[1..], data, f);
      assert fields == [fields[0]] + fields[1..];
    }
  }

  /** The fields joined with a separator (`', '.join`). */
  function JoinWith(parts: seq<string>, sep: string): string
  {
    if parts == [] then [] else if |parts| == 1 then parts[0] else parts[0] + sep + JoinWith(parts[1..], sep)
  }

  /** The answer to a request missing a required field: status 400 and the list of the
      missing fields. */
  function RequiredCheck(data: map<string, JsonValue>): (r: Option<(int, string)>)
    ensures r.Some? ==> r.value.0 == 400
  {
    var missing := Missing(RequiredFields, data);
    if missing != [] then Some((400, "缺少必要字段: " + JoinWith(missing, ", "))) else None
  }

  /** The request is refused exactly when one of the seven required fields is missing. */
  lemma RequiredCheckIff(data: map<string, JsonValue>)
    ensures RequiredCheck(data).Some? <==> exists k :: 0 <= k < |RequiredFields| && IsMissing(data, RequiredFields[k])
  {
    var missing := Missing(RequiredFields, data);
    if missing != [] {
      MissingSpec(RequiredFields, data, missing[0]);
    }
    forall k | 0 <= k < |RequiredFields| && IsMissing(data, RequiredFields[k])
      ensures missing != []
    {
      MissingSpec(RequiredFields, data, RequiredFields[k]);
    }
  }

  // ---------------------------------------------------------------------------
  // The time grid (calculate, find_satellite)
  // ---------------------------------------------------------------------------

  /** start, start + interval, ... while not past `end`. */
  function TimePoints(start: int, end: int, interval: nat): (ts: seq<int>)
    requires interval > 0
    decreases if start <= end then end - start + 1 else 0
  {
    if start > end then [] else [start] + TimePoints(start + interval, end, interval)
  }

  /** The `k`-th point is start + k·interval, and it exists exactly when that is not past
      `end`. */
  lemma {:induction false} TimePointsAt(start: int, end: int, interval: nat, k: nat)
    requires interval > 0
    ensures k < |TimePoints(start, end, interval)| <==> start + k * interval <= end
    ensures k < |TimePoints(start, end, interval)| ==> TimePoints(start, end, interval)[k] == start + k * interval
    decreases if start <= end then end - start + 1 else 0
  {
    if start <= end && k > 0 {
      TimePointsAt(start + interval, end, interval, k - 1);
      MulSucc(k - 1, interval);
    } else if k > 0 {
      MulMono(0, k, interval);
    }
  }

  /** There are ⌊(end − start)/interval⌋ + 1 points when start ≤ end, and none otherwise. */
  lemma TimePointsCount(start: int, end: int, interval: nat)
    requires interval > 0
    ensures |TimePoints(start, end, interval)| == if start <= end then (end - start) / interval + 1 else 0
  {
    var n := |TimePoints(start, end, interval)|;
    if start <= end {
      TimePointsAt(start, end, interval, 0);
      TimePointsAt(start, end, interval, n - 1);
      TimePointsAt(start, end, interval, n);
      QuotientOf(end - start, interval, n - 1);
    }
  }

  /** A quotient pinned between two consecutive multiples. */
  lemma QuotientOf(d: nat, c: nat, q: nat)
    requires c > 0 && q * c <= d < (q + 1) * c
    ensures d / c == q
  {
    var p := d / c;
    assert p * c + d % c == d;
    MulSucc(q, c);
    MulSucc(p, c);
    if p < q {
      MulMono(p + 1, q, c);
    } else if p > q {
      MulMono(q + 1, p, c);
    }
  }

  /** The grid of a calculation: the points from start to end, one interval apart. */
  method BuildTimePoints(start: int, end: int, interval: nat) returns (timePoints: seq<int>)
    requires interval > 0
    ensures timePoints == TimePoints(start, end, interval)
  {
    timePoints := [];
    var current := start;
    while current <= end
      invariant timePoints + TimePoints(current, end, interval) == TimePoints(start, end, interval)
      decreases end - current
    {
      var next := current + interval;
      assert TimePoints(current, end, interval) == [current] + TimePoints(next, end, interval);
      assert timePoints + [current] + TimePoints(next, end, interval) ==
        timePoints + ([current] + TimePoints(next, end, interval));
      timePoints := timePoints + [current];
      current := next;
    }
  }

  /** The loop as written for an interval that is not positive: on every pass the time is
      still not past `end`, so the loop test never fails. With interval 0 the loop runs for
      ever; with a negative interval it ends only when the date arithmetic overflows. */
  lemma NonPositiveIntervalLoops(start: int, end: int, interval: int, passes: nat)
    requires start <= end && interval <= 0
    ensures start + passes * interval <= end
  {
    MulMono(0, passes, -interval);
    assert passes * interval == -(passes * -interval);
  }

  /** The grid with the interval checked first: a non-positive interval is refused instead
      of looping. */
  method BuildTimePointsChecked(start: int, end: int, interval: int) returns (timePoints: Option<seq<int>>)
    ensures interval <= 0 <==> timePoints.None?
    ensures interval > 0 ==> timePoints == Some(TimePoints(start, end, interval))
  {
    if interval <= 0 {
      return None;
    }
    var points := BuildTimePoints(start, end, interval);
    timePoints := Some(points);
  }

  // ---------------------------------------------------------------------------
  // Progress of a batch (calculate)
  // ---------------------------------------------------------------------------

  /** The percentage reported after satellite `index` of `total` (before rounding). */
  function ProgressPercent(index: nat, total: nat): real
    requires index < total
  {
    ((index + 1) as real / total as real) * 100.0
  }

  /** The unrounded percentage is positive, at most 100, reaches 100 exactly at the last
      satellite, and grows with the index. */
  lemma ProgressBounds(i: nat, j: nat, total: nat)
    requires i < total && j < total
    ensures 0.0 < ProgressPercent(i, total) <= 100.0
    ensures ProgressPercent(i, total) == 100.0 <==> i + 1 == total
    ensures i < j ==> ProgressPercent(i, total) < ProgressPercent(j, total)
  {
    var t := total as real;
    assert (i + 1) as real <= t;
    assert (i + 1) as real / t <= 1.0;
    if i < j {
      assert (i + 1) as real / t < (j + 1) as real / t;
    }
  }

  /** One calculated row: its values, and the satellite it belongs to. */
  datatype Row = Row(values: map<string, real>, satelliteName: string)

  /** The rows labelled with the satellite's name. */
  function Tag(rows: seq<Row>, name: string): (r: seq<Row>)
    ensures |r| == |rows|
    ensures forall k :: 0 <= k < |r| ==> r[k] == rows[k].(satelliteName := name)
  {
    seq(|rows|, k requires 0 <= k < |rows| => rows[k].(satelliteName := name))
  }

  /** The rows of every satellite whose calculation succeeded, in order, each labelled. */
  function Collected(names: seq<string>, outcomes: seq<Option<seq<Row>>>): seq<Row>
    requires |names| == |outcomes|
  {
    if names == [] then []
    else
      var n := |names| - 1;
      Collected(names[..n], outcomes[..n]) + (if outcomes[n].Some? then Tag(outcomes[n].value, names[n]) else [])
  }

  /** The answer of a batch: the rows, or status 400 when no satellite gave any. */
  datatype CalcResponse = Results(rows: seq<Row>) | NoResults(status: int, message: string)

  class Progress {
    var percentage: real
    var status: string

    constructor()
      ensures percentage == 0.0 && status == "未开始"
    {
      percentage := 0.0;
      status := "未开始";
    }

    /** Reports satellite `index` of `total` as done. */
    method Advance(index: nat, total: nat)
      requires index < total
      modifies this
      ensures percentage == ProgressPercent(index, total) && status == old(status)
    {
      percentage := ((index + 1) as real / total as real) * 100.0;
    }
  }

  /** Calculates the satellites in turn; `outcomes[i]` is what the calculation of satellite
      `i` gave (nothing when it failed, and that satellite is skipped). The progress shows
      each satellite as it is being calculated and ends at 100% "完成". */
  method CalculateAll(progress: Progress, names: seq<string>, outcomes: seq<Option<seq<Row>>>)
    returns (response: CalcResponse)
    requires |names| == |outcomes|
    modifies progress
    ensures progress.status == "完成" && progress.percentage == 100.0
    ensures Collected(names, outcomes) == [] ==> response == NoResults(400, "没有有效的计算结果")
    ensures Collected(names, outcomes) != [] ==> response == Results(Collected(names, outcomes))
  {
    var allResults: seq<Row> := [];
    var total := |names|;
    var index := 0;
    while index < total
      invariant index <= total
      invariant allResults == Collected(names[..index], outcomes[..index])
    {
      progress.status := "计算卫星 " + names[index];
      assert names[..index + 1][..index] == names[..index];
      assert outcomes[..index + 1][..index] == outcomes[..index];
      if outcomes[index].None? {
        index := index + 1;
        continue;
      }
      allResults := allResults + Tag(outcomes[index].value, names[index]);
      progress.Advance(index, total);
      index := index + 1;
    }
    assert names[..index] == names && outcomes[..index] == outcomes;
    progress.status := "完成";
    progress.percentage := 100.0;
    if allResults == [] {
      return NoResults(400, "没有有效的计算结果");
    }
    response := Results(allResults);
  }

  // ---------------------------------------------------------------------------
  // First-match satellite search (find_satellite)
  // ---------------------------------------------------------------------------

  /** The searched spot and its tolerances. */
  datatype Target = Target(lat: real, lon: real, latError: real, lonError: real)

  datatype Found = Found(satellite: string, time: int, latSat: real, lonSat: real)

  function Abs(x: real): real { if x < 0.0 then -x else x }

  /** Satellite `s` is over the target at time `t`. */
  predicate Hit(subpoint: (nat, int) -> (real, real), target: Target, s: nat, t: int)
  {
    var (lat, lon) := subpoint(s, t);
    Abs(lat - target.lat) <= target.latError && Abs(lon - target.lon) <= target.lonError
  }

  /** The first time of `ts` at which satellite `s` is over the target. */
  function FirstTime(subpoint: (nat, int) -> (real, real), target: Target, s: nat, ts: seq<int>): (r: Option<int>)
    decreases |ts|
  {
    if ts == [] then None
    else if Hit(subpoint, target, s, ts[0]) then Some(ts[0])
    else FirstTime(subpoint, target, s, ts[1..])
  }

  /** The first satellite from `s` on, in list order, with a time of `ts` over the target,
      and that time. */
  function FirstHit(subpoint: (nat, int) -> (real, real), target: Target, count: nat, s: nat, ts: seq<int>): (r: Option<(nat, int)>)
    decreases count - s
  {
    if s >= count then None
    else match FirstTime(subpoint, target, s, ts)
      case Some(t) => Some((s, t))
      case None => FirstHit(subpoint, target, count, s + 1, ts)
  }

  lemma {:induction false} FirstTimeSpec(subpoint: (nat, int) -> (real, real), target: Target, s: nat, ts: seq<int>)
    ensures FirstTime(subpoint, target, s, ts).None? <==>
      forall k :: 0 <= k < |ts| ==> !Hit(subpoint, target, s, ts[k])
    ensures FirstTime(subpoint, target, s, ts).Some? ==>
      exists k :: 0 <= k < |ts| && ts[k] == FirstTime(subpoint, target, s, ts).value &&
        Hit(subpoint, target, s, ts[k]) && forall m :: 0 <= m < k ==> !Hit(subpoint, target, s, ts[m])
    decreases |ts|
  {
    if ts != [] && !Hit(subpoint, target, s, ts[0]) {
      var rest := ts[1..];
      FirstTimeSpec(subpoint, target, s, rest);
      forall k | 1 <= k < |ts| ensures ts[k] == rest[k - 1] { }
      if FirstTime(subpoint, target, s, rest).Some? {
        var k :| 0 <= k < |rest| && rest[k] == FirstTime(subpoint, target, s, rest).value &&
          Hit(subpoint, target, s, rest[k]) && forall m :: 0 <= m < k ==> !Hit(subpoint, target, s, rest[m]);
        assert ts[k + 1] == rest[k];
        forall m | 0 <= m < k + 1 ensures !Hit(subpoint, target, s, ts[m]) {
          if m > 0 {
            assert ts[m] == rest[m - 1];
          }
        }
      }
    } else if ts != [] {
      assert ts[0] == FirstTime(subpoint, target, s, ts).value;
    }
  }

  /** The search finds the first satellite in list order, and for it the first time, that
      is over the target; it finds nothing exactly when no satellite at any time is. */
  lemma {:induction false} FirstHitSpec(subpoint: (nat, int) -> (real, real), target: Target, count: nat, s: nat, ts: seq<int>)
    ensures FirstHit(subpoint, target, count, s, ts).None? <==>
      forall i, k :: s <= i < count && 0 <= k < |ts| ==> !Hit(subpoint, target, i, ts[k])
    ensures FirstHit(subpoint, target, count, s, ts).Some? ==>
      var (i, t) := FirstHit(subpoint, target, count, s, ts).value;
      && s <= i < count && FirstTime(subpoint, target, i, ts) == Some(t)
      && forall j, k :: s <= j < i && 0 <= k < |ts| ==> !Hit(subpoint, target, j, ts[k])
    decreases count - s
  {
    if s < count {
      FirstTimeSpec(subpoint, target, s, ts);
      FirstHitSpec(subpoint, target, count, s + 1, ts);
    }
  }

  /** What the search reports for a hit: the satellite's trimmed name, the time, and the
      position under it. */
  function Report(subpoint: (nat, int) -> (real, real), satellites: seq<string>, hit: Option<(nat, int)>): Option<Found>
    requires hit.Some? ==> hit.value.0 < |satellites|
  {
    match hit
    case None => None
    case Some((s, t)) => Some(Found(Strip(satellites[s]), t, subpoint(s, t).0, subpoint(s, t).1))
  }

  /** Scans the satellites in order and, for each, the times from start to end one
      interval apart; returns the first satellite and time over the target, or nothing. */
  method FindSatellite(satellites: seq<string>, subpoint: (nat, int) -> (real, real),
                       latUe: real, lonUe: real, deltaLat: real, deltaLon: real,
                       startTime: int, endTime: int, searchInterval: nat, latError: real, lonError: real)
    returns (result: Option<Found>)
    requires searchInterval > 0
    ensures var target := Target(latUe + deltaLat, lonUe + deltaLon, latError, lonError);
      var hit := FirstHit(subpoint, target, |satellites|, 0, TimePoints(startTime, endTime, searchInterval));
      (hit.Some? ==> hit.value.0 < |satellites|) && result == Report(subpoint, satellites, hit)
  {
    var target := Target(latUe + deltaLat, lonUe + deltaLon, latError, lonError);
    ghost var ts := TimePoints(startTime, endTime, searchInterval);
    var s := 0;
    while s < |satellites|
      invariant s <= |satellites|
      invariant FirstHit(subpoint, target, |satellites|, s, ts) == FirstHit(subpoint, target, |satellites|, 0, ts)
    {
      var t := FirstTimeOf(subpoint, target, s, startTime, endTime, searchInterval);
      if t.Some? {
        var (latSat, lonSat) := subpoint(s, t.value);
        FirstHitSpec(subpoint, target, |satellites|, 0, ts);
        return Some(Found(Strip(satellites[s]), t.value, latSat, lonSat));
      }
      s := s + 1;
    }
    FirstHitSpec(subpoint, target, |satellites|, 0, ts);
    result := None;
  }

  /** The inner loop: the first time from start to end, one interval apart, at which
      satellite `s` is over the target. */
  method FirstTimeOf(subpoint: (nat, int) -> (real, real), target: Target, s: nat,
                     startTime: int, endTime: int, searchInterval: nat)
    returns (t: Option<int>)
    requires searchInterval > 0
    ensures t == FirstTime(subpoint, target, s, TimePoints(startTime, endTime, searchInterval))
  {
    var currentTime := startTime;
    while currentTime <= endTime
      invariant FirstTime(subpoint, target, s, TimePoints(currentTime, endTime, searchInterval)) ==
        FirstTime(subpoint, target, s, TimePoints(startTime, endTime, searchInterval))
      decreases endTime - currentTime
    {
      var (latSat, lonSat) := subpoint(s, currentTime);
      if Abs(latSat - target.lat) <= target.latError && Abs(lonSat - target.lon) <= target.lonError {
        return Some(currentTime);
      }
      var next := currentTime + searchInterval;
      assert TimePoints(currentTime, endTime, searchInterval) == [currentTime] + TimePoints(next, endTime, searchInterval);
      currentTime := next;
    }
    t := None;
  }
}
