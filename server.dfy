/** The backend (server.py): the gimbal's azimuth convention and clamping, the tracker's
    session flags, the TLE prefix check, and the search for the first pass whose peak
    reaches 30 degrees. Satellite positions come from an orbit propagator that is not
    part of this model; here they are oracle functions from a time (seconds) to degrees. */
module Server {
  import opened Common
  import opened Text

  // ---------------------------------------------------------------------------
  // Azimuth convention (convert_azimuth_for_gimbal)
  // ---------------------------------------------------------------------------

  /** Maps a true azimuth into the gimbal's frame for the configured mount direction.
      "auto" and "north" fold (180, 360) onto (-180, 0); "south" turns the frame by half
      a turn; any other direction string leaves the azimuth as it is. */
  function ConvertAzimuth(direction: string, azimuth: real): (r: real)
    ensures direction == "auto" || direction == "north" ==>
      (r == azimuth || r == azimuth - 360.0) &&
      (0.0 <= azimuth < 360.0 ==> -180.0 < r <= 180.0)
    ensures direction == "south" ==>
      (r == azimuth - 180.0 || r == azimuth + 180.0) &&
      (0.0 <= azimuth < 360.0 ==> -180.0 <= r < 180.0)
    ensures direction != "auto" && direction != "north" && direction != "south" ==> r == azimuth
  {
    if direction == "auto" || direction == "north" then
      if azimuth > 180.0 then azimuth - 360.0 else azimuth
    else if direction == "south" then
      var c := azimuth - 180.0;
      if c < -180.0 then c + 360.0 else c
    else azimuth
  }

  // ---------------------------------------------------------------------------
  // TLE records (load_satellite_from_tle)
  // ---------------------------------------------------------------------------

  datatype SatelliteData = SatelliteData(name: string, line1: string, line2: string)

  /** The format check made before a TLE is handed to the propagator. */
  predicate ValidTle(d: SatelliteData)
  {
    StartsWith(d.line1, "1 ") && StartsWith(d.line2, "2 ")
  }

  /** Loading a TLE: the record itself when both lines carry their line numbers, an error otherwise. */
  function LoadSatelliteFromTle(d: SatelliteData): (r: Option<SatelliteData>)
    ensures r.Some? <==> (|d.line1| >= 2 && d.line1[0] == '1' && d.line1[1] == ' ' &&
                          |d.line2| >= 2 && d.line2[0] == '2' && d.line2[1] == ' ')
    ensures r.Some? ==> r.value == d
  {
    if ValidTle(d) then Some(d) else None
  }

  // ---------------------------------------------------------------------------
  // The tracker's session state (SatelliteTracker)
  // ---------------------------------------------------------------------------

  datatype GroundStation = GroundStation(latitude: real, longitude: real, altitude: real)

  /** Beijing time is eight hours ahead of UTC. */
  const BeijingOffset: int := 8 * 3600

  class SatelliteTracker {
    var isTracking: bool
    var currentSatellite: Option<SatelliteData>
    var groundStation: Option<GroundStation>
    var simulationMode: bool
    var simulationStartTime: Option<int>
    /** Whether a worker thread is attached to the tracker. */
    var trackingThread: bool
    var currentAzimuth: real
    var currentElevation: real
    /** Unset before the first session; the empty string converts like an unknown direction. */
    var gimbalDirection: string

    /** A session is running exactly when a worker is attached, and it then has a satellite
        and a ground station; the last commanded position is inside the gimbal's range. */
    ghost predicate Valid()
      reads this
    {
      && (isTracking <==> trackingThread)
      && (isTracking ==> currentSatellite.Some? && groundStation.Some?)
      && -180.0 <= currentAzimuth <= 180.0
      && -30.0 <= currentElevation <= 90.0
    }

    constructor ()
      ensures Valid()
      ensures !isTracking && !trackingThread && currentSatellite == None && groundStation == None
      ensures !simulationMode && simulationStartTime == None
      ensures currentAzimuth == 0.0 && currentElevation == 0.0
    {
      isTracking := false;
      currentSatellite := None;
      groundStation := None;
      simulationMode := false;
      simulationStartTime := None;
      trackingThread := false;
      currentAzimuth := 0.0;
      currentElevation := 0.0;
      gimbalDirection := "";
    }

    /** control_gimbal: clamps the command to the gimbal's range, sends it (to the hardware
        when present), and records it as the current position. Returns the command sent. */
    method ControlGimbal(azimuth: real, elevation: real) returns (sentAzimuth: real, sentElevation: real)
      requires Valid()
      modifies this
      ensures Valid()
      ensures sentAzimuth == Clamp(-180.0, 180.0, azimuth)
      ensures sentElevation == Clamp(-30.0, 90.0, elevation)
      ensures currentAzimuth == sentAzimuth && currentElevation == sentElevation
      ensures -180.0 <= azimuth <= 180.0 && -30.0 <= elevation <= 90.0 ==>
        sentAzimuth == azimuth && sentElevation == elevation
      ensures isTracking == old(isTracking) && trackingThread == old(trackingThread)
      ensures currentSatellite == old(currentSatellite) && groundStation == old(groundStation)
      ensures simulationMode == old(simulationMode) && simulationStartTime == old(simulationStartTime)
      ensures gimbalDirection == old(gimbalDirection)
    {
      sentAzimuth := Max(-180.0, Min(180.0, azimuth));
      sentElevation := Max(-30.0, Min(90.0, elevation));
      currentAzimuth := sentAzimuth;
      currentElevation := sentElevation;
    }

    /** stop_tracking: nothing to do when no session runs; otherwise clear the flag and
        detach the worker. */
    method StopTracking()
      requires Valid()
      modifies this
      ensures Valid()
      ensures !isTracking && !trackingThread
      ensures !old(isTracking) ==> unchanged(this)
      ensures currentSatellite == old(currentSatellite) && groundStation == old(groundStation)
      ensures simulationMode == old(simulationMode) && simulationStartTime == old(simulationStartTime)
      ensures currentAzimuth == old(currentAzimuth) && currentElevation == old(currentElevation)
      ensures gimbalDirection == old(gimbalDirection)
    {
      if !isTracking {
        return;
      }
      isTracking := false;
      if trackingThread {
        trackingThread := false;
      }
    }

    /** start_tracking: a running session is stopped first; a malformed TLE then aborts
        (the error propagates and the tracker stays stopped); otherwise the new session's
        satellite, station, mode and direction are recorded and one worker is started.
        `startTime` is the requested simulation start in Beijing time, `now` the UTC clock. */
    method StartTracking(satellite: SatelliteData, station: GroundStation, simulation: bool,
                         startTime: Option<int>, now: int, direction: string) returns (started: bool)
      requires Valid()
      modifies this
      ensures Valid()
      ensures started == ValidTle(satellite)
      ensures isTracking == started && trackingThread == started
      ensures !started ==>
        currentSatellite == old(currentSatellite) && groundStation == old(groundStation) &&
        simulationMode == old(simulationMode) && gimbalDirection == old(gimbalDirection) &&
        simulationStartTime == old(simulationStartTime)
      ensures started ==>
        && currentSatellite == Some(satellite)
        && groundStation == Some(station)
        && simulationMode == simulation
        && gimbalDirection == direction
        && simulationStartTime ==
             Some(if simulation && startTime.Some? then startTime.value - BeijingOffset else now)
      ensures currentAzimuth == old(currentAzimuth) && currentElevation == old(currentElevation)
    {
      if isTracking {
        StopTracking();
      }
      var loaded := LoadSatelliteFromTle(satellite);
      if loaded.None? {
        return false;
      }
      groundStation := Some(station);
      currentSatellite := loaded;
      simulationMode := simulation;
      gimbalDirection := direction;
      if simulation && startTime.Some? {
        simulationStartTime := Some(startTime.value - BeijingOffset);
      } else {
        simulationStartTime := Some(now);
      }
      isTracking := true;
      trackingThread := true;
      started := true;
    }
  }

  /** Starting twice leaves one session, the second, with a single worker; stopping then
      leaves no session and no worker. */
  method RestartThenStop(t: SatelliteTracker, s1: SatelliteData, s2: SatelliteData, station: GroundStation, now: int)
    requires t.Valid() && ValidTle(s1) && ValidTle(s2)
    modifies t
    ensures t.Valid() && !t.isTracking && !t.trackingThread
    ensures t.currentSatellite == Some(s2)
  {
    var ok1 := t.StartTracking(s1, station, false, None, now, "auto");
    assert t.isTracking && t.trackingThread;
    var ok2 := t.StartTracking(s2, station, false, None, now, "south");
    assert t.isTracking && t.trackingThread && t.currentSatellite == Some(s2);
    t.StopTracking();
  }

  // ---------------------------------------------------------------------------
  // Coarse candidate scan (find_pass_candidates_fast)
  // ---------------------------------------------------------------------------

  /** Scan steps in seconds. */
  const CoarseStep: int := 180
  const SkipAfterHit: int := 1200
  const HalfWindow: int := 900

  datatype Window = Window(passStart: int, passEnd: int)

  /** A sample counts as a possible pass when the elevation has just risen above the
      horizon or is already above 10 degrees. */
  predicate Hit(prevElevation: real, elevation: real)
  {
    (prevElevation <= 0.0 && elevation > 0.0) || elevation > 10.0
  }

  /** The candidate windows found from time `t` on, given the previous sample. */
  function Scan(el: int -> real, t: int, end: int, prev: Option<real>): seq<Window>
    decreases end - t + CoarseStep
  {
    if t > end then []
    else if prev.Some? && Hit(prev.value, el(t)) then
      [Window(t - HalfWindow, t + HalfWindow)] + Scan(el, t + SkipAfterHit, end, None)
    else Scan(el, t + CoarseStep, end, Some(el(t)))
  }

  /** Every window is 30 minutes long and centred on a sample, never beyond the end, at which
      the satellite is above the horizon; successive centres are at least 23 minutes apart. */
  lemma {:induction false} ScanWindows(el: int -> real, t: int, end: int, prev: Option<real>)
    ensures var ws := Scan(el, t, end, prev);
      && (forall w :: w in ws ==>
            && w.passEnd - w.passStart == 2 * HalfWindow
            && t + (if prev.None? then CoarseStep else 0) <= w.passStart + HalfWindow <= end
            && el(w.passStart + HalfWindow) > 0.0)
      && (forall i :: 0 <= i < |ws| - 1 ==>
            ws[i + 1].passStart - ws[i].passStart >= SkipAfterHit + CoarseStep)
    decreases end - t + CoarseStep
  {
    if t > end {
    } else if prev.Some? && Hit(prev.value, el(t)) {
      ScanWindows(el, t + SkipAfterHit, end, None);
      var rest := Scan(el, t + SkipAfterHit, end, None);
      assert Scan(el, t, end, prev) == [Window(t - HalfWindow, t + HalfWindow)] + rest;
      if rest != [] {
        assert rest[0] in rest;
      }
    } else {
      ScanWindows(el, t + CoarseStep, end, Some(el(t)));
    }
  }

  /** The emission rule: a window is centred only where the sample before the centre is
      known and was at or below the horizon while the centre is above it, or where the
      centre is above 10 degrees. The sample before is the given `prev` for a centre at `t`
      and the sample one coarse step earlier otherwise, so with no previous sample the first
      sample never starts a window. */
  lemma {:induction false} ScanEmission(el: int -> real, t: int, end: int, prev: Option<real>)
    ensures forall w :: w in Scan(el, t, end, prev) ==>
      var c := w.passStart + HalfWindow;
      || (prev.Some? && c == t && ((prev.value <= 0.0 && el(c) > 0.0) || el(c) > 10.0))
      || (t + CoarseStep <= c && ((el(c - CoarseStep) <= 0.0 && el(c) > 0.0) || el(c) > 10.0))
    decreases end - t + CoarseStep
  {
    if t > end {
    } else if prev.Some? && Hit(prev.value, el(t)) {
      ScanEmission(el, t + SkipAfterHit, end, None);
    } else {
      ScanEmission(el, t + CoarseStep, end, Some(el(t)));
    }
  }

  /** find_pass_candidates_fast over a search span of `searchHours` hours. */
  method FindPassCandidatesFast(el: int -> real, startTime: int, searchHours: nat) returns (candidates: seq<Window>)
    ensures candidates == Scan(el, startTime, startTime + 3600 * searchHours, None)
  {
    candidates := [];
    var currentTime := startTime;
    var endTime := startTime + 3600 * searchHours;
    var prevElevation: Option<real> := None;
    while currentTime <= endTime
      invariant candidates + Scan(el, currentTime, endTime, prevElevation) == Scan(el, startTime, endTime, None)
      decreases endTime - currentTime
    {
      var elevation := el(currentTime);
      if prevElevation.Some? {
        if (prevElevation.value <= 0.0 && elevation > 0.0) || elevation > 10.0 {
          candidates := candidates + [Window(currentTime - HalfWindow, currentTime + HalfWindow)];
          currentTime := currentTime + SkipAfterHit;
          prevElevation := None;
          continue;
        }
      }
      prevElevation := Some(elevation);
      currentTime := currentTime + CoarseStep;
    }
  }

  // ---------------------------------------------------------------------------
  // Detailed pass (calculate_detailed_pass)
  // ---------------------------------------------------------------------------

  const FineStep: int := 10

  /** One sample of the detailed pass: visible means more than 5 degrees up. */
  function Sample(el: int -> real, az: int -> real, t: int): TrajectoryPoint
  {
    TrajectoryPoint(t, az(t), el(t), el(t) > 5.0)
  }

  /** The 10-second grid from `t` up to `end` inclusive. */
  function Grid(el: int -> real, az: int -> real, t: int, end: int): (ps: seq<TrajectoryPoint>)
    ensures |ps| == if t <= end then (end - t) / FineStep + 1 else 0
    ensures forall k :: 0 <= k < |ps| ==> ps[k] == Sample(el, az, t + FineStep * k)
    decreases end - t + FineStep
  {
    if t > end then [] else [Sample(el, az, t)] + Grid(el, az, t + FineStep, end)
  }

  /** Grid samples are in strictly increasing time order, none after the end. */
  lemma GridTimes(el: int -> real, az: int -> real, t: int, end: int)
    ensures var ps := Grid(el, az, t, end);
      TimeOrdered(ps) &&
      (forall p :: p in ps ==> t <= p.time <= end && (p.visible <==> p.elevation > 5.0))
  {
    var ps := Grid(el, az, t, end);
    forall p | p in ps
      ensures t <= p.time <= end
    {
      var k :| 0 <= k < |ps| && ps[k] == p;
      assert k <= (end - t) / FineStep;
    }
  }

  method CalculateDetailedPass(el: int -> real, az: int -> real, startTime: int, endTime: int)
    returns (trajectoryPoints: seq<TrajectoryPoint>)
    ensures trajectoryPoints == Grid(el, az, startTime, endTime)
  {
    var timePoints: seq<int> := [];
    var tempTime := startTime;
    while tempTime <= endTime
      invariant tempTime == startTime + FineStep * |timePoints|
      invariant forall k :: 0 <= k < |timePoints| ==> timePoints[k] == startTime + FineStep * k
      invariant startTime <= endTime ==> tempTime <= endTime + FineStep
      invariant startTime > endTime ==> timePoints == []
      decreases endTime - tempTime
    {
      timePoints := timePoints + [tempTime];
      tempTime := tempTime + FineStep;
    }
    assert |timePoints| == if startTime <= endTime then (endTime - startTime) / FineStep + 1 else 0;
    trajectoryPoints := [];
    for i := 0 to |timePoints|
      invariant |trajectoryPoints| == i
      invariant forall k :: 0 <= k < i ==> trajectoryPoints[k] == Sample(el, az, timePoints[k])
    {
      var timePoint := timePoints[i];
      var elevation := el(timePoint);
      trajectoryPoints := trajectoryPoints + [TrajectoryPoint(timePoint, az(timePoint), elevation, elevation > 5.0)];
    }
  }

  // ---------------------------------------------------------------------------
  // Candidate selection (api_calculate_trajectory)
  // ---------------------------------------------------------------------------

  /** Python's max over the samples' elevations. */
  function MaxElevation(ps: seq<TrajectoryPoint>): (m: real)
    requires ps != []
    ensures forall p :: p in ps ==> p.elevation <= m
    ensures exists p :: p in ps && p.elevation == m
  {
    if |ps| == 1 then ps[0].elevation
    else
      var rest := MaxElevation(ps[1..]);
      assert forall p :: p in ps[1..] ==> p in ps;
      if ps[0].elevation >= rest then ps[0].elevation else rest
  }

  /** A candidate qualifies when its detailed pass has a visible sample and its highest
      visible sample is at least 30 degrees up. */
  predicate Qualifies(el: int -> real, az: int -> real, w: Window)
  {
    var v := VisibleOf(Grid(el, az, w.passStart, w.passEnd));
    v != [] && MaxElevation(v) >= 30.0
  }

  const NoCandidateMessage: string := "在24小时内未找到过境候选时间段"
  const NoHighPassMessage: string := "在24小时内未找到最大仰角>=30°的轨迹"

  datatype TrajectoryResponse =
    | Trajectory(trajectoryPoints: seq<TrajectoryPoint>, visiblePoints: seq<TrajectoryPoint>,
                 totalPoints: nat, visibleCount: nat, maxElevation: real,
                 startTime: int, endTime: int, actualStartTime: int)
    | NotFound(message: string)

  /** The first qualifying candidate, the index of the first window that qualifies. */
  predicate FirstQualifying(el: int -> real, az: int -> real, cs: seq<Window>, i: int)
  {
    0 <= i < |cs| && Qualifies(el, az, cs[i]) && forall j :: 0 <= j < i ==> !Qualifies(el, az, cs[j])
  }

  /** What a found trajectory carries: its visible samples, all of them visible and at
      most the peak, a peak of at least 30 degrees, and the first and last sample times. */
  predicate TrajectoryShape(r: TrajectoryResponse)
    requires r.Trajectory?
  {
    var v := r.visiblePoints;
    && v != []
    && r.trajectoryPoints == v
    && r.totalPoints == |v| && r.visibleCount == |v|
    && (forall p :: p in v ==> p.visible && p.elevation > 5.0 && p.elevation <= r.maxElevation)
    && r.maxElevation == MaxElevation(v)
    && r.maxElevation >= 30.0
    && r.startTime == v[0].time == r.actualStartTime
    && r.endTime == v[|v| - 1].time
    && r.startTime <= r.endTime
  }

  /** One candidate of the search: its detailed pass, the visible samples, and the answer
      when they peak at 30 degrees or more. */
  method TryCandidate(el: int -> real, az: int -> real, w: Window) returns (response: Option<TrajectoryResponse>)
    ensures response.Some? <==> Qualifies(el, az, w)
    ensures response.Some? ==> response.value.Trajectory? && TrajectoryShape(response.value)
    ensures response.Some? ==> response.value.visiblePoints == VisibleOf(Grid(el, az, w.passStart, w.passEnd))
  {
    var trajectoryPoints := CalculateDetailedPass(el, az, w.passStart, w.passEnd);
    if trajectoryPoints == [] {
      return None;
    }
    var visiblePoints := VisibleOf(trajectoryPoints);
    if visiblePoints == [] {
      return None;
    }
    var maxElevation := MaxElevation(visiblePoints);
    if maxElevation < 30.0 {
      return None;
    }
    GridTimes(el, az, w.passStart, w.passEnd);
    VisibleOfSorted(trajectoryPoints);
    VisibleOfMembers(trajectoryPoints);
    assert visiblePoints[0] in visiblePoints && visiblePoints[|visiblePoints| - 1] in visiblePoints;
    return Some(Trajectory(visiblePoints, visiblePoints, |visiblePoints|, |visiblePoints|, maxElevation,
                           visiblePoints[0].time, visiblePoints[|visiblePoints| - 1].time, visiblePoints[0].time));
  }

  /** The trajectory search over 24 hours from `startTime`: the first candidate window whose
      visible samples peak at 30 degrees or more, answered with those samples only; a 404
      message otherwise, telling apart "no candidate at all" from "no candidate high enough". */
  method CalculateTrajectory(el: int -> real, az: int -> real, startTime: int) returns (response: TrajectoryResponse)
    ensures var cs := Scan(el, startTime, startTime + 24 * 3600, None);
      && (cs == [] ==> response == NotFound(NoCandidateMessage))
      && (cs != [] && response.NotFound? ==> response.message == NoHighPassMessage)
      && (response.Trajectory? <==> exists i :: 0 <= i < |cs| && Qualifies(el, az, cs[i]))
      && (response.Trajectory? ==>
            exists i :: (FirstQualifying(el, az, cs, i) &&
                         response.visiblePoints == VisibleOf(Grid(el, az, cs[i].passStart, cs[i].passEnd))))
    ensures response.Trajectory? ==> TrajectoryShape(response)
  {
    var candidates := FindPassCandidatesFast(el, startTime, 24);
    if candidates == [] {
      return NotFound(NoCandidateMessage);
    }
    var i := 0;
    while i < |candidates|
      invariant 0 <= i <= |candidates|
      invariant forall j :: 0 <= j < i ==> !Qualifies(el, az, candidates[j])
    {
      var found := TryCandidate(el, az, candidates[i]);
      if found.Some? {
        assert FirstQualifying(el, az, candidates, i);
        return found.value;
      }
      i := i + 1;
    }
    return NotFound(NoHighPassMessage);
  }
}
