/** The frontend's pass segmentation and pointing advice (js/TrackingController.js):
    cutting the first rise-to-set arc out of the backend's samples, naming compass
    octants, describing the pass, suggesting one of four fixed mount directions, and
    classifying the direction of travel from a short azimuth history. */
module TrackingController {
  import opened Common

  // ---------------------------------------------------------------------------
  // First rise-to-set arc (calculateAndDrawFullTrajectory)
  // ---------------------------------------------------------------------------

  /** Index of the first sample at or after `k` above the horizon, or |ps| when none is. */
  function FirstRiseFrom(ps: seq<TrajectoryPoint>, k: nat): (i: nat)
    requires k <= |ps|
    ensures k <= i <= |ps|
    ensures i < |ps| ==> ps[i].elevation > 0.0
    ensures forall m :: k <= m < i ==> ps[m].elevation <= 0.0
    decreases |ps| - k
  {
    if k == |ps| then k else if ps[k].elevation > 0.0 then k else FirstRiseFrom(ps, k + 1)
  }

  /** Index of the first sample at or after `k` at or below the horizon, or |ps| when none is. */
  function FirstSetFrom(ps: seq<TrajectoryPoint>, k: nat): (i: nat)
    requires k <= |ps|
    ensures k <= i <= |ps|
    ensures i < |ps| ==> ps[i].elevation <= 0.0
    ensures forall m :: k <= m < i ==> ps[m].elevation > 0.0
    decreases |ps| - k
  {
    if k == |ps| then k else if ps[k].elevation <= 0.0 then k else FirstSetFrom(ps, k + 1)
  }

  /** The first pass: from the first sample above the horizon up to and including the
      first later sample at or below it (or to the end of the stream). */
  function FirstPassArc(ps: seq<TrajectoryPoint>): (arc: seq<TrajectoryPoint>)
    ensures arc == [] <==> forall m :: 0 <= m < |ps| ==> ps[m].elevation <= 0.0
    ensures arc != [] ==>
      var i := FirstRiseFrom(ps, 0);
      && i + |arc| <= |ps|
      && arc == ps[i..i + |arc|]
      && arc[0].elevation > 0.0
      && (forall m :: 0 < m < |arc| - 1 ==> arc[m].elevation > 0.0)
      && (i + |arc| < |ps| ==> arc[|arc| - 1].elevation <= 0.0)
  {
    var i := FirstRiseFrom(ps, 0);
    if i == |ps| then []
    else
      var j := FirstSetFrom(ps, i + 1);
      if j == |ps| then ps[i..] else ps[i..j + 1]
  }

  /** A stream that rises at index i and first comes back down at index j > i yields
      exactly the j - i + 1 samples from i to j. */
  lemma FirstPassArcBetween(ps: seq<TrajectoryPoint>, i: nat, j: nat)
    requires i < j < |ps|
    requires forall m :: 0 <= m < i ==> ps[m].elevation <= 0.0
    requires ps[i].elevation > 0.0
    requires forall m :: i < m < j ==> ps[m].elevation > 0.0
    requires ps[j].elevation <= 0.0
    ensures FirstPassArc(ps) == ps[i..j + 1] && |FirstPassArc(ps)| == j - i + 1
  {
    assert FirstRiseFrom(ps, 0) == i;
    assert FirstSetFrom(ps, i + 1) == j;
  }

  /** The filtering loop of calculateAndDrawFullTrajectory, with its two flags. */
  method FilterFirstPass(points: seq<TrajectoryPoint>) returns (filtered: seq<TrajectoryPoint>)
    ensures filtered == FirstPassArc(points)
  {
    filtered := [];
    var foundFirstRise, foundFirstSet := false, false;
    ghost var rise := FirstRiseFrom(points, 0);
    ghost var setAt := if rise < |points| then FirstSetFrom(points, rise + 1) else |points|;
    var n := 0;
    while n < |points|
      invariant 0 <= n <= |points|
      invariant !foundFirstRise ==> !foundFirstSet && filtered == [] && rise >= n
      invariant foundFirstRise ==> rise < n
      invariant foundFirstRise && !foundFirstSet ==> filtered == points[rise..n] && setAt >= n
      invariant foundFirstSet ==> setAt < n && filtered == points[rise..setAt + 1]
    {
      var point := points[n];
      if !foundFirstRise && point.elevation > 0.0 {
        assert n == rise && setAt > n;
        foundFirstRise := true;
        filtered := filtered + [point];
      } else if foundFirstRise && !foundFirstSet {
        assert points[rise..n + 1] == filtered + [point];
        filtered := filtered + [point];
        if point.elevation <= 0.0 {
          assert setAt == n;
          foundFirstSet := true;
        }
      } else if foundFirstRise && foundFirstSet && point.elevation > 0.0 {
        break;
      }
      n := n + 1;
    }
    if foundFirstRise && !foundFirstSet {
      assert filtered == points[rise..];
    }
  }

  // ---------------------------------------------------------------------------
  // Compass octants (getDirectionHint)
  // ---------------------------------------------------------------------------

  datatype Octant = N | NE | E | SE | S | SW | W | NW

  function OctantName(o: Octant): string
  {
    match o
    case N => "正北"
    case NE => "东北"
    case E => "正东"
    case SE => "东南"
    case S => "正南"
    case SW => "西南"
    case W => "正西"
    case NW => "西北"
  }

  /** Octants clockwise from north. */
  function OctantAt(i: int): Octant
    requires 0 <= i < 8
  {
    [N, NE, E, SE, S, SW, W, NW][i]
  }

  /** Reference octant of an azimuth: 45-degree sectors whose first one is centred on
      north, i.e. starts at -22.5 degrees; any real azimuth, the full turn wraps. */
  function OctantIndex(az: real): (i: int)
    ensures 0 <= i < 8
  {
    ((az + 22.5) / 45.0).Floor % 8
  }

  lemma FloorIs(y: real, m: int)
    requires m as real <= y < m as real + 1.0
    ensures y.Floor == m
  {
  }

  /** Whole turns do not change the octant. */
  lemma OctantIndexTurns(az: real, n: int)
    ensures OctantIndex(az + 360.0 * n as real) == OctantIndex(az)
  {
    var f := ((az + 22.5) / 45.0).Floor;
    assert (az + 360.0 * n as real + 22.5) / 45.0 == (az + 22.5) / 45.0 + (8 * n) as real;
    FloorIs((az + 360.0 * n as real + 22.5) / 45.0, f + 8 * n);
    assert (f + 8 * n) % 8 == f % 8;
  }

  /** getDirectionHint: normalise into [0, 360) by whole turns, then the ladder of
      octant boundaries. Returns the name of the reference octant of `azimuth`. */
  method DirectionHint(azimuth: real) returns (hint: string)
    ensures hint == OctantName(OctantAt(OctantIndex(azimuth)))
  {
    var normalizedAz := azimuth;
    ghost var turns := 0;
    while normalizedAz < 0.0
      invariant normalizedAz == azimuth + 360.0 * turns as real
      decreases (-normalizedAz).Floor
    {
      normalizedAz := normalizedAz + 360.0;
      turns := turns + 1;
    }
    while normalizedAz >= 360.0
      invariant normalizedAz >= 0.0
      invariant normalizedAz == azimuth + 360.0 * turns as real
      decreases normalizedAz.Floor
    {
      normalizedAz := normalizedAz - 360.0;
      turns := turns - 1;
    }
    OctantIndexTurns(azimuth, turns);
    var x := normalizedAz;
    var y := (x + 22.5) / 45.0;
    if x >= 337.5 || x < 22.5 {
      if x >= 337.5 { FloorIs(y, 8); } else { FloorIs(y, 0); }
      hint := "正北";
    } else if x >= 22.5 && x < 67.5 {
      FloorIs(y, 1);
      hint := "东北";
    } else if x >= 67.5 && x < 112.5 {
      FloorIs(y, 2);
      hint := "正东";
    } else if x >= 112.5 && x < 157.5 {
      FloorIs(y, 3);
      hint := "东南";
    } else if x >= 157.5 && x < 202.5 {
      FloorIs(y, 4);
      hint := "正南";
    } else if x >= 202.5 && x < 247.5 {
      FloorIs(y, 5);
      hint := "西南";
    } else if x >= 247.5 && x < 292.5 {
      FloorIs(y, 6);
      hint := "正西";
    } else if x >= 292.5 && x < 337.5 {
      FloorIs(y, 7);
      hint := "西北";
    } else {
      assert false;
      hint := "未知方向";
    }
  }

  /** The name of the octant getDirectionHint reports. */
  function HintName(azimuth: real): string
  {
    OctantName(OctantAt(OctantIndex(azimuth)))
  }

  /** Every finite azimuth gets a real octant name; "未知方向" never comes back, and
      north is the band [337.5, 360) together with [0, 22.5). */
  lemma HintNameNeverUnknown(azimuth: real)
    ensures HintName(azimuth) != "未知方向"
    ensures 0.0 <= azimuth < 360.0 ==>
      (HintName(azimuth) == "正北" <==> azimuth >= 337.5 || azimuth < 22.5)
  {
    if 0.0 <= azimuth < 360.0 {
      var y := (azimuth + 22.5) / 45.0;
      if azimuth >= 337.5 { FloorIs(y, 8); }
      else if azimuth < 22.5 { FloorIs(y, 0); }
      else { assert 1 <= y.Floor <= 7; }
    }
  }

  // ---------------------------------------------------------------------------
  // Pass description (analyzeTrajectoryDirection)
  // ---------------------------------------------------------------------------

  /** The start/end description built from the two octant names. */
  function PassDescription(startDirection: string, endDirection: string): string
  {
    if startDirection == endDirection then startDirection + "方向过境"
    else if ('北' in startDirection && '北' in endDirection)
         || ('南' in startDirection && '南' in endDirection)
         || ('东' in startDirection && '东' in endDirection)
         || ('西' in startDirection && '西' in endDirection) then
      if '北' in startDirection && '北' in endDirection then "北方过境"
      else if '南' in startDirection && '南' in endDirection then "南方过境"
      else if '东' in startDirection && '东' in endDirection then "东方过境"
      else "西方过境"
    else "从" + startDirection + "向" + endDirection + "过境"
  }

  lemma OctantNameFacts(o: Octant)
    ensures '北' in OctantName(o) <==> o in {NW, N, NE}
    ensures '南' in OctantName(o) <==> o in {SE, S, SW}
    ensures '东' in OctantName(o) <==> o in {NE, E, SE}
    ensures '西' in OctantName(o) <==> o in {SW, W, NW}
  {
    match o
    case N => assert OctantName(o) == ['正', '北'];
    case NE => assert OctantName(o) == ['东', '北'];
    case E => assert OctantName(o) == ['正', '东'];
    case SE => assert OctantName(o) == ['东', '南'];
    case S => assert OctantName(o) == ['正', '南'];
    case SW => assert OctantName(o) == ['西', '南'];
    case W => assert OctantName(o) == ['正', '西'];
    case NW => assert OctantName(o) == ['西', '北'];
  }

  lemma OctantNameInjective(o1: Octant, o2: Octant)
    ensures OctantName(o1) == OctantName(o2) <==> o1 == o2
  {
    if o1 != o2 {
      assert OctantName(o1)[0] != OctantName(o2)[0] || OctantName(o1)[1] != OctantName(o2)[1];
    }
  }

  /** The description in terms of octants: the same octant gives "X方向过境"; otherwise
      both ends in the northern, southern, eastern or western three octants (tested in
      that order) give "北/南/东/西方过境"; otherwise "从X向Y过境". */
  lemma PassDescriptionOfOctants(o1: Octant, o2: Octant)
    ensures PassDescription(OctantName(o1), OctantName(o2)) ==
      if o1 == o2 then OctantName(o1) + "方向过境"
      else if o1 in {NW, N, NE} && o2 in {NW, N, NE} then "北方过境"
      else if o1 in {SE, S, SW} && o2 in {SE, S, SW} then "南方过境"
      else if o1 in {NE, E, SE} && o2 in {NE, E, SE} then "东方过境"
      else if o1 in {SW, W, NW} && o2 in {SW, W, NW} then "西方过境"
      else "从" + OctantName(o1) + "向" + OctantName(o2) + "过境"
  {
    OctantNameFacts(o1);
    OctantNameFacts(o2);
    OctantNameInjective(o1, o2);
  }

  // ---------------------------------------------------------------------------
  // Fixed-mount suggestion (analyzeTrajectoryDirection)
  // ---------------------------------------------------------------------------

  datatype Cardinal = North | South | East | West

  function CardinalName(c: Cardinal): string
  {
    match c
    case North => "正北"
    case South => "正南"
    case East => "正东"
    case West => "正西"
  }

  /** Negative azimuths shifted by one turn, as the crossing loop and the mean do. */
  function Unwrap(az: real): real { if az < 0.0 then az + 360.0 else az }

  predicate InNorthBand(az: real) { az >= 330.0 || az <= 30.0 }
  predicate InSouthBand(az: real) { 150.0 <= az <= 210.0 }

  predicate CrossesNorth(ps: seq<TrajectoryPoint>)
  {
    exists m :: 0 <= m < |ps| && InNorthBand(Unwrap(ps[m].azimuth))
  }

  predicate CrossesSouth(ps: seq<TrajectoryPoint>)
  {
    exists m :: 0 <= m < |ps| && InSouthBand(Unwrap(ps[m].azimuth))
  }

  predicate IsNorthernPass(maxAz: real) { maxAz >= 315.0 || maxAz <= 45.0 }
  predicate IsSouthernPass(maxAz: real) { maxAz >= 135.0 && maxAz <= 225.0 }
  predicate IsOblique(maxAz: real) { (maxAz > 45.0 && maxAz < 135.0) || (maxAz > 225.0 && maxAz < 315.0) }

  /** The rules applied when no sample crosses a band, in the source's order. */
  function PeakRule(maxAz: real, avgAz: real): Cardinal
  {
    var byMean := if avgAz > 0.0 && avgAz < 180.0 then East else West;
    if IsNorthernPass(maxAz) && !IsSouthernPass(maxAz) then North
    else if IsSouthernPass(maxAz) && !IsNorthernPass(maxAz) then South
    else if !IsOblique(maxAz) then North
    else byMean
  }

  /** For a real peak azimuth the three bands partition the line: a near-north peak gives
      North, a near-south peak South, an oblique peak East or West by the mean azimuth,
      and the source's third rule (neither band, not oblique) never applies. */
  lemma PeakRuleByBand(maxAz: real, avgAz: real)
    ensures IsNorthernPass(maxAz) ==> PeakRule(maxAz, avgAz) == North
    ensures IsSouthernPass(maxAz) ==> PeakRule(maxAz, avgAz) == South
    ensures IsOblique(maxAz) ==>
      PeakRule(maxAz, avgAz) == (if 0.0 < avgAz < 180.0 then East else West)
    ensures IsNorthernPass(maxAz) || IsSouthernPass(maxAz) || IsOblique(maxAz)
    ensures !(IsNorthernPass(maxAz) && IsSouthernPass(maxAz))
  {
  }

  /** Index of the peak: the reduce keeps the earlier sample unless a later one is strictly higher. */
  function PeakIndex(ps: seq<TrajectoryPoint>): (k: nat)
    requires ps != []
    ensures k < |ps|
    ensures forall j :: 0 <= j < |ps| ==> ps[j].elevation <= ps[k].elevation
    ensures forall j :: 0 <= j < k ==> ps[j].elevation < ps[k].elevation
  {
    if |ps| == 1 then 0
    else
      var k := PeakIndex(ps[..|ps| - 1]);
      if ps[|ps| - 1].elevation > ps[k].elevation then |ps| - 1 else k
  }

  function SumUnwrapped(ps: seq<TrajectoryPoint>): real
  {
    if ps == [] then 0.0 else SumUnwrapped(ps[..|ps| - 1]) + Unwrap(ps[|ps| - 1].azimuth)
  }

  function MeanAzimuth(ps: seq<TrajectoryPoint>): real
    requires ps != []
  {
    SumUnwrapped(ps) / |ps| as real
  }

  /** The suggestion as an ordered rule list: north crossing, south crossing, then the peak rules. */
  function Suggestion(ps: seq<TrajectoryPoint>): Cardinal
    requires ps != []
  {
    if CrossesNorth(ps) then North
    else if CrossesSouth(ps) then South
    else PeakRule(ps[PeakIndex(ps)].azimuth, MeanAzimuth(ps))
  }

  /** A pass with any sample in the north band is North regardless of its peak; one with a
      sample in the south band and none in the north band is South. */
  lemma SuggestionByCrossing(ps: seq<TrajectoryPoint>, m: nat)
    requires m < |ps|
    ensures InNorthBand(Unwrap(ps[m].azimuth)) ==> Suggestion(ps) == North
    ensures InSouthBand(Unwrap(ps[m].azimuth)) && !CrossesNorth(ps) ==> Suggestion(ps) == South
  {
  }

  datatype Analysis = Analysis(
    maxElevationPoint: Option<TrajectoryPoint>,
    passDirection: string,
    gimbalDirection: string,
    isNorthernPass: bool,
    isSouthernPass: bool)

  /** The crossing loop of analyzeTrajectoryDirection: whether any sample, its azimuth
      unwrapped, lies in the north band, and whether any lies in the south band. */
  method ScanCrossings(ps: seq<TrajectoryPoint>) returns (crossesNorth: bool, crossesSouth: bool)
    ensures crossesNorth == CrossesNorth(ps)
    ensures crossesSouth == CrossesSouth(ps)
  {
    crossesNorth, crossesSouth := false, false;
    for i := 0 to |ps|
      invariant crossesNorth <==> exists m :: 0 <= m < i && InNorthBand(Unwrap(ps[m].azimuth))
      invariant crossesSouth <==> exists m :: 0 <= m < i && InSouthBand(Unwrap(ps[m].azimuth))
    {
      var azimuth := ps[i].azimuth;
      if azimuth < 0.0 { azimuth := azimuth + 360.0; }
      if azimuth >= 330.0 || azimuth <= 30.0 { crossesNorth := true; }
      if azimuth >= 150.0 && azimuth <= 210.0 { crossesSouth := true; }
    }
  }

  /** analyzeTrajectoryDirection over the visible samples of the arc. */
  method AnalyzeTrajectoryDirection(visiblePoints: seq<TrajectoryPoint>) returns (a: Analysis)
    ensures visiblePoints == [] ==> a == Analysis(None, "无可见轨迹", "未知", false, false)
    ensures visiblePoints != [] ==>
      var peak := visiblePoints[PeakIndex(visiblePoints)];
      && a.maxElevationPoint == Some(peak)
      && a.passDirection == PassDescription(HintName(visiblePoints[0].azimuth),
                                            HintName(visiblePoints[|visiblePoints| - 1].azimuth))
      && a.gimbalDirection == CardinalName(Suggestion(visiblePoints))
      && a.isNorthernPass == IsNorthernPass(peak.azimuth)
      && a.isSouthernPass == IsSouthernPass(peak.azimuth)
  {
    if |visiblePoints| == 0 {
      return Analysis(None, "无可见轨迹", "未知", false, false);
    }
    var maxElevationPoint := visiblePoints[PeakIndex(visiblePoints)];
    var startDirection := DirectionHint(visiblePoints[0].azimuth);
    var endDirection := DirectionHint(visiblePoints[|visiblePoints| - 1].azimuth);
    var passDirection := PassDescription(startDirection, endDirection);

    var maxAzimuth := maxElevationPoint.azimuth;
    var isNorthernPass := maxAzimuth >= 315.0 || maxAzimuth <= 45.0;
    var isSouthernPass := maxAzimuth >= 135.0 && maxAzimuth <= 225.0;

    var crossesNorth, crossesSouth := ScanCrossings(visiblePoints);

    var gimbal: Cardinal;
    if crossesNorth {
      gimbal := North;
    } else if crossesSouth {
      gimbal := South;
    } else {
      var avgAzimuth := MeanAzimuth(visiblePoints);
      gimbal := if avgAzimuth > 0.0 && avgAzimuth < 180.0 then East else West;
      if isNorthernPass && !isSouthernPass {
        gimbal := North;
      } else if isSouthernPass && !isNorthernPass {
        gimbal := South;
      } else if !((maxAzimuth > 45.0 && maxAzimuth < 135.0) || (maxAzimuth > 225.0 && maxAzimuth < 315.0)) {
        gimbal := North;
      }
    }
    a := Analysis(Some(maxElevationPoint), passDirection, CardinalName(gimbal), isNorthernPass, isSouthernPass);
  }

  /** `filter(p => p.visible)` as a loop over the samples. */
  method FilterVisible(points: seq<TrajectoryPoint>) returns (visible: seq<TrajectoryPoint>)
    ensures visible == VisibleOf(points)
  {
    visible := [];
    for i := 0 to |points|
      invariant visible == VisibleOf(points[..i])
    {
      VisibleOfSnoc(points[..i], points[i]);
      assert points[..i + 1] == points[..i] + [points[i]];
      if points[i].visible {
        visible := visible + [points[i]];
      }
    }
    assert points[..|points|] == points;
  }

  /** The frontend's pipeline after the backend answers: cut the first pass, keep its
      visible samples, and analyse them only when there is at least one. */
  method PlanPass(trajectoryPoints: seq<TrajectoryPoint>)
    returns (filtered: seq<TrajectoryPoint>, visible: seq<TrajectoryPoint>, analysis: Option<Analysis>)
    ensures filtered == FirstPassArc(trajectoryPoints)
    ensures visible == VisibleOf(filtered)
    ensures analysis.Some? <==> visible != []
    ensures analysis.Some? ==>
      var peak := visible[PeakIndex(visible)];
      && analysis.value.maxElevationPoint == Some(peak)
      && analysis.value.passDirection == PassDescription(HintName(visible[0].azimuth),
                                                         HintName(visible[|visible| - 1].azimuth))
      && analysis.value.gimbalDirection == CardinalName(Suggestion(visible))
      && analysis.value.isNorthernPass == IsNorthernPass(peak.azimuth)
      && analysis.value.isSouthernPass == IsSouthernPass(peak.azimuth)
  {
    filtered := FilterFirstPass(trajectoryPoints);
    visible := FilterVisible(filtered);
    if visible != [] {
      var a := AnalyzeTrajectoryDirection(visible);
      analysis := Some(a);
    } else {
      analysis := None;
    }
  }

  // ---------------------------------------------------------------------------
  // Direction of travel (predictSatelliteTrajectory)
  // ---------------------------------------------------------------------------

  /** Wraps an azimuth difference once across the 0/360 seam. */
  function WrapDiff(d: real): (r: real)
    ensures r == d || r == d - 360.0 || r == d + 360.0
    ensures -540.0 <= d <= 540.0 ==> -180.0 <= r <= 180.0
  {
    if d > 180.0 then d - 360.0 else if d < -180.0 then d + 360.0 else d
  }

  /** The direction-of-travel label from the current azimuth and the wrapped difference. */
  function TravelDirection(currentAzimuth: real, azDiff: real): string
  {
    if currentAzimuth >= 0.0 && currentAzimuth <= 180.0 then
      if azDiff > 0.0 then (if currentAzimuth > 90.0 then "东南" else "东北")
      else (if currentAzimuth < 90.0 then "东北" else "东南")
    else
      if azDiff > 0.0 then (if currentAzimuth > 270.0 then "西南" else "西北")
      else (if currentAzimuth < 270.0 then "西北" else "西南")
  }

  /** The label is eastern exactly on [0, 180]; and off the two meridians 90 and 270 it does
      not depend on the direction of travel at all, only on the quadrant. */
  lemma TravelDirectionQuadrant(currentAzimuth: real, d1: real, d2: real)
    ensures TravelDirection(currentAzimuth, d1) in {"东北", "东南"} <==> 0.0 <= currentAzimuth <= 180.0
    ensures TravelDirection(currentAzimuth, d1) in {"东北", "东南", "西北", "西南"}
    ensures currentAzimuth != 90.0 && currentAzimuth != 270.0 ==>
      TravelDirection(currentAzimuth, d1) == TravelDirection(currentAzimuth, d2)
  {
    assert "东北" != "西北" && "东北" != "西南" && "东南" != "西北" && "东南" != "西南" by {
      assert "东北"[0] != "西北"[0];
      assert "东南"[0] != "西南"[0];
    }
  }

  /** What predictSatelliteTrajectory reports for a history ending in the current azimuth. */
  function Trend(history: seq<real>, currentAzimuth: real): string
  {
    if |history| < 3 then "计算中"
    else TravelDirection(currentAzimuth, WrapDiff(history[|history| - 1] - history[|history| - 3]))
  }

  /** The azimuth and elevation histories of the tracker, at most ten entries each. */
  class TrajectoryPredictor {
    var azimuthHistory: seq<real>
    var elevationHistory: seq<real>

    ghost predicate Valid()
      reads this
    {
      |azimuthHistory| <= 10 && |elevationHistory| <= 10
    }

    constructor ()
      ensures Valid() && azimuthHistory == [] && elevationHistory == []
    {
      azimuthHistory := [];
      elevationHistory := [];
    }

    /** One prediction step. The tracker's current elevation may be unset or NaN (`None`);
        the elevation history then receives 0, as JavaScript's `|| 0` gives. */
    method Predict(currentAzimuth: real, currentElevation: Option<real>) returns (trend: string)
      requires Valid()
      modifies this
      ensures Valid()
      ensures azimuthHistory == PushBounded(old(azimuthHistory), currentAzimuth, 10)
      ensures elevationHistory ==
        PushBounded(old(elevationHistory), if currentElevation.Some? then currentElevation.value else 0.0, 10)
      ensures trend == Trend(azimuthHistory, currentAzimuth)
      ensures |azimuthHistory| < 3 <==> trend == "计算中"
    {
      azimuthHistory := azimuthHistory + [currentAzimuth];
      elevationHistory := elevationHistory + [if currentElevation.Some? then currentElevation.value else 0.0];
      if |azimuthHistory| > 10 {
        azimuthHistory := azimuthHistory[1..];
      }
      if |elevationHistory| > 10 {
        elevationHistory := elevationHistory[1..];
      }
      if |azimuthHistory| < 3 {
        return "计算中";
      }
      var recent := azimuthHistory[|azimuthHistory| - 3..];
      var azDiff := recent[2] - recent[0];
      if azDiff > 180.0 {
        azDiff := azDiff - 360.0;
      } else if azDiff < -180.0 {
        azDiff := azDiff + 360.0;
      }
      TravelDirectionQuadrant(currentAzimuth, azDiff, azDiff);
      trend := TravelDirection(currentAzimuth, azDiff);
    }
  }
}
