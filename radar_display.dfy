/** The polar radar view (js/RadarDisplay.js): elevation maps linearly to the distance
    from the centre (90 degrees at the centre, the horizon on the rim), only visible
    samples above the horizon are plotted, and the azimuth the backend sends in the
    gimbal's frame is turned back into a true azimuth before drawing. The trigonometry
    that turns (azimuth, radius) into canvas x/y is not part of this model. */
module RadarDisplay {
  import opened Common
  import Server

  /** The radar's radius on a canvas: 30 pixels inside the nearer edge. */
  function ViewportRadius(width: real, height: real): (radius: real)
    ensures radius + 30.0 <= width / 2.0 && radius + 30.0 <= height / 2.0
    ensures radius + 30.0 == width / 2.0 || radius + 30.0 == height / 2.0
  {
    Min(width / 2.0, height / 2.0) - 30.0
  }

  /** Distance from the centre for an elevation, on a radar of radius `radius`. */
  function RadiusFor(radius: real, elevation: real): real
  {
    radius * (1.0 - elevation / 90.0)
  }

  /** The horizon lies on the rim, the zenith at the centre, elevations between them
      strictly inside, and higher elevations never lie further out. */
  lemma RadiusForBounds(radius: real, e1: real, e2: real)
    requires radius > 0.0
    ensures RadiusFor(radius, 0.0) == radius && RadiusFor(radius, 90.0) == 0.0
    ensures 0.0 < e1 < 90.0 ==> 0.0 < RadiusFor(radius, e1) < radius
    ensures e1 <= e2 ==> RadiusFor(radius, e2) <= RadiusFor(radius, e1)
    ensures e1 < e2 ==> RadiusFor(radius, e2) < RadiusFor(radius, e1)
  {
    assert RadiusFor(radius, e1) - RadiusFor(radius, e2) == radius * (e2 - e1) / 90.0;
  }

  /** The elevation shown at a given distance from the centre. */
  function ElevationAt(radius: real, r: real): real
    requires radius != 0.0
  {
    90.0 * (1.0 - r / radius)
  }

  /** The projection loses no elevation: reading a plotted point back gives its elevation,
      and plotting the elevation read at a distance gives that distance. */
  lemma RadiusRoundTrip(radius: real, elevation: real, r: real)
    requires radius != 0.0
    ensures ElevationAt(radius, RadiusFor(radius, elevation)) == elevation
    ensures RadiusFor(radius, ElevationAt(radius, r)) == r
  {
    var x := 1.0 - elevation / 90.0;
    assert (radius * x) / radius == x by {
      assert radius * x == x * radius;
      assert (x * radius) / radius == x * (radius / radius);
    }
  }

  /** The elevation circles of the background, drawn for 0, 30, 60 and 90 degrees. */
  const ElevationRings: seq<real> := [0.0, 30.0, 60.0, 90.0]

  /** The rings for 0, 30, 60 and 90 degrees at the radius law: the outer ring is the rim,
      the inner one collapses to the centre, and the rings shrink by a third of the radius
      each. */
  function RingRadii(radius: real): (rs: seq<real>)
    ensures rs == [radius, radius * 2.0 / 3.0, radius / 3.0, 0.0]
  {
    var rs := seq(|ElevationRings|, i requires 0 <= i < |ElevationRings| => RadiusFor(radius, ElevationRings[i]));
    assert rs[0] == radius && rs[1] == radius * 2.0 / 3.0 && rs[2] == radius / 3.0 && rs[3] == 0.0;
    rs
  }

  /** A sample the trajectory plot draws: flagged visible and above the horizon. */
  predicate Plotted(p: TrajectoryPoint) { p.visible && p.elevation > 0.0 }

  /** The samples drawn, in input order. */
  function PlottedPoints(ps: seq<TrajectoryPoint>): (r: seq<TrajectoryPoint>)
    ensures |r| <= |ps|
  {
    if ps == [] then []
    else (if Plotted(ps[0]) then [ps[0]] else []) + PlottedPoints(ps[1..])
  }

  /** The samples drawn are exactly the input samples that are plotted. */
  lemma {:induction false} PlottedPointsMembers(ps: seq<TrajectoryPoint>)
    ensures forall p :: p in PlottedPoints(ps) <==> p in ps && Plotted(p)
  {
    if ps != [] {
      PlottedPointsMembers(ps[1..]);
      var head: seq<TrajectoryPoint> := if Plotted(ps[0]) then [ps[0]] else [];
      assert PlottedPoints(ps) == head + PlottedPoints(ps[1..]);
      assert forall p :: p in ps <==> p == ps[0] || p in ps[1..];
    }
  }

  datatype RadarPoint = RadarPoint(point: TrajectoryPoint, r: real)

  /** Where the direction arrow of a trace of `n` points goes: from the point before the
      middle one to the point after it, when both exist. */
  function ArrowSegment(n: nat): (seg: Option<(nat, nat)>)
    ensures seg.Some? <==> n >= 3
    ensures seg.Some? ==> seg.value.0 + 2 == seg.value.1 < n && seg.value.0 < n / 2 < seg.value.1
  {
    if n >= 2 then
      var midIndex := n / 2;
      if 0 < midIndex < n - 1 then Some((midIndex - 1, midIndex + 1)) else None
    else None
  }

  datatype RadarTrace = RadarTrace(
    visiblePoints: seq<RadarPoint>,
    arrow: Option<(nat, nat)>,
    startMarker: Option<RadarPoint>,
    endMarker: Option<RadarPoint>)

  /** `visiblePoints` holds the plotted samples in order, each at the radius of its elevation. */
  predicate Projected(radius: real, ps: seq<TrajectoryPoint>, visiblePoints: seq<RadarPoint>)
  {
    var drawn := PlottedPoints(ps);
    && |visiblePoints| == |drawn|
    && forall k :: 0 <= k < |drawn| ==>
         visiblePoints[k] == RadarPoint(drawn[k], RadiusFor(radius, drawn[k].elevation))
  }

  /** The plotting loop of drawTrajectoryOnRadar. */
  method ProjectPoints(radius: real, trajectoryPoints: seq<TrajectoryPoint>) returns (visiblePoints: seq<RadarPoint>)
    ensures Projected(radius, trajectoryPoints, visiblePoints)
  {
    visiblePoints := [];
    for i := 0 to |trajectoryPoints|
      invariant Projected(radius, trajectoryPoints[..i], visiblePoints)
    {
      var point := trajectoryPoints[i];
      PlottedPointsSnoc(trajectoryPoints[..i], point);
      assert trajectoryPoints[..i + 1] == trajectoryPoints[..i] + [point];
      if point.visible && point.elevation > 0.0 {
        var r := radius * (1.0 - point.elevation / 90.0);
        visiblePoints := visiblePoints + [RadarPoint(point, r)];
      }
    }
    assert trajectoryPoints[..|trajectoryPoints|] == trajectoryPoints;
  }

  /** Every plotted point lies inside the rim, and not past the centre when its elevation
      is at most 90 degrees. */
  lemma ProjectedInside(radius: real, ps: seq<TrajectoryPoint>, visiblePoints: seq<RadarPoint>)
    requires radius > 0.0 && Projected(radius, ps, visiblePoints)
    ensures forall q :: q in visiblePoints ==> q.r < radius && (q.point.elevation <= 90.0 ==> q.r >= 0.0)
  {
    var drawn := PlottedPoints(ps);
    PlottedPointsMembers(ps);
    forall q | q in visiblePoints
      ensures q.r < radius && (q.point.elevation <= 90.0 ==> q.r >= 0.0)
    {
      var k :| 0 <= k < |visiblePoints| && visiblePoints[k] == q;
      assert drawn[k] in drawn;
      RadiusForBounds(radius, drawn[k].elevation, 90.0);
      RadiusForBounds(radius, 0.0, drawn[k].elevation);
    }
  }

  /** drawTrajectoryOnRadar: plots the visible samples above the horizon at their radius,
      puts the arrow in the middle of the trace, and marks its first and last points. */
  method DrawTrajectoryOnRadar(radius: real, trajectoryPoints: seq<TrajectoryPoint>) returns (trace: RadarTrace)
    ensures Projected(radius, trajectoryPoints, trace.visiblePoints)
    ensures trace.arrow == ArrowSegment(|trace.visiblePoints|)
    ensures trace.startMarker.Some? <==> trace.visiblePoints != []
    ensures trace.endMarker.Some? <==> trace.visiblePoints != []
    ensures trace.visiblePoints != [] ==>
      trace.startMarker == Some(trace.visiblePoints[0]) &&
      trace.endMarker == Some(trace.visiblePoints[|trace.visiblePoints| - 1])
    ensures radius > 0.0 ==>
      forall q :: q in trace.visiblePoints ==> q.r < radius && (q.point.elevation <= 90.0 ==> q.r >= 0.0)
  {
    var visiblePoints := ProjectPoints(radius, trajectoryPoints);
    var arrow: Option<(nat, nat)> := None;
    if |visiblePoints| >= 2 {
      var midIndex := |visiblePoints| / 2;
      if midIndex > 0 && midIndex < |visiblePoints| - 1 {
        arrow := Some((midIndex - 1, midIndex + 1));
      }
    }
    var startMarker, endMarker: Option<RadarPoint> := None, None;
    if |visiblePoints| > 0 {
      startMarker := Some(visiblePoints[0]);
      endMarker := Some(visiblePoints[|visiblePoints| - 1]);
    }
    trace := RadarTrace(visiblePoints, arrow, startMarker, endMarker);
    if radius > 0.0 {
      ProjectedInside(radius, trajectoryPoints, visiblePoints);
    }
  }

  /** Appending one sample extends the plotted list by it exactly when it is plotted. */
  lemma {:induction false} PlottedPointsSnoc(ps: seq<TrajectoryPoint>, p: TrajectoryPoint)
    ensures PlottedPoints(ps + [p]) == PlottedPoints(ps) + (if Plotted(p) then [p] else [])
  {
    var last: seq<TrajectoryPoint> := if Plotted(p) then [p] else [];
    if ps == [] {
      assert ps + [p] == [p] && [p][1..] == [];
      assert PlottedPoints([p]) == last + PlottedPoints([]);
    } else {
      var head: seq<TrajectoryPoint> := if Plotted(ps[0]) then [ps[0]] else [];
      assert (ps + [p])[0] == ps[0] && (ps + [p])[1..] == ps[1..] + [p];
      PlottedPointsSnoc(ps[1..], p);
      assert PlottedPoints(ps + [p]) == head + (PlottedPoints(ps[1..]) + last);
      assert PlottedPoints(ps) == head + PlottedPoints(ps[1..]);
    }
  }

  /** The true azimuth drawn for an azimuth the backend reports in the gimbal's frame. */
  function DisplayAzimuth(direction: string, azimuth: real): (displayAzimuth: real)
    ensures direction == "south" ==>
      (displayAzimuth == azimuth + 180.0 || displayAzimuth == azimuth - 180.0) &&
      (-180.0 <= azimuth < 180.0 ==> 0.0 <= displayAzimuth < 360.0)
    ensures direction == "north" || direction == "auto" ==>
      (displayAzimuth == azimuth || displayAzimuth == azimuth + 360.0) &&
      (-180.0 < azimuth <= 180.0 ==> 0.0 <= displayAzimuth < 360.0)
    ensures direction != "south" && direction != "north" && direction != "auto" ==> displayAzimuth == azimuth
  {
    if direction == "south" then
      var d := azimuth + 180.0;
      if d >= 360.0 then d - 360.0 else d
    else if direction == "north" || direction == "auto" then
      if azimuth < 0.0 then azimuth + 360.0 else azimuth
    else azimuth
  }

  /** The radar undoes the backend's conversion: for every mount direction and every true
      azimuth in [0, 360), converting and then displaying gives the azimuth back. */
  lemma DisplayAfterConvert(direction: string, azimuth: real)
    requires 0.0 <= azimuth < 360.0
    ensures DisplayAzimuth(direction, Server.ConvertAzimuth(direction, azimuth)) == azimuth
  {
  }

  /** And the other way round: every azimuth the backend can send for a mount direction
      ((-180, 180] for north and auto, [-180, 180) for south) is displayed at a true azimuth
      that converts back to it. */
  lemma ConvertAfterDisplay(direction: string, azimuth: real)
    requires direction == "south" ==> -180.0 <= azimuth < 180.0
    requires direction == "north" || direction == "auto" ==> -180.0 < azimuth <= 180.0
    ensures Server.ConvertAzimuth(direction, DisplayAzimuth(direction, azimuth)) == azimuth
  {
  }

  /** The current-position dot: not drawn below or on the horizon; otherwise drawn at the
      displayed azimuth and the radius of its elevation. */
  function SatelliteMarker(direction: string, radius: real, azimuth: real, elevation: real): (m: Option<(real, real)>)
    ensures m.None? <==> elevation <= 0.0
    ensures m.Some? ==> m.value == (DisplayAzimuth(direction, azimuth), RadiusFor(radius, elevation))
    ensures m.Some? && radius > 0.0 ==> m.value.1 < radius
  {
    if elevation <= 0.0 then None
    else
      var m := Some((DisplayAzimuth(direction, azimuth), RadiusFor(radius, elevation)));
      assert radius > 0.0 ==> m.value.1 < radius by {
        if radius > 0.0 { RadiusForBounds(radius, 0.0, elevation); }
      }
      m
  }
}
