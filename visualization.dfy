/** The 3-D globe (static/js/visualization.js): which result rows become satellite points,
    how they are grouped per satellite, ordered and labelled, what the scene holds after
    a rebuild, the dashed projection lines, and the pointing cone with its local frame.
    Trigonometry (latitude/longitude to a vector, tan of the cone angle) and vector
    normalisation are left out: a point keeps its latitude, longitude and radius, and
    the frame vectors are kept before normalisation. */
module Visualization {
  import opened Common

  const EarthRadius: real := 6371.0

  // ---------------------------------------------------------------------------
  // Points (updateVisualization)
  // ---------------------------------------------------------------------------

  /** One row of the calculation result; a field that is absent, null or NaN is `None`. */
  datatype Record = Record(latSat: Option<real>, lonSat: Option<real>, altSat: Option<real>,
                           satelliteName: string, time: int)

  /** JavaScript truthiness of a numeric field: present and not zero. */
  predicate Truthy(v: Option<real>)
  {
    v.Some? && v.value != 0.0
  }

  /** A row is drawn only when its latitude, longitude and altitude are all truthy, so an
      exact 0 in any of them skips it. */
  predicate Usable(r: Record)
  {
    Truthy(r.latSat) && Truthy(r.lonSat) && Truthy(r.altSat)
  }

  /** The distance from the globe's centre, in Earth radii, of a point `alt` km high. */
  function Radius(alt: real): (radius: real)
    ensures radius - 1.0 == alt / EarthRadius
  {
    1.0 + alt / EarthRadius
  }

  datatype Point = Point(lat: real, lon: real, radius: real, time: int, isFirstPoint: bool)

  function PointOf(r: Record): (p: Point)
    requires Usable(r)
    ensures !p.isFirstPoint && p.time == r.time && p.radius == Radius(r.altSat.value)
  {
    Point(r.latSat.value, r.lonSat.value, Radius(r.altSat.value), r.time, false)
  }

  function Front<T>(s: seq<T>): seq<T> requires s != [] { s[..|s| - 1] }
  function Last<T>(s: seq<T>): T requires s != [] { s[|s| - 1] }

  /** The points of satellite `name`, in the order of the rows. */
  function Filtered(data: seq<Record>, name: string): seq<Point>
  {
    if data == [] then []
    else
      var r := Last(data);
      Filtered(Front(data), name) + (if Usable(r) && r.satelliteName == name then [PointOf(r)] else [])
  }

  /** The names of the satellites with at least one usable row, in order of first
      appearance (the insertion order of a JavaScript Map). */
  function Names(data: seq<Record>): seq<string>
  {
    if data == [] then []
    else
      var r := Last(data);
      var names := Names(Front(data));
      if Usable(r) && r.satelliteName !in names then names + [r.satelliteName] else names
  }

  /** A satellite gets a group exactly when one of its rows is usable, and no name is
      listed twice. */
  lemma {:induction false} NamesSpec(data: seq<Record>, name: string)
    ensures name in Names(data) <==> exists k :: 0 <= k < |data| && Usable(data[k]) && data[k].satelliteName == name
    ensures forall j, k :: 0 <= j < k < |Names(data)| ==> Names(data)[j] != Names(data)[k]
  {
    if data != [] {
      var front := Front(data);
      NamesSpec(front, name);
      forall k | 0 <= k < |front| ensures data[k] == front[k] { }
      if Usable(Last(data)) && Last(data).satelliteName == name {
        assert data[|data| - 1] == Last(data);
      }
    }
  }

  /** Every point of a group comes from a usable row of that satellite, and every such row
      gives a point of the group. */
  lemma {:induction false} FilteredSpec(data: seq<Record>, name: string)
    ensures forall p :: p in Filtered(data, name) ==>
      exists k :: 0 <= k < |data| && Usable(data[k]) && data[k].satelliteName == name && p == PointOf(data[k])
    ensures forall k :: 0 <= k < |data| && Usable(data[k]) && data[k].satelliteName == name ==>
      PointOf(data[k]) in Filtered(data, name)
  {
    if data != [] {
      var front := Front(data);
      FilteredSpec(front, name);
      forall k | 0 <= k < |front| ensures data[k] == front[k] { }
    }
  }

  /** Groups the usable rows by satellite name (the Map built by the first forEach). */
  method BuildGroups(data: seq<Record>) returns (order: seq<string>, groups: map<string, seq<Point>>)
    ensures order == Names(data)
    ensures forall n :: n in groups <==> n in order
    ensures forall n :: n in groups ==> groups[n] == Filtered(data, n)
  {
    order := [];
    groups := map[];
    var i := 0;
    while i < |data|
      invariant i <= |data|
      invariant order == Names(data[..i])
      invariant forall n :: n in groups <==> n in order
      invariant forall n :: n in groups ==> groups[n] == Filtered(data[..i], n)
      invariant forall n :: n !in groups ==> Filtered(data[..i], n) == []
    {
      var r := data[i];
      assert Front(data[..i + 1]) == data[..i] && Last(data[..i + 1]) == r;
      if Usable(r) {
        if r.satelliteName !in groups {
          order := order + [r.satelliteName];
          groups := groups[r.satelliteName := []];
        }
        groups := groups[r.satelliteName := groups[r.satelliteName] + [PointOf(r)]];
      }
      i := i + 1;
    }
    assert data[..i] == data;
  }

  // ---------------------------------------------------------------------------
  // Ordering and the first point
  // ---------------------------------------------------------------------------

  predicate SortedByTime(ps: seq<Point>)
  {
    forall j, k :: 0 <= j < k < |ps| ==> ps[j].time <= ps[k].time
  }

  /** Inserts before the first point that is not earlier (keeps equal times in order). */
  function Insert(p: Point, ps: seq<Point>): (r: seq<Point>)
    ensures |r| == |ps| + 1
  {
    if ps == [] || p.time <= ps[0].time then [p] + ps
    else [ps[0]] + Insert(p, ps[1..])
  }

  /** The points ordered by time (a stable sort, as `Array.prototype.sort` is). */
  function SortByTime(ps: seq<Point>): (r: seq<Point>)
    ensures |r| == |ps|
  {
    if ps == [] then [] else Insert(ps[0], SortByTime(ps[1..]))
  }

  lemma {:induction false} InsertPermutation(p: Point, ps: seq<Point>)
    ensures multiset(Insert(p, ps)) == multiset(ps) + multiset{p}
  {
    if ps != [] && p.time > ps[0].time {
      InsertPermutation(p, ps[1..]);
      assert ps == [ps[0]] + ps[1..];
    }
  }

  /** Sorting keeps the same points. */
  lemma {:induction false} SortPermutation(ps: seq<Point>)
    ensures multiset(SortByTime(ps)) == multiset(ps)
  {
    if ps != [] {
      SortPermutation(ps[1..]);
      InsertPermutation(ps[0], SortByTime(ps[1..]));
      assert ps == [ps[0]] + ps[1..];
    }
  }

  lemma {:induction false} InsertSorted(p: Point, ps: seq<Point>)
    requires SortedByTime(ps)
    ensures SortedByTime(Insert(p, ps))
  {
    if ps != [] && p.time > ps[0].time {
      InsertSorted(p, ps[1..]);
      var r := Insert(p, ps[1..]);
      InsertPermutation(p, ps[1..]);
      assert r[0] in multiset(r);
      assert r[0] == p || r[0] in ps[1..];
    }
  }

  /** The sorted points are ordered by time. */
  lemma {:induction false} SortByTimeSpec(ps: seq<Point>)
    ensures SortedByTime(SortByTime(ps))
  {
    if ps != [] {
      SortByTimeSpec(ps[1..]);
      InsertSorted(ps[0], SortByTime(ps[1..]));
    }
  }

  /** Sorting points already in time order leaves them as they are (the second pass over
      the groups sorts again). */
  lemma {:induction false} SortSorted(ps: seq<Point>)
    requires SortedByTime(ps)
    ensures SortByTime(ps) == ps
  {
    if ps != [] {
      SortSorted(ps[1..]);
      assert SortByTime(ps[1..]) == ps[1..];
    }
  }

  /** Marks the earliest point of a time-ordered group. */
  function MarkFirst(ps: seq<Point>): (r: seq<Point>)
    ensures |r| == |ps|
  {
    if ps == [] then [] else [ps[0].(isFirstPoint := true)] + ps[1..]
  }

  /** A group as drawn: sorted by time, its first point marked. */
  function Prepare(ps: seq<Point>): seq<Point>
  {
    MarkFirst(SortByTime(ps))
  }

  /** Marking the first point changes nothing else and keeps the time order. */
  lemma MarkFirstSpec(s: seq<Point>)
    requires SortedByTime(s)
    ensures SortedByTime(MarkFirst(s))
    ensures forall k :: 0 <= k < |s| ==> MarkFirst(s)[k] == if k == 0 then s[0].(isFirstPoint := true) else s[k]
  {
  }

  /** A point of the sorted group is a point of the group, and the other way round. */
  lemma SortedMember(ps: seq<Point>, x: Point)
    ensures x in SortByTime(ps) <==> x in ps
  {
    SortPermutation(ps);
    assert x in SortByTime(ps) <==> x in multiset(SortByTime(ps));
    assert x in ps <==> x in multiset(ps);
  }

  /** A drawn group is ordered by time; exactly its first point, an earliest one, is
      marked; unmarked again it is the sorted group. */
  lemma PrepareSpec(ps: seq<Point>)
    requires forall k :: 0 <= k < |ps| ==> !ps[k].isFirstPoint
    ensures SortedByTime(Prepare(ps))
    ensures forall k :: 0 <= k < |ps| ==> (Prepare(ps)[k].isFirstPoint <==> k == 0)
    ensures forall k :: 0 <= k < |ps| ==> Prepare(ps)[k].(isFirstPoint := false) == SortByTime(ps)[k]
    ensures forall k :: 0 <= k < |ps| ==> Prepare(ps)[0].time <= ps[k].time
  {
    var s := SortByTime(ps);
    SortByTimeSpec(ps);
    MarkFirstSpec(s);
    forall k | 0 <= k < |ps| ensures !s[k].isFirstPoint {
      SortedMember(ps, s[k]);
    }
    forall k | 0 <= k < |ps| ensures s[0].time <= ps[k].time {
      SortedMember(ps, ps[k]);
    }
  }

  // ---------------------------------------------------------------------------
  // What the scene holds
  // ---------------------------------------------------------------------------

  const FirstColor: int := 0xFFA500
  const PointColor: int := 0xFF0000

  /** A sphere at a point, or a satellite-name label placed 1.05 times further out. */
  datatype SceneObject = Sphere(at: Point, color: int) | Label(name: string, at: Point, radius: real)

  datatype DashedLine = DashedLine(from: Point, dashSize: real, gapSize: real)

  /** The dash and gap of the line from a point at `distance` above the surface down to
      the surface. */
  function DashSizes(distance: real): (real, real)
  {
    (Min(0.02, distance / 100.0), Min(0.01, distance / 200.0))
  }

  /** The gap is always half the dash; the dash grows with height up to 0.02, reached two
      Earth radii above the surface (12742 km). */
  lemma DashSizesSpec(alt: real)
    ensures var (dash, gap) := DashSizes(Radius(alt) - 1.0);
      && gap * 2.0 == dash
      && dash <= 0.02
      && (alt >= 0.0 ==> dash >= 0.0)
      && (dash == 0.02 <==> alt >= 2.0 * EarthRadius)
  {
  }

  function Projection(p: Point): (line: DashedLine)
  {
    var (dash, gap) := DashSizes(p.radius - 1.0);
    DashedLine(p, dash, gap)
  }

  /** The objects for one group: a sphere per point, orange for the first and red for the
      others, and the satellite's label after the first point's sphere. */
  function GroupObjects(name: string, ps: seq<Point>): seq<SceneObject>
  {
    if ps == [] then []
    else
      var p := ps[0];
      [Sphere(p, if p.isFirstPoint then FirstColor else PointColor)]
      + (if p.isFirstPoint then [Label(name, p, p.radius * 1.05)] else [])
      + GroupObjects(name, ps[1..])
  }

  function GroupProjections(ps: seq<Point>): (r: seq<DashedLine>)
    ensures |r| == |ps|
    ensures forall k :: 0 <= k < |r| ==> r[k] == Projection(ps[k])
  {
    if ps == [] then [] else [Projection(ps[0])] + GroupProjections(ps[1..])
  }

  /** The segments joining consecutive points. */
  function Tracks(ps: seq<Point>): seq<(Point, Point)>
  {
    if |ps| < 2 then [] else [(ps[0], ps[1])] + Tracks(ps[1..])
  }

  lemma {:induction false} UnmarkedObjects(name: string, ps: seq<Point>)
    requires forall k :: 0 <= k < |ps| ==> !ps[k].isFirstPoint
    ensures GroupObjects(name, ps) == seq(|ps|, k requires 0 <= k < |ps| => Sphere(ps[k], PointColor))
  {
    if ps != [] {
      UnmarkedObjects(name, ps[1..]);
    }
  }

  /** A drawn group shows one orange sphere and the label for its first point, then one red
      sphere per other point. */
  lemma PreparedObjects(name: string, ps: seq<Point>)
    requires forall k :: 0 <= k < |ps| ==> !ps[k].isFirstPoint
    requires ps != []
    ensures var r := Prepare(ps);
      GroupObjects(name, r) ==
        [Sphere(r[0], FirstColor), Label(name, r[0], r[0].radius * 1.05)]
        + seq(|r| - 1, k requires 0 <= k < |r| - 1 => Sphere(r[k + 1], PointColor))
  {
    PrepareSpec(ps);
    var r := Prepare(ps);
    UnmarkedObjects(name, r[1..]);
  }

  /** A group of n points is joined by n − 1 segments, each from a point to the next one
      in time. */
  lemma {:induction false} TracksSpec(ps: seq<Point>)
    requires SortedByTime(ps)
    ensures |Tracks(ps)| == if ps == [] then 0 else |ps| - 1
    ensures forall k :: 0 <= k < |Tracks(ps)| ==>
      Tracks(ps)[k] == (ps[k], ps[k + 1]) && ps[k].time <= ps[k + 1].time
  {
    if |ps| >= 2 {
      TracksSpec(ps[1..]);
    }
  }

  datatype Group = Group(name: string, points: seq<Point>)

  /** The groups as drawn, in order of first appearance. */
  function Groups(data: seq<Record>): (gs: seq<Group>)
    ensures |gs| == |Names(data)|
  {
    var names := Names(data);
    seq(|names|, k requires 0 <= k < |names| => Group(names[k], Prepare(Filtered(data, names[k]))))
  }

  function AllObjects(gs: seq<Group>): seq<SceneObject>
  {
    if gs == [] then [] else AllObjects(Front(gs)) + GroupObjects(Last(gs).name, Last(gs).points)
  }

  function AllProjections(gs: seq<Group>): seq<DashedLine>
  {
    if gs == [] then [] else AllProjections(Front(gs)) + GroupProjections(Last(gs).points)
  }

  function AllTracks(gs: seq<Group>): seq<(Point, Point)>
  {
    if gs == [] then [] else AllTracks(Front(gs)) + Tracks(Last(gs).points)
  }

  lemma FilteredUnmarked(data: seq<Record>, name: string)
    ensures forall k :: 0 <= k < |Filtered(data, name)| ==> !Filtered(data, name)[k].isFirstPoint
  {
    FilteredSpec(data, name);
    forall k | 0 <= k < |Filtered(data, name)| ensures !Filtered(data, name)[k].isFirstPoint {
      assert Filtered(data, name)[k] in Filtered(data, name);
    }
  }

  // ---------------------------------------------------------------------------
  // The pointing cone (createCone, updateCone)
  // ---------------------------------------------------------------------------

  datatype Vec3 = Vec3(x: real, y: real, z: real)

  function Cross(a: Vec3, b: Vec3): Vec3
  {
    Vec3(a.y * b.z - a.z * b.y, a.z * b.x - a.x * b.z, a.x * b.y - a.y * b.x)
  }

  function Dot(a: Vec3, b: Vec3): real
  {
    a.x * b.x + a.y * b.y + a.z * b.z
  }

  /** The cone's local frame at the user's position, before normalisation: east is the
      world y-axis crossed with up, north is up crossed with east. */
  function LocalFrame(up: Vec3): (frame: (Vec3, Vec3))
  {
    var east := Cross(Vec3(0.0, 1.0, 0.0), up);
    (east, Cross(up, east))
  }

  /** East and north are orthogonal to up and to each other; east vanishes exactly when up
      lies on the y-axis, where the frame is undefined. */
  lemma LocalFrameSpec(up: Vec3)
    ensures var (east, north) := LocalFrame(up);
      && Dot(east, up) == 0.0 && Dot(north, up) == 0.0 && Dot(north, east) == 0.0
      && (east == Vec3(0.0, 0.0, 0.0) <==> up.x == 0.0 && up.z == 0.0)
  {
    var (east, north) := LocalFrame(up);
    assert east == Vec3(up.z, 0.0, -up.x);
    assert north == Vec3(-(up.x * up.y), up.z * up.z + up.x * up.x, -(up.y * up.z));
  }

  /** The cone inputs as read from the page: azimuth, elevation and half-angle in degrees,
      height (the distance) in km. */
  datatype ConeInput = ConeInput(azimuth: real, elevation: real, height: real, angle: real)

  /** The outer cone (the given half-angle and the height in Earth radii), the inner cone
      (1.8° half-angle, 0.98 of the height), the apex and the local frame. */
  datatype Cone = Cone(apex: Vec3, azimuth: real, elevation: real, scaledHeight: real, angle: real,
                       innerAngle: real, innerHeight: real, east: Vec3, north: Vec3)

  const InnerAngle: real := 1.8
  const InnerHeightRatio: real := 0.98

  function CreateCone(apex: Vec3, input: ConeInput): Cone
  {
    var scaledHeight := input.height / EarthRadius;
    var (east, north) := LocalFrame(apex);
    Cone(apex, input.azimuth, input.elevation, scaledHeight, input.angle,
         InnerAngle, scaledHeight * InnerHeightRatio, east, north)
  }

  /** The cone's height is the distance in Earth radii, and the inner cone is shorter than
      the outer one exactly when the distance is positive. */
  lemma CreateConeSpec(apex: Vec3, input: ConeInput)
    ensures var c := CreateCone(apex, input);
      && c.scaledHeight * EarthRadius == input.height
      && c.innerAngle == 1.8
      && (c.innerHeight < c.scaledHeight <==> input.height > 0.0)
      && c.apex == apex
  {
  }

  // ---------------------------------------------------------------------------
  // The scene
  // ---------------------------------------------------------------------------

  /** The spheres, labels and projection lines of the drawn groups (the third forEach). */
  method BuildScene(data: seq<Record>) returns (objects: seq<SceneObject>, lines: seq<DashedLine>)
    ensures objects == AllObjects(Groups(data))
    ensures lines == AllProjections(Groups(data))
  {
    var order, groups := BuildGroups(data);
    ghost var gs := Groups(data);
    objects := [];
    lines := [];
    var k := 0;
    while k < |order|
      invariant k <= |order| == |gs|
      invariant objects == AllObjects(gs[..k])
      invariant lines == AllProjections(gs[..k])
    {
      var name := order[k];
      var points := Prepare(groups[name]);
      assert gs[k] == Group(name, points);
      assert Front(gs[..k + 1]) == gs[..k] && Last(gs[..k + 1]) == gs[k];
      objects := objects + GroupObjects(name, points);
      lines := lines + GroupProjections(points);
      k := k + 1;
    }
    assert gs[..k] == gs;
  }

  /** The segments between consecutive points of each drawn group, the groups sorted by
      time once more (the fourth forEach). */
  method BuildTracks(data: seq<Record>) returns (tracks: seq<(Point, Point)>)
    ensures tracks == AllTracks(Groups(data))
  {
    var order, groups := BuildGroups(data);
    ghost var gs := Groups(data);
    tracks := [];
    var k := 0;
    while k < |order|
      invariant k <= |order| == |gs|
      invariant tracks == AllTracks(gs[..k])
    {
      var name := order[k];
      FilteredUnmarked(data, name);
      PrepareSpec(groups[name]);
      var points := Prepare(groups[name]);
      SortSorted(points);
      var sorted := SortByTime(points);
      assert gs[k] == Group(name, sorted);
      assert Front(gs[..k + 1]) == gs[..k] && Last(gs[..k + 1]) == gs[k];
      tracks := tracks + Tracks(sorted);
      k := k + 1;
    }
    assert gs[..k] == gs;
  }

  class Globe {
    /** The scene has been set up (`orbit` and `scene` exist). */
    var initialized: bool
    /** Spheres and labels, removed and rebuilt on every update. */
    var satellites: seq<SceneObject>
    /** Projection lines, removed and rebuilt on every update. */
    var projectionLines: seq<DashedLine>
    /** Segments between consecutive points: added on every update and never removed. */
    var trackLines: seq<(Point, Point)>
    var userMarker: Vec3
    var userVisible: bool
    /** The cone in the scene, if any. */
    var cone: Option<Cone>

    constructor(initialized: bool)
      ensures this.initialized == initialized
      ensures satellites == [] && projectionLines == [] && trackLines == []
      ensures !userVisible && cone == None
    {
      this.initialized := initialized;
      satellites := [];
      projectionLines := [];
      trackLines := [];
      userMarker := Vec3(0.0, 0.0, 0.0);
      userVisible := false;
      cone := None;
    }

    /** Removes the cone and, when the user marker is shown, adds one built from the
        inputs at the marker. */
    method UpdateCone(input: ConeInput)
      modifies this
      ensures cone == (if userVisible then Some(CreateCone(userMarker, input)) else None)
      ensures initialized == old(initialized) && satellites == old(satellites)
      ensures projectionLines == old(projectionLines) && trackLines == old(trackLines)
      ensures userMarker == old(userMarker) && userVisible == old(userVisible)
    {
      cone := None;
      if userVisible {
        cone := Some(CreateCone(userMarker, input));
      }
    }

    /** Rebuilds the scene from the result rows: shows the user (moving the cone with
        them) or hides the marker, replaces the spheres, labels and projection lines with
        those of the drawn groups, and adds the groups' track segments. Nothing happens
        before the scene is set up. `userPosition` is the user's position on the globe. */
    method UpdateVisualization(data: seq<Record>, userPosition: Option<Vec3>, input: ConeInput)
      modifies this
      ensures initialized == old(initialized)
      ensures !initialized ==>
        satellites == old(satellites) && projectionLines == old(projectionLines) &&
        trackLines == old(trackLines) && userMarker == old(userMarker) &&
        userVisible == old(userVisible) && cone == old(cone)
      ensures initialized ==>
        satellites == AllObjects(Groups(data)) &&
        projectionLines == AllProjections(Groups(data)) &&
        trackLines == old(trackLines) + AllTracks(Groups(data))
      ensures initialized && userPosition.Some? ==>
        userVisible && userMarker == userPosition.value &&
        cone == Some(CreateCone(userPosition.value, input))
      ensures initialized && userPosition.None? ==>
        !userVisible && userMarker == old(userMarker) && cone == old(cone)
    {
      if !initialized {
        return;
      }
      satellites := [];
      projectionLines := [];
      if userPosition.Some? {
        userMarker := userPosition.value;
        userVisible := true;
        UpdateCone(input);
      } else {
        userVisible := false;
      }
      satellites, projectionLines := BuildScene(data);
      var tracks := BuildTracks(data);
      trackLines := trackLines + tracks;
    }
  }
}
