# Satellite-tracking gimbal: a Dafny model of the rule-based core

This project models the discrete, rule-based parts of a web application that tracks a
satellite with a two-axis gimbal, and proves properties of them. The application has a
Python backend (a Flask tracking server, a batch calculation service and TLE file filters)
and a browser front end (tracking controller, radar plot, ephemeris manager, elevation data
manager, saved locations and a 3-D globe).

The modelled parts are:

- **First pass and pointing advice** (`TrackingController`).
  - Cutting the first rise-to-set arc out of a sample stream.
  - Finding the peak and describing the pass by start and end octants.
  - The fixed-mount suggestion north / south / east / west.
  - Bucketing an azimuth into eight octants.
  - The ten-entry azimuth history and its direction-of-travel classification.
- **Gimbal frame and tracker state** (`Server`).
  - Mapping true azimuth into the ±180° frame of a north-, south- or auto-mounted gimbal.
  - Clamping commands and the state they leave.
  - TLE prefix validation.
  - Starting and stopping a tracking session.
- **Pass search** (`Server`).
  - The coarse candidate scan.
  - The 10-second detailed grid, where visible means elevation > 5°.
  - Choosing the first candidate that peaks at 30° or more.
- **Radar plot** (`RadarDisplay`).
  - The radius law r = R·(1 − e/90) and the elevation rings.
  - Which points are plotted and where the direction arrow goes.
  - The display-azimuth inverse of the gimbal conversion; both round trips are proved.
- **TLE filters** (`Dtc`).
  - The index-driven scanners that pull name / line 1 / line 2 triples out of a file or a downloaded text.
  - DTC-tagged names, or the X2 target set from the environment.
- **Ephemeris** (`EphemerisManager`).
  - The 24-hour cache decision and the stride-3 TLE parser.
  - NORAD-ID extraction and the constellation filter.
- **Elevation data** (`ElevationDataManager`).
  - The 1000-entry sample buffer and its collecting flag.
  - The download-button predicate, table down-sampling and statistics.
- **Saved locations** (`LocationManager`).
  - Coordinate validation and the overwrite-confirmed upsert.
  - Selecting a location and the configuration defaults.
- **Batch calculation** (`Calculate`).
  - The same-day constellation cache and its clearing.
  - The required-field check and the time grid.
  - Progress reporting and the first-match satellite search.
- **3-D globe** (`Visualization`).
  - Skipping falsy rows, grouping per satellite, sorting by time and marking the first point.
  - What the scene holds after a rebuild.
  - Dash sizes, cone sizes and the cross-product local frame.

Orbit propagation is an oracle. Elevation and azimuth are functions `int -> real` of
time, and the sub-satellite point is `(nat, int) -> (real, real)` of satellite index and time.
Times are integers: seconds in the backend, milliseconds where the front end uses `Date.now()`.
Angles and distances are reals. `parseFloat` results are `Option<real>`, where `None` stands
for NaN. Answers of `confirm()` dialogs are boolean parameters.

Imperative source becomes methods with loops and invariants, each proved equal to a
specification function. Objects whose fields the source updates become classes:

- `SatelliteTracker`
- `TrajectoryPredictor`
- `ElevationDataManager`
- `LocationManager`
- `SatelliteCache`
- `Progress`
- `Globe`

Files: `common.dfy` (Option, trajectory points, the visible filter, bounded push, clamping, small
multiplication lemmas), `text.dfy` (strip, split, join, substring on `seq<char>`), then one
file per source file.

## Model

| member | source | states |
|---|---|---|
| TrackingController.FirstRiseFrom | js/TrackingController.js:185-188 | the index found is the first sample from `k` on with elevation > 0, or the end |
| TrackingController.FirstSetFrom | js/TrackingController.js:189-193 | the index found is the first sample from `k` on with elevation ≤ 0, or the end |
| TrackingController.FirstPassArc | js/TrackingController.js:181-198 | empty iff no sample rises; otherwise a contiguous slice starting at the first rising sample, positive inside, ending with the first non-positive sample when one follows |
| TrackingController.FirstPassArcBetween | js/TrackingController.js:181-198 | with a first rise at i and the first set at j the arc is exactly samples i..j, set sample included, nothing after it |
| TrackingController.FilterFirstPass | js/TrackingController.js:181-198 | the flag-driven loop returns exactly the first rise-to-set arc |
| TrackingController.OctantIndex | js/TrackingController.js:516-540 | the octant of an azimuth is one of eight |
| TrackingController.OctantIndexTurns | js/TrackingController.js:517-519 | adding whole turns does not change the octant, as the normalising loops intend |
| TrackingController.DirectionHint | js/TrackingController.js:516-540 | the normalise-then-branch ladder equals the closed-form octant ((az+22.5)/45 floor mod 8) |
| TrackingController.HintNameNeverUnknown | js/TrackingController.js:521-539 | the hint is never "未知方向", and on [0,360) it is 正北 exactly for az ≥ 337.5 or az < 22.5 |
| TrackingController.OctantNameFacts | js/TrackingController.js:461-468 | which octant names contain 北, 南, 东 and 西 |
| TrackingController.OctantNameInjective | js/TrackingController.js:459 | two hints are equal exactly when the octants are |
| TrackingController.PassDescriptionOfOctants | js/TrackingController.js:451-469 | equal octants give "X方向过境", else the first shared 北/南/东/西 side in that order, else "从X向Y过境" |
| TrackingController.PeakRuleByBand | js/TrackingController.js:491-504 | with no band crossing: northern peak → 正北, southern peak → 正南, oblique peak → 正东 iff the mean azimuth is in (0,180) else 正西; the three cases cover all peaks and the last fallback is unreachable |
| TrackingController.PeakIndex | js/TrackingController.js:447-448 | the peak has maximal elevation and every earlier sample is strictly lower (first maximum wins) |
| TrackingController.SuggestionByCrossing | js/TrackingController.js:477-490 | any sample in the north band (negatives shifted once) forces 正北; otherwise any in [150,210] forces 正南 |
| TrackingController.ScanCrossings | js/TrackingController.js:477-485 | the loop's two flags are exactly "some sample in the north band" and "some sample in the south band" |
| TrackingController.AnalyzeTrajectoryDirection | js/TrackingController.js:435-513 | empty input gives null peak, "无可见轨迹", "未知"; otherwise the peak, the start/end description, the suggestion and the two peak-band flags |
| TrackingController.FilterVisible | js/TrackingController.js:206 | the loop keeps exactly the visible samples, in order and with repeats |
| TrackingController.PlanPass | js/TrackingController.js:181-222 | the arc is the first pass; the visible list is its visible samples in order; an analysis is made iff that list is non-empty, and it carries the first highest visible sample, the start-to-end description, the suggestion and the two peak-band flags |
| TrackingController.WrapDiff | js/TrackingController.js:378-385 | the difference changes by at most one turn and lands in [-180,180] for differences within ±540 |
| TrackingController.TravelDirectionQuadrant | js/TrackingController.js:387-400 | 东北/东南 exactly when the current azimuth is in [0,180], always one of four names, and the trend only matters at 90° and 270° |
| TrackingController.TrajectoryPredictor.constructor | js/TrackingController.js:353-358 | both histories start empty |
| TrackingController.TrajectoryPredictor.Predict | js/TrackingController.js:351-401 | both histories get the new value pushed (a missing elevation as 0) and are cut back to 10 entries; the answer is "计算中" iff fewer than 3 azimuths are held |
| Server.ConvertAzimuth | server.py:176-207 | north/auto: az or az − 360, within (-180,180] for az in [0,360); south: az ± 180, within [-180,180); any other setting: unchanged |
| Server.LoadSatelliteFromTle | server.py:101-103 | the satellite is accepted iff line 1 starts with "1 " and line 2 with "2 " |
| Server.SatelliteTracker.constructor | server.py:36-55 | not tracking, no thread, satellite or station, position (0,0) |
| Server.SatelliteTracker.ControlGimbal | server.py:211-244 | sends and records azimuth clamped to [-180,180] and elevation to [-30,90]; in-range commands pass unchanged; nothing else changes |
| Server.SatelliteTracker.StopTracking | server.py:366-386 | afterwards not tracking and no thread; a no-op when not tracking |
| Server.SatelliteTracker.StartTracking | server.py:298-364 | an invalid TLE leaves the session stopped and every recorded field as it was; a valid one records satellite, station, mode, mount and start time (Beijing time shifted to UTC in simulation) and starts tracking |
| Server.RestartThenStop | server.py:306-308 | starting while tracking replaces the session and a stop afterwards leaves it stopped |
| Server.ScanWindows | server.py:566-603 | every candidate is a 30-minute window centred on a sampled time within the search span where elevation was positive, and consecutive candidates are at least 23 minutes apart |
| Server.ScanEmission | server.py:583-596 | a window is centred only on a sample that has a previous sample, where the previous one was at or below the horizon and this one above it, or this one is above 10°; with no previous sample the first sample never starts a window |
| Server.FindPassCandidatesFast | server.py:566-603 | the coarse scan loop returns exactly the recursive candidate scan |
| Server.Grid | server.py:612-616 | the detailed grid has ⌊(end − start)/10⌋ + 1 samples, the k-th at start + 10k |
| Server.GridTimes | server.py:627-639 | samples are in time order, within [start, end], and visible iff elevation > 5 |
| Server.CalculateDetailedPass | server.py:605-663 | the loop returns exactly the 10-second grid |
| Common.VisibleOfMembers | server.py:723 | the visible points are exactly the visible samples (also js/TrackingController.js:206) |
| Common.VisibleOfSorted | server.py:723 | filtering keeps the time order |
| Server.MaxElevation | server.py:728 | the maximum bounds every visible elevation and is attained |
| Server.TryCandidate | server.py:717-745 | a candidate gives a response iff it has a visible point peaking at ≥ 30°; the response holds only visible points with equal counts, the highest visible elevation as its peak, and first/last times |
| Server.CalculateTrajectory | server.py:665-748 | no candidates → 404 "在24小时内未找到过境候选时间段"; a trajectory iff some candidate qualifies, and then from the first that does, with its highest visible elevation as the peak; otherwise 404 "在24小时内未找到最大仰角>=30°的轨迹" |
| RadarDisplay.ViewportRadius | js/RadarDisplay.js:16-18 | R = min(cx, cy) − 30 |
| RadarDisplay.RadiusForBounds | js/RadarDisplay.js:33 | 0° maps to the rim, 90° to the centre, elevations in between strictly inside, and the radius strictly decreases with elevation |
| RadarDisplay.RadiusRoundTrip | js/RadarDisplay.js:109 | the radius law is invertible: elevation → radius → elevation and back are identities |
| RadarDisplay.RingRadii | js/RadarDisplay.js:27-33 | the rings for 0°, 30°, 60° and 90° are at R, 2R/3, R/3 and 0 |
| RadarDisplay.PlottedPointsMembers | js/RadarDisplay.js:107-108 | a point is plotted iff it is visible with elevation > 0 |
| RadarDisplay.ArrowSegment | js/RadarDisplay.js:128-134 | an arrow exists iff there are at least 3 points, from ⌊n/2⌋−1 to ⌊n/2⌋+1 |
| RadarDisplay.ProjectPoints | js/RadarDisplay.js:105-123 | the loop projects exactly the plotted points, in input order, at the radius law |
| RadarDisplay.ProjectedInside | js/RadarDisplay.js:109 | every projected point lies strictly inside the rim |
| RadarDisplay.DrawTrajectoryOnRadar | js/RadarDisplay.js:94-153 | the projected points, the arrow rule, and start/end markers at the first/last point exactly when there is one |
| RadarDisplay.DisplayAzimuth | js/RadarDisplay.js:195-207 | south: az ± 180 within [0,360) for az in [-180,180); north/auto: az or az + 360 within [0,360) for az in (-180,180]; otherwise unchanged |
| RadarDisplay.DisplayAfterConvert | js/RadarDisplay.js:195-207 | for az in [0,360) and every mount, displaying the server's converted azimuth gives az back |
| RadarDisplay.ConvertAfterDisplay | server.py:176-207 | converting a displayed gimbal azimuth gives it back |
| RadarDisplay.SatelliteMarker | js/RadarDisplay.js:182-213 | no marker iff elevation ≤ 0; otherwise at the display azimuth and the radius law, inside the rim |
| Dtc.FindLine | dtc.py:28-45 | the index found is the first line from `from` on starting with the TLE prefix, skipping others, or the end |
| Dtc.GroupsHit | dtc.py:22-55 | a selected name with both TLE lines found yields that group and scanning resumes after line 2 |
| Dtc.GroupsSound | dtc.py:13-60 | every group is a selected non-empty name followed by a "1 " line and a "2 " line, groups in increasing, non-overlapping order |
| Dtc.EmitAt | dtc.py:49 | output line 3m+c is line c of group m, newline-terminated |
| Dtc.FindTleLine | dtc.py:28-45 | the inner search loop returns the stripped TLE line at the first matching index, or nothing |
| Dtc.ReadRecord | dtc.py:22-58 | one name: a complete group is emitted and scanning resumes after line 2; an incomplete one advances one line |
| Dtc.ScanAt | dtc.py:13-60 | one step of the outer loop emits exactly the next group's record, if any, and advances |
| Dtc.FilterSatellites | dtc.py:4-75 | output is the emitted records of all groups, the count is their number, and the file is written iff a group was found |
| Dtc.FilterSatellitesStreaming | dtc.py:166-240 | the same scan over `response_text.strip().split('\n')` |
| Dtc.OutputAt | dtc.py:49-55 | each emitted triple is a name line, a "1 " line and a "2 " line, groups strictly ordered |
| Dtc.FilteredRecords | dtc.py:13-60 | output length is 3·count; each triple is a stripped selected name, a "1 " line and a "2 " line, in input order |
| Dtc.X2TargetsNames | dtc.py:86-89 | the target set is exactly the stripped, non-empty comma-separated names |
| Dtc.DefaultX2Targets | dtc.py:86-89 | with no environment value the targets are the four default X2 names |
| Dtc.NoTargetsNoGroups | dtc.py:110-111 | an empty target set selects no group |
| Dtc.EmptyX2TargetsSelectNothing | dtc.py:86-89 | an empty X2_SATELLITES setting gives no targets and no output |
| EphemerisManager.PlanDownload | js/EphemerisManager.js:10-40 | nothing without a constellation; the cache is used iff a timestamp exists and is less than 24 h old |
| EphemerisManager.CacheWindow | js/EphemerisManager.js:36 | the cache is used exactly before fetch time + 24 h, and a missing timestamp always fetches |
| EphemerisManager.ContainsAnyAt | js/EphemerisManager.js:117 | `some` over the IDs holds iff the name contains one of them |
| EphemerisManager.ShouldIncludeSatelliteCases | js/EphemerisManager.js:109-121 | the NORAD ID is ignored; starlink_dtc is case-insensitive; any of the four X2 IDs admits the name; other constellations admit everything |
| EphemerisManager.NoradId | js/EphemerisManager.js:91 | the NORAD ID has at most 5 characters |
| EphemerisManager.Parse | js/EphemerisManager.js:85-102 | at most one satellite per three lines |
| EphemerisManager.ParseSound | js/EphemerisManager.js:90-93 | every parsed satellite has a non-empty trimmed name, "1 " and "2 " lines, and passes the constellation filter |
| EphemerisManager.AcceptedValidTle | js/EphemerisManager.js:90 | every parsed satellite passes the server's TLE check |
| EphemerisManager.ProcessSatellites | js/EphemerisManager.js:78-107 | the stride-3 loop returns exactly the recursive parse of the split text |
| EphemerisManager.ReadBlock | js/EphemerisManager.js:86-101 | one stride reads the triple at i and keeps it iff it is accepted |
| EphemerisManager.ParseLines | js/EphemerisManager.js:85-102 | accepted satellites written as lines parse back to themselves |
| EphemerisManager.ProcessRoundTrip | js/EphemerisManager.js:78-102 | accepted single-line satellites joined with newlines and processed give the same satellites back |
| ElevationDataManager.ElevationDataManager.constructor | js/ElevationDataManager.js:6-13 | empty buffer, not collecting |
| ElevationDataManager.ElevationDataManager.StartCollecting | js/ElevationDataManager.js:44-48 | empties the buffer and sets the flag |
| ElevationDataManager.ElevationDataManager.StopCollecting | js/ElevationDataManager.js:51-54 | clears only the flag, the data stays |
| ElevationDataManager.ElevationDataManager.AddDataPoint | js/ElevationDataManager.js:68-85 | nothing when not collecting; otherwise the point is appended and the oldest dropped beyond 1000, so the buffer stays ≤ 1000 |
| ElevationDataManager.ElevationDataManager.GetDataStats | js/ElevationDataManager.js:548-566 | null iff the buffer is empty; otherwise count, attained min and max bounding every elevation, min ≤ avg ≤ max, avg the mean, first and last times |
| ElevationDataManager.PushAllWindow | js/ElevationDataManager.js:79-84 | after any sequence of additions the buffer is the last min(n, 1000) points pushed |
| ElevationDataManager.DownloadEnabledIff | js/ElevationDataManager.js:60-63 | the download button is enabled iff the trajectory exists and has a visible point |
| ElevationDataManager.EveryNthAt | js/ElevationDataManager.js:425 | row k exists iff k·step < n, and it is element k·step |
| ElevationDataManager.RowStep | js/ElevationDataManager.js:424-425 | the step ⌈n/100⌉ is positive |
| ElevationDataManager.ThinShape | js/ElevationDataManager.js:409-426 | at most 100 rows, all rows kept when n ≤ 100, the first row is kept, and row k is element k·⌈n/100⌉ |
| ElevationDataManager.StatsSound | js/ElevationDataManager.js:553-565 | the computed statistics satisfy the statistics specification |
| ElevationDataManager.MinElevationBound | js/ElevationDataManager.js:554 | the minimum bounds every elevation and is attained |
| ElevationDataManager.MaxElevationBound | js/ElevationDataManager.js:555 | the maximum bounds every elevation and is attained |
| ElevationDataManager.SumBounds | js/ElevationDataManager.js:556 | n·min ≤ sum ≤ n·max |
| ElevationDataManager.AverageBetween | js/ElevationDataManager.js:556 | a mean of values within [lo, hi] is within [lo, hi] |
| LocationManager.OrDefault | js/LocationManager.js:16-19 | a present, non-empty value is kept, anything else becomes the default |
| LocationManager.Validate | js/LocationManager.js:131-142 | refused for a missing name, latitude or longitude; otherwise refused iff a coordinate is NaN or out of range |
| LocationManager.HasNameAt | js/LocationManager.js:156 | `some` by name holds iff an entry has that name |
| LocationManager.WithoutNameSpec | js/LocationManager.js:161 | no entry of the name remains, entries of other names are unchanged, and nothing changes when the name is absent |
| LocationManager.FindNamedSpec | js/LocationManager.js:75 | `find` gives nothing iff the name is absent, else the first entry of that name |
| LocationManager.UpsertSpec | js/LocationManager.js:156-173 | after the upsert exactly one entry has the name, it is last, other names are untouched, and without a duplicate it is a plain append |
| LocationManager.UpsertUnique | js/LocationManager.js:156-173 | upserting keeps names unique |
| LocationManager.LocationManager.constructor | js/LocationManager.js:6-8 | the stored locations and configuration, empty inputs |
| LocationManager.LocationManager.LoadGroundStationConfig | js/LocationManager.js:11-25 | without a stored configuration nothing changes; otherwise fields default to '' and the direction to 'auto' |
| LocationManager.LocationManager.SaveGroundStationConfig | js/LocationManager.js:28-38 | the stored configuration becomes the four current inputs |
| LocationManager.LocationManager.SelectLocation | js/LocationManager.js:68-88 | an empty or unknown name changes nothing; otherwise the first entry of that name fills the inputs (altitude '' and direction 'auto' by default) and is saved |
| LocationManager.LocationManager.SaveNewLocation | js/LocationManager.js:123-185 | invalid input or a declined overwrite changes nothing; otherwise the trimmed name is upserted with direction 'auto' |
| LocationManager.LocationManager.ClearAllLocations | js/LocationManager.js:188-194 | confirmed clears all saved locations, declined changes nothing |
| LocationManager.ConfigRoundTrip | js/LocationManager.js:11-38 | saving and loading the configuration gives the inputs back, an empty direction becoming 'auto' |
| Calculate.Lookup | calculate.py:34-39 | the cache answers iff the constellation is stored with a timestamp on the same date, with the stored value |
| Calculate.SatelliteCache.constructor | calculate.py:30-46 | the cache starts empty |
| Calculate.SatelliteCache.Get | calculate.py:30-46 | a same-day hit returns the stored satellites and changes nothing; otherwise the loaded satellites are returned and stored with the current time |
| Calculate.SatelliteCache.ClearSatelliteCache | calculate.py:405-412 | a non-empty name removes only that entry; None or '' empties the cache |
| Calculate.StoredThenServed | calculate.py:30-46 | a stored value is served for the rest of that date and not after, and other constellations are unaffected |
| Calculate.ClearedMisses | calculate.py:405-409 | after clearing a constellation the cache misses for it and is unchanged for the others |
| Calculate.MissingSpec | calculate.py:279 | a field is listed iff it is required and absent or null |
| Calculate.RequiredCheck | calculate.py:281-284 | a refusal carries status 400 |
| Calculate.RequiredCheckIff | calculate.py:278-284 | the request is refused iff one of the seven required fields is absent or null |
| Calculate.TimePointsAt | calculate.py:292-296 | point k exists iff start + k·interval ≤ end, and equals it |
| Calculate.TimePointsCount | calculate.py:292-296 | there are ⌊(end − start)/interval⌋ + 1 points when start ≤ end, none otherwise |
| Calculate.BuildTimePoints | calculate.py:292-296 | the loop builds exactly the time grid |
| Calculate.NonPositiveIntervalLoops | calculate.py:290-296 | with interval ≤ 0 and start ≤ end the loop condition holds on every pass |
| Calculate.BuildTimePointsChecked | calculate.py:290-296 | a non-positive interval is refused; otherwise the time grid |
| Calculate.ProgressBounds | calculate.py:342 | the unrounded percentage after satellite i is in (0,100], is 100 exactly at the last satellite, and strictly grows with i |
| Calculate.Tag | calculate.py:336-337 | every row is labelled with the satellite's name and nothing else changes |
| Calculate.Progress.constructor | calculate.py:25-28 | 0 % and "未开始" |
| Calculate.Progress.Advance | calculate.py:341-343 | the percentage becomes (i+1)/total·100 |
| Calculate.CalculateAll | calculate.py:311-358 | the rows of the successful satellites, in order and labelled; 400 "没有有效的计算结果" when none; progress ends at 100 % "完成" |
| Calculate.FirstTimeSpec | calculate.py:241-258 | the time found is the first grid time over the target, and nothing is found iff no time is |
| Calculate.FirstHitSpec | calculate.py:240-260 | the search finds the first satellite in list order with a time over the target, and nothing iff no satellite at any time is |
| Calculate.FirstTimeOf | calculate.py:241-258 | the inner loop returns the first grid time over the target |
| Calculate.FindSatellite | calculate.py:236-260 | the nested loops report the first satellite and time found, with its stripped name and sub-point, or nothing |
| Visualization.Radius | static/js/visualization.js:207 | the height above the surface in Earth radii is alt/6371 |
| Visualization.PointOf | static/js/visualization.js:205-225 | a point keeps its time and radius and is not yet marked first |
| Visualization.NamesSpec | static/js/visualization.js:198-220 | a satellite gets a group iff it has a row with truthy lat, lon and alt (an exact 0 is skipped), and no name twice |
| Visualization.FilteredSpec | static/js/visualization.js:198-226 | a group's points are exactly the usable rows of that satellite |
| Visualization.BuildGroups | static/js/visualization.js:195-226 | the forEach builds, in first-appearance order, one group per name holding exactly that satellite's usable rows |
| Visualization.SortPermutation | static/js/visualization.js:230 | sorting keeps the same points |
| Visualization.SortByTimeSpec | static/js/visualization.js:230 | sorted points are in time order |
| Visualization.SortSorted | static/js/visualization.js:295-296 | sorting again in the second pass changes nothing |
| Visualization.PrepareSpec | static/js/visualization.js:229-234 | a drawn group is time-ordered, exactly its first point is marked, that point is earliest, and unmarked it is the sorted group |
| Visualization.DashSizesSpec | static/js/visualization.js:270-274 | the gap is always half the dash; the dash is at most 0.02, non-negative above ground, and 0.02 exactly from 2 Earth radii up |
| Visualization.GroupProjections | static/js/visualization.js:269-284 | one projection line per point, for that point |
| Visualization.PreparedObjects | static/js/visualization.js:236-267 | a group shows an orange sphere and the satellite's label for its first point, then one red sphere per other point |
| Visualization.TracksSpec | static/js/visualization.js:292-302 | n points are joined by n − 1 segments, each from a point to the next in time |
| Visualization.Groups | static/js/visualization.js:195-234 | one drawn group per satellite name |
| Visualization.BuildScene | static/js/visualization.js:236-287 | the loop produces exactly the spheres, labels and projection lines of the drawn groups |
| Visualization.BuildTracks | static/js/visualization.js:289-302 | the loop produces exactly the segments of the drawn groups |
| Visualization.LocalFrameSpec | static/js/visualization.js:487-493 | east = (0,1,0)×up and north = up×east are orthogonal to up and to each other; east is zero iff up is on the y-axis |
| Visualization.CreateConeSpec | static/js/visualization.js:424-445 | the cone height is height/6371, the inner cone has a 1.8° half-angle and is shorter iff the height is positive |
| Visualization.Globe.constructor | static/js/visualization.js:9-12 | empty scene arrays, no cone, marker hidden |
| Visualization.Globe.UpdateCone | static/js/visualization.js:521-536 | the previous cone is always removed and a new one added iff the user marker is visible |
| Visualization.Globe.UpdateVisualization | static/js/visualization.js:169-334 | nothing before set-up; otherwise spheres, labels and projection lines are replaced by those of the rows, track segments are added, and the user marker and cone follow the user position |

## Left out

- Orbit propagation (skyfield/SGP4), the sub-satellite point and the look angles are oracle parameters. Rounding (`round`, `toFixed`) and the output formatting of numbers are not modelled.
- Trigonometry is not modelled:
  - latitude/longitude to 3-D vectors and the radar x/y positions;
  - the cone direction, its quaternion, `tan` of the cone angles and vector normalisation;
  - Doppler, distance and coverage calculations.
- A globe point keeps its latitude, longitude and radius instead of a vector. Its distance to the surface is taken as radius − 1, which is what the vector length gives.
- Threads, timers and sleeping are left out: the tracking loop, `setInterval`, and the 2-second `join`. `StopTracking` drops the thread handle at once.
- Hardware is left out: the serial gimbal controller and the Raspberry Pi detection.
- I/O is left out: Flask routing and JSON parsing, `fetch`, `localStorage`, files, the DOM, canvas drawing, CSV download and logging. Stored values are fields or parameters. "Written" in the TLE filters is a boolean result.
- Exceptions are left out. A satellite whose calculation raises or returns an error is the same `None` outcome in `CalculateAll`. The 500 paths and the "出错" status are not modelled. `FindSatellite` and the scans assume the oracle always answers.
- Calendar dates and time zones: a date is the whole number of days since the epoch (UTC). The Beijing-to-UTC shift is a fixed 8 hours. ISO-string parsing is not modelled.
- Strings: whitespace for `strip`/`trim` and lower-casing are ASCII only. Strings are sequences of characters without encoding.
- Python's `strip()` also removes the ASCII separators U+001C to U+001F. The model uses JavaScript's ASCII whitespace set for both, so in the TLE filters (dtc.py:14, 30, 40, 89, 102) and for satellite names (calculate.py:252) a leading or trailing separator is kept.
- Numbers: azimuths and elevations are finite reals; NaN and Infinity are not modelled.
- `TrackingController.HintNameNeverUnknown`: holds for real azimuths only. With NaN the source's hint is "未知方向" (js/TrackingController.js:539).
- `TrackingController.PeakRuleByBand`: the third fallback is unreachable for real azimuths only. A NaN peak azimuth reaches it (js/TrackingController.js:491-504).
- Sorting is modelled as a stable insertion sort on times. Its result is proved ordered and a permutation; stability itself is not stated.
- `Visualization.Globe.UpdateVisualization`: track segments between consecutive points go into the scene without being recorded, so earlier updates' segments remain. The model keeps them in `trackLines` and never removes them.
- `Calculate.FindSatellite`: requires a positive search interval. With 0 the source still answers at once in three cases: the satellite list is empty, start > end, or the first satellite is over the target at the start time. Otherwise it loops for ever on the first satellite. With a negative step and start ≤ end it ends only on a hit by the first satellite at the start time or earlier; failing that, it runs until the date goes below year 1 (an uncaught OverflowError, so a 500). The finding below has the same cause.
- `Calculate.BuildTimePoints`: requires a positive interval for the same reason. `BuildTimePointsChecked` is the version that refuses the others.
- `Calculate.Progress.Advance`: the percentage is the exact quotient; the source rounds it to one decimal.
- `Calculate.ProgressBounds`: its three properties hold for the unrounded quotient only. After `round(…, 1)` strict growth fails once there are more than 1000 satellites, since consecutive percentages are then less than 0.1 apart. With 1001, satellites 499 (49.95…) and 500 (50.04…) both report 50.0. Positivity and "100 only at the last" fail too. With 3000, satellite 0 reports 0.0 and satellites 1 and 2 both report 0.1. With 4000, satellite 3998 already reports 100.0.
- The satellite list of `calculate` (calculate.py:298-310) is not modelled. The source takes every satellite of the constellation when `show_cover` is set, answering 400 "无法加载…星座数据" when none load. Otherwise it takes the one `satellite_name`, answering 400 "未指定卫星名称" when it is missing. `CalculateAll` takes the resulting names as a parameter.
- `Calculate.RequiredCheck`: its contract states only the status. The message text is in its body and is not stated.
- `search_target_satellite` is not part of this model: its calls do not match the callee signatures, so it has no behaviour to state.
- tle.py, js/StatusManager.js, js/SatelliteTracker.js, app.py, app.js and start.py are not part of this model. They are configuration, network and DOM wiring.
- The satellite drop-down, the charts and the coverage branch of the globe are left out, being DOM-only.

## Findings

| source | as written | input that shows it | evidently intended | confidence | as-written member | corrected member |
|---|---|---|---|---|---|---|
| calculate.py:290-296 | the time grid adds `interval` seconds until past `end_time`, with no check on `interval` | `interval` = 0 with `start_time` ≤ `end_time`: the time never advances, so the loop runs for ever and `time_points` grows until memory runs out. With a negative interval the loop ends only when the date goes below year 1: the OverflowError is caught at calculate.py:360-364 and answered with a 500 | a non-positive interval is refused before the loop | not executed | Calculate.NonPositiveIntervalLoops | Calculate.BuildTimePointsChecked |
