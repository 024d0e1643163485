/** The frontend's elevation sample buffer and the trajectory table
    (js/ElevationDataManager.js): a buffer of at most 1000 samples filled only while
    collecting, the download button's enabling test, the table's down-sampling to about
    100 rows, and the summary statistics of the buffer. */
module ElevationDataManager {
  import opened Common

  /** One collected sample; the clock reading is passed in by the caller. */
  datatype DataPoint = DataPoint(time: int, elevation: real, azimuth: real)

  /** The most samples the buffer keeps. */
  const MaxPoints: nat := 1000

  // ---------------------------------------------------------------------------
  // The sample buffer
  // ---------------------------------------------------------------------------

  class ElevationDataManager {
    var elevationData: seq<DataPoint>
    var isCollecting: bool

    ghost predicate Valid()
      reads this
    {
      |elevationData| <= MaxPoints
    }

    constructor()
      ensures Valid()
      ensures elevationData == [] && !isCollecting
    {
      elevationData := [];
      isCollecting := false;
    }

    /** Starts a fresh collection: the buffer is emptied. */
    method StartCollecting()
      modifies this
      ensures Valid()
      ensures isCollecting && elevationData == []
    {
      isCollecting := true;
      elevationData := [];
    }

    /** Stops collecting and keeps what was collected. */
    method StopCollecting()
      modifies this
      ensures !isCollecting && elevationData == old(elevationData)
    {
      isCollecting := false;
    }

    /** Appends a sample while collecting, dropping the oldest one when the buffer would
        exceed `MaxPoints`; does nothing while not collecting. */
    method AddDataPoint(now: int, azimuth: real, elevation: real)
      requires Valid()
      modifies this
      ensures Valid()
      ensures isCollecting == old(isCollecting)
      ensures !old(isCollecting) ==> elevationData == old(elevationData)
      ensures old(isCollecting) ==>
        elevationData == PushBounded(old(elevationData), DataPoint(now, elevation, azimuth), MaxPoints)
    {
      if !isCollecting {
        return;
      }
      elevationData := elevationData + [DataPoint(now, elevation, azimuth)];
      if |elevationData| > MaxPoints {
        elevationData := elevationData[1..];
      }
    }

    /** The statistics of the buffer: nothing for an empty buffer; otherwise the count,
        the least, greatest and mean elevation, and the times of the first and last
        samples. */
    function GetDataStats(): (stats: Option<DataStats>)
      reads this
      ensures stats.None? <==> elevationData == []
      ensures stats.Some? ==> StatsOf(elevationData, stats.value)
    {
      if elevationData == [] then None
      else
        StatsSound(elevationData);
        Some(Stats(elevationData))
    }
  }

  // ---------------------------------------------------------------------------
  // What the buffer holds after a run of samples
  // ---------------------------------------------------------------------------

  /** The buffer after appending every sample of `xs` in turn. */
  function PushAll(s: seq<DataPoint>, xs: seq<DataPoint>): (r: seq<DataPoint>)
    requires |s| <= MaxPoints
    ensures |r| <= MaxPoints
    decreases |xs|
  {
    if xs == [] then s else PushAll(PushBounded(s, xs[0], MaxPoints), xs[1..])
  }

  /** Collecting a run of samples into a buffer leaves exactly the newest `MaxPoints`
      samples of the whole history, in order. */
  lemma {:induction false} PushAllWindow(s: seq<DataPoint>, xs: seq<DataPoint>)
    requires |s| <= MaxPoints
    ensures var t := s + xs;
      PushAll(s, xs) == t[|t| - (if |t| <= MaxPoints then |t| else MaxPoints)..]
    decreases |xs|
  {
    if xs != [] {
      var s' := PushBounded(s, xs[0], MaxPoints);
      var rest := xs[1..];
      PushAllWindow(s', rest);
      var t := s + xs;
      assert t == s + [xs[0]] + rest;
      if |s| < MaxPoints {
        assert s' + rest == t;
      } else {
        assert s' + rest == t[1..];
      }
    }
  }

  // ---------------------------------------------------------------------------
  // The download button (updateDownloadButtonState)
  // ---------------------------------------------------------------------------

  /** Whether any sample of the pass is visible. */
  predicate AnyVisible(ps: seq<TrajectoryPoint>)
    decreases |ps|
  {
    ps != [] && (ps[0].visible || AnyVisible(ps[1..]))
  }

  /** The button is enabled when a pass is known, is not empty, and has a visible sample. */
  predicate DownloadEnabled(lastTrajectoryPoints: Option<seq<TrajectoryPoint>>)
  {
    lastTrajectoryPoints.Some? && |lastTrajectoryPoints.value| > 0 && AnyVisible(lastTrajectoryPoints.value)
  }

  /** The button is enabled exactly when the known pass holds a visible sample. */
  lemma {:induction false} DownloadEnabledIff(lastTrajectoryPoints: Option<seq<TrajectoryPoint>>)
    ensures DownloadEnabled(lastTrajectoryPoints) <==>
      lastTrajectoryPoints.Some? &&
      exists i :: 0 <= i < |lastTrajectoryPoints.value| && lastTrajectoryPoints.value[i].visible
  {
    if lastTrajectoryPoints.Some? {
      AnyVisibleAt(lastTrajectoryPoints.value);
    }
  }

  lemma {:induction false} AnyVisibleAt(ps: seq<TrajectoryPoint>)
    ensures AnyVisible(ps) <==> exists i :: 0 <= i < |ps| && ps[i].visible
    decreases |ps|
  {
    if ps != [] {
      var rest := ps[1..];
      AnyVisibleAt(rest);
      if AnyVisible(rest) {
        var i :| 0 <= i < |rest| && rest[i].visible;
        assert ps[i + 1] == rest[i];
      }
      if exists i :: 0 <= i < |ps| && ps[i].visible {
        var i :| 0 <= i < |ps| && ps[i].visible;
        if i > 0 {
          assert rest[i - 1] == ps[i];
        }
      }
    }
  }

  // ---------------------------------------------------------------------------
  // The trajectory table (updateTrajectoryDataTable)
  // ---------------------------------------------------------------------------

  /** The most rows the table aims for. */
  const MaxRows: nat := 100

  /** Every `step`-th element, starting with the first: the elements whose index is a
      multiple of `step`. */
  function EveryNth<T>(data: seq<T>, step: nat): (r: seq<T>)
    requires step > 0
    decreases |data|
  {
    if data == [] then []
    else [data[0]] + EveryNth(data[if step <= |data| then step else |data|..], step)
  }

  /** The element at row `k` is the element at index `k * step`, and the rows are exactly
      the multiples of `step` below |data|. */
  lemma {:induction false} EveryNthAt<T>(data: seq<T>, step: nat, k: nat)
    requires step > 0
    ensures k < |EveryNth(data, step)| <==> k * step < |data|
    ensures k < |EveryNth(data, step)| ==> EveryNth(data, step)[k] == data[k * step]
    decreases |data|
  {
    if data != [] && k > 0 {
      var cut := if step <= |data| then step else |data|;
      var rest := data[cut..];
      var j := k - 1;
      var rows := EveryNth(rest, step);
      assert EveryNth(data, step) == [data[0]] + rows;
      var m := j * step;
      MulSucc(j, step);
      assert k * step == m + step;
      if cut == step {
        EveryNthAt(rest, step, j);
        if j < |rows| {
          assert rest[m] == data[m + step];
        }
      } else {
        assert rows == [];
        MulMono(1, k, step);
      }
    }
  }

  /** The spacing of the rows kept from `n` samples: ⌈n/100⌉ when there are more than
      100 of them, every sample otherwise. */
  function RowStep(n: nat): (step: nat)
    ensures step > 0
  {
    if n > MaxRows then (n + MaxRows - 1) / MaxRows else 1
  }

  /** The rows shown for the visible samples `data`. */
  function Thin(data: seq<TrajectoryPoint>): seq<TrajectoryPoint>
  {
    if |data| > MaxRows then EveryNth(data, RowStep(|data|)) else data
  }

  /** The rows of the table: the visible samples, thinned to every ⌈n/100⌉-th when there
      are more than 100 of them. */
  function TableRows(points: seq<TrajectoryPoint>): seq<TrajectoryPoint>
  {
    Thin(VisibleOf(points))
  }

  /** The table never has more than 100 rows, starts with the first visible sample, keeps
      every visible sample when there are at most 100, and otherwise shows exactly the
      samples whose index is a multiple of the step, in order. */
  lemma ThinShape(data: seq<TrajectoryPoint>, k: nat)
    ensures var rows := Thin(data);
      && |rows| <= MaxRows
      && (|data| <= MaxRows ==> rows == data)
      && (data != [] ==> rows != [] && rows[0] == data[0])
      && (k < |rows| <==> k * RowStep(|data|) < |data|)
      && (k < |rows| ==> rows[k] == data[k * RowStep(|data|)])
  {
    var n := |data|;
    if n > MaxRows {
      var step := RowStep(n);
      var rows := EveryNth(data, step);
      EveryNthAt(data, step, k);
      EveryNthAt(data, step, 0);
      EveryNthAt(data, step, |rows| - 1);
      assert (|rows| - 1) * step < n <= MaxRows * step;
      MulCancel(|rows| - 1, MaxRows, step);
    }
  }

  // ---------------------------------------------------------------------------
  // Statistics (getDataStats)
  // ---------------------------------------------------------------------------

  datatype DataStats = DataStats(
    count: nat, minElevation: real, maxElevation: real, avgElevation: real, startTime: int, endTime: int)

  /** What the statistics of a non-empty buffer say about it. */
  ghost predicate StatsOf(data: seq<DataPoint>, s: DataStats)
  {
    && data != [] && s.count == |data|
    && (forall i :: 0 <= i < |data| ==> s.minElevation <= data[i].elevation <= s.maxElevation)
    && (exists i :: 0 <= i < |data| && data[i].elevation == s.minElevation)
    && (exists i :: 0 <= i < |data| && data[i].elevation == s.maxElevation)
    && s.minElevation <= s.avgElevation <= s.maxElevation
    && s.avgElevation == SumElevation(data) / (|data| as real)
    && s.startTime == data[0].time && s.endTime == data[|data| - 1].time
  }

  /** The statistics of a non-empty buffer. */
  function Stats(data: seq<DataPoint>): DataStats
    requires data != []
  {
    var n := |data|;
    DataStats(n, MinElevation(data), MaxElevation(data), SumElevation(data) / (n as real),
      data[0].time, data[n - 1].time)
  }

  lemma StatsSound(data: seq<DataPoint>)
    requires data != []
    ensures StatsOf(data, Stats(data))
  {
    var s := Stats(data);
    MinElevationBound(data);
    MaxElevationBound(data);
    SumBounds(data);
    AverageBetween(s.minElevation, s.maxElevation, SumElevation(data), |data|, s.avgElevation);
  }

  /** Math.min over the elevations. */
  function MinElevation(data: seq<DataPoint>): real
    requires data != []
    decreases |data|
  {
    if |data| == 1 then data[0].elevation else Common.Min(data[0].elevation, MinElevation(data[1..]))
  }

  /** Math.max over the elevations. */
  function MaxElevation(data: seq<DataPoint>): real
    requires data != []
    decreases |data|
  {
    if |data| == 1 then data[0].elevation else Common.Max(data[0].elevation, MaxElevation(data[1..]))
  }

  /** The sum the mean is taken from. */
  function SumElevation(data: seq<DataPoint>): real
    decreases |data|
  {
    if data == [] then 0.0 else data[0].elevation + SumElevation(data[1..])
  }

  lemma {:induction false} MinElevationBound(data: seq<DataPoint>)
    requires data != []
    ensures forall i :: 0 <= i < |data| ==> MinElevation(data) <= data[i].elevation
    ensures exists i :: 0 <= i < |data| && data[i].elevation == MinElevation(data)
    decreases |data|
  {
    if |data| > 1 {
      var rest := data[1..];
      MinElevationBound(rest);
      var j :| 0 <= j < |rest| && rest[j].elevation == MinElevation(rest);
      assert data[j + 1] == rest[j];
      if data[0].elevation != MinElevation(data) {
        assert data[j + 1].elevation == MinElevation(data);
      }
      forall i | 1 <= i < |data| ensures MinElevation(data) <= data[i].elevation {
        assert data[i] == rest[i - 1];
      }
    } else {
      assert data[0].elevation == MinElevation(data);
    }
  }

  lemma {:induction false} MaxElevationBound(data: seq<DataPoint>)
    requires data != []
    ensures forall i :: 0 <= i < |data| ==> data[i].elevation <= MaxElevation(data)
    ensures exists i :: 0 <= i < |data| && data[i].elevation == MaxElevation(data)
    decreases |data|
  {
    if |data| > 1 {
      var rest := data[1..];
      MaxElevationBound(rest);
      var j :| 0 <= j < |rest| && rest[j].elevation == MaxElevation(rest);
      assert data[j + 1] == rest[j];
      if data[0].elevation != MaxElevation(data) {
        assert data[j + 1].elevation == MaxElevation(data);
      }
      forall i | 1 <= i < |data| ensures data[i].elevation <= MaxElevation(data) {
        assert data[i] == rest[i - 1];
      }
    } else {
      assert data[0].elevation == MaxElevation(data);
    }
  }

  /** `x` added up `n` times. */
  function Scale(n: nat, x: real): real
  {
    if n == 0 then 0.0 else x + Scale(n - 1, x)
  }

  lemma {:induction false} ScaleMono(n: nat, a: real, b: real)
    requires a <= b
    ensures Scale(n, a) <= Scale(n, b)
  {
    if n > 0 {
      ScaleMono(n - 1, a, b);
    }
  }

  lemma {:induction false} ScaleIsProduct(n: nat, x: real)
    ensures Scale(n, x) == (n as real) * x
  {
    if n > 0 {
      ScaleIsProduct(n - 1, x);
      RealMulSucc((n - 1) as real, x);
    }
  }

  lemma RealMulSucc(m: real, x: real)
    ensures (m + 1.0) * x == m * x + x
  {
  }

  /** The sum lies between n times the least and n times the greatest elevation. */
  lemma {:induction false} SumBounds(data: seq<DataPoint>)
    requires data != []
    ensures Scale(|data|, MinElevation(data)) <= SumElevation(data) <= Scale(|data|, MaxElevation(data))
    decreases |data|
  {
    var rest := data[1..];
    assert SumElevation(data) == data[0].elevation + SumElevation(rest);
    if rest != [] {
      SumBounds(rest);
      ScaleMono(|rest|, MinElevation(data), MinElevation(rest));
      ScaleMono(|rest|, MaxElevation(rest), MaxElevation(data));
    }
  }

  /** A mean taken from a sum between n·min and n·max lies between min and max. */
  lemma AverageBetween(lo: real, hi: real, sum: real, n: nat, avg: real)
    requires n > 0 && Scale(n, lo) <= sum <= Scale(n, hi)
    requires avg == sum / (n as real)
    ensures lo <= avg <= hi
  {
    var m := n as real;
    ScaleIsProduct(n, lo);
    ScaleIsProduct(n, hi);
    assert avg * m == sum;
    RealMulMono(m, lo, avg);
  }

  lemma RealMulMono(m: real, a: real, b: real)
    requires m >= 0.0 && a <= b
    ensures m * a <= m * b
  {
    assert m * b - m * a == m * (b - a);
  }
}
