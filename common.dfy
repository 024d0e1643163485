/** Values shared by the backend (server.py) and the frontend modules. */
module Common {

  datatype Option<+T> = None | Some(value: T)

  /** One sample of a pass as the backend sends it to the frontend: time (seconds),
      true azimuth and elevation in degrees, and the backend's visibility flag. */
  datatype TrajectoryPoint = TrajectoryPoint(time: int, azimuth: real, elevation: real, visible: bool)

  /** Samples in strictly increasing time order. */
  predicate TimeOrdered(ps: seq<TrajectoryPoint>)
  {
    forall i, j :: 0 <= i < j < |ps| ==> ps[i].time < ps[j].time
  }

  /** The samples after the first stay ordered, and all come after the first. */
  lemma TimeOrderedTail(ps: seq<TrajectoryPoint>)
    requires TimeOrdered(ps) && ps != []
    ensures TimeOrdered(ps[1..])
    ensures forall q :: q in ps[1..] ==> ps[0].time < q.time
  {
    var tail := ps[1..];
    forall i, j | 0 <= i < j < |tail| ensures tail[i].time < tail[j].time {
      assert tail[i] == ps[i + 1] && tail[j] == ps[j + 1];
    }
  }

  /** A sample earlier than every sample of an ordered run can be put in front of it. */
  lemma TimeOrderedCons(p: TrajectoryPoint, rest: seq<TrajectoryPoint>)
    requires TimeOrdered(rest)
    requires forall q :: q in rest ==> p.time < q.time
    ensures TimeOrdered([p] + rest)
  {
    var r := [p] + rest;
    forall i, j | 0 <= i < j < |r| ensures r[i].time < r[j].time {
      assert r[j] == rest[j - 1] && r[j] in rest;
      if i > 0 {
        assert r[i] == rest[i - 1];
      }
    }
  }

  /** The samples whose visibility flag is set, in order: the backend's list comprehension
      and the frontend's `filter(p => p.visible)`. */
  function VisibleOf(ps: seq<TrajectoryPoint>): (r: seq<TrajectoryPoint>)
    ensures |r| <= |ps|
  {
    if ps == [] then []
    else (if ps[0].visible then [ps[0]] else []) + VisibleOf(ps[1..])
  }

  /** The filter keeps exactly the visible samples. */
  lemma {:induction false} VisibleOfMembers(ps: seq<TrajectoryPoint>)
    ensures forall p :: p in VisibleOf(ps) <==> p in ps && p.visible
  {
    if ps != [] {
      VisibleOfMembers(ps[1..]);
      assert forall p :: p in ps <==> p == ps[0] || p in ps[1..];
    }
  }

  /** The filter keeps time order. */
  lemma {:induction false} VisibleOfSorted(ps: seq<TrajectoryPoint>)
    requires TimeOrdered(ps)
    ensures TimeOrdered(VisibleOf(ps))
  {
    if ps != [] {
      var tail := ps[1..];
      TimeOrderedTail(ps);
      VisibleOfSorted(tail);
      VisibleOfMembers(tail);
      var rest := VisibleOf(tail);
      if ps[0].visible {
        assert VisibleOf(ps) == [ps[0]] + rest;
        TimeOrderedCons(ps[0], rest);
      } else {
        assert VisibleOf(ps) == rest;
      }
    }
  }

  /** Filtering a run extended by one sample extends the filtered run by that sample
      exactly when it is visible. */
  lemma {:induction false} VisibleOfSnoc(ps: seq<TrajectoryPoint>, p: TrajectoryPoint)
    ensures VisibleOf(ps + [p]) == VisibleOf(ps) + (if p.visible then [p] else [])
  {
    if ps == [] {
      assert ps + [p] == [p];
    } else {
      var head := if ps[0].visible then [ps[0]] else [];
      assert (ps + [p])[0] == ps[0] && (ps + [p])[1..] == ps[1..] + [p];
      assert VisibleOf(ps + [p]) == head + VisibleOf(ps[1..] + [p]);
      VisibleOfSnoc(ps[1..], p);
      assert VisibleOf(ps) == head + VisibleOf(ps[1..]);
    }
  }

  /** Appends `x` to a history that holds at most `cap` entries, dropping the oldest
      entry once when the append overflows (JavaScript push followed by a guarded shift). */
  function PushBounded<T>(s: seq<T>, x: T, cap: nat): (r: seq<T>)
    requires 0 < cap && |s| <= cap
    ensures 0 < |r| <= cap && r[|r| - 1] == x
    ensures |s| < cap ==> r == s + [x]
    ensures |s| == cap ==> r == s[1..] + [x]
  {
    var t := s + [x];
    if |t| > cap then t[1..] else t
  }

  function Min(a: real, b: real): real { if a <= b then a else b }
  function Max(a: real, b: real): real { if a >= b then a else b }

  /** Python's max(lo, min(hi, x)). */
  function Clamp(lo: real, hi: real, x: real): (r: real)
    requires lo <= hi
    ensures lo <= r <= hi
    ensures lo <= x <= hi ==> r == x
    ensures x < lo ==> r == lo
    ensures x > hi ==> r == hi
  {
    Max(lo, Min(hi, x))
  }

  // Multiplication by a natural number, one step at a time (the solver's nonlinear
  // arithmetic is kept out of the larger proofs).

  lemma MulSucc(a: nat, c: nat)
    ensures (a + 1) * c == a * c + c
  {
  }

  lemma {:induction false} MulMono(a: nat, b: nat, c: nat)
    requires a <= b
    ensures a * c <= b * c
    decreases b - a
  {
    if a < b {
      MulMono(a, b - 1, c);
      MulSucc(b - 1, c);
    }
  }

  lemma MulCancel(a: nat, b: nat, c: nat)
    requires c > 0 && a * c < b * c
    ensures a < b
  {
    if b <= a {
      MulMono(b, a, c);
    }
  }
}
