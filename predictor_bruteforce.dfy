/**
 * The two-frame brute-force trajectory predictor: it keeps the two newest
 * sets of observed contours, pairs every newest observation with every older
 * one, drops pairs that would need an implausible speed, and extrapolates the
 * rest linearly to a window of future positions.
 */
module PredictorBruteforce {
  import opened Wrappers
  import opened Vision

  const MicrosPerSecond: int := 1000000
  /** Depth of the observation-set queue. */
  const Depth: nat := 2
  /** Default prediction horizon, milliseconds. */
  const DefaultFuture: real := 60.0
  /** Default relative timing error (+/- 30%). */
  const DefaultTimingError: real := 0.3

  /** One contour that passed the area filter, with its centre and area. */
  datatype Observation = Observation(contour: Contour, center: Point, area: real)

  /** The survivors of one frame, stamped with its capture time in microseconds. */
  datatype ContourSet = ContourSet(time: int, contours: seq<Observation>)

  /**
   * One accepted pairing. As in the program, `past` holds the centre from the
   * NEWEST set and `present` the centre (and `presentArea` the area) from the
   * OLDER set.
   */
  datatype Line = Line(past: Point, present: Point, presentArea: real, futureMin: Point, futureMax: Point)

  datatype PredictError = ZeroDivision

  /** The foreign area and moments computations. */
  datatype Backend = Backend(contourArea: Contour -> real, moments: Contour -> Moments)

  /**
   * `timedelta.microseconds` of a difference of `d` microseconds: only the
   * sub-second component, normalised into [0, 10^6) even for a negative `d`.
   */
  function SubSecondMicros(d: int): (r: int)
    ensures 0 <= r < MicrosPerSecond
    ensures 0 <= d < MicrosPerSecond ==> r == d
  {
    d % MicrosPerSecond
  }

  /** Whole seconds of a time difference are lost. */
  lemma WholeSecondsAreDropped(d: int, seconds: int)
    ensures SubSecondMicros(d + seconds * MicrosPerSecond) == SubSecondMicros(d)
  {
  }

  /** Centre of mass from the moments; `None` where the program divides by a zero `m00`. */
  function CenterOfMass(m: Moments): (r: Option<Point>)
    ensures r.None? <==> m.m00 == 0.0
  {
    if m.m00 == 0.0 then None else Some(Point(Trunc(m.m10 / m.m00), Trunc(m.m01 / m.m00)))
  }

  predicate OutOfRange(area: real, minArea: real, maxArea: real) {
    area < minArea || area > maxArea
  }

  /**
   * The filtering loop over the first `k` contours: the in-range ones with
   * their centre and area, in their original order, or `None` when an
   * in-range contour has a zero `m00`.
   */
  function Observe(cs: seq<Contour>, k: nat, backend: Backend, minArea: real, maxArea: real): Option<seq<Observation>>
    requires k <= |cs|
  {
    if k == 0 then Some([])
    else
      match Observe(cs, k - 1, backend, minArea, maxArea)
      case None => None
      case Some(obs) =>
        var c := cs[k - 1];
        if OutOfRange(backend.contourArea(c), minArea, maxArea) then Some(obs)
        else
          match CenterOfMass(backend.moments(c))
          case None => None
          case Some(p) => Some(obs + [Observation(c, p, backend.contourArea(c))])
  }

  /** The in-range contours among the first `k`, in order. */
  function InRange(cs: seq<Contour>, k: nat, backend: Backend, minArea: real, maxArea: real): seq<Contour>
    requires k <= |cs|
  {
    if k == 0 then []
    else
      var rest := InRange(cs, k - 1, backend, minArea, maxArea);
      if OutOfRange(backend.contourArea(cs[k - 1]), minArea, maxArea) then rest else rest + [cs[k - 1]]
  }

  function ContoursOf(obs: seq<Observation>): (r: seq<Contour>)
    ensures |r| == |obs|
    ensures forall k :: 0 <= k < |r| ==> r[k] == obs[k].contour
  {
    seq(|obs|, k requires 0 <= k < |obs| => obs[k].contour)
  }

  /** A contour is kept exactly when it lies in the area bounds. */
  lemma {:induction false} InRangeMembership(cs: seq<Contour>, k: nat, backend: Backend, minArea: real, maxArea: real, c: Contour)
    requires k <= |cs|
    ensures c in InRange(cs, k, backend, minArea, maxArea) <==>
              (c in cs[..k] && minArea <= backend.contourArea(c) <= maxArea)
  {
    if k > 0 {
      InRangeMembership(cs, k - 1, backend, minArea, maxArea, c);
      assert cs[..k] == cs[..k - 1] + [cs[k - 1]];
    }
  }

  /**
   * When the loop succeeds, its observations are the in-range contours in
   * their original order, each with its own area, which lies in the bounds.
   */
  lemma {:induction false} ObserveKeepsInRange(cs: seq<Contour>, k: nat, backend: Backend, minArea: real, maxArea: real)
    requires k <= |cs|
    requires Observe(cs, k, backend, minArea, maxArea).Some?
    ensures var obs := Observe(cs, k, backend, minArea, maxArea).value;
            && ContoursOf(obs) == InRange(cs, k, backend, minArea, maxArea)
            && forall o :: o in obs ==> o.area == backend.contourArea(o.contour) && minArea <= o.area <= maxArea
  {
    if k > 0 {
      ObserveKeepsInRange(cs, k - 1, backend, minArea, maxArea);
      var prev := Observe(cs, k - 1, backend, minArea, maxArea).value;
      var obs := Observe(cs, k, backend, minArea, maxArea).value;
      if !OutOfRange(backend.contourArea(cs[k - 1]), minArea, maxArea) {
        assert ContoursOf(obs) == ContoursOf(prev) + [cs[k - 1]];
      }
    }
  }

  /** The loop fails exactly when some in-range contour among the first `k` has a zero `m00`. */
  lemma {:induction false} ObserveFailsIff(cs: seq<Contour>, k: nat, backend: Backend, minArea: real, maxArea: real)
    requires k <= |cs|
    ensures Observe(cs, k, backend, minArea, maxArea).None? <==>
              exists j :: 0 <= j < k && !OutOfRange(backend.contourArea(cs[j]), minArea, maxArea)
                                     && backend.moments(cs[j]).m00 == 0.0
  {
    if k > 0 {
      ObserveFailsIff(cs, k - 1, backend, minArea, maxArea);
    }
  }

  /** Once the loop has failed, it stays failed. */
  lemma {:induction false} ObserveFailureSticks(cs: seq<Contour>, k: nat, j: nat, backend: Backend, minArea: real, maxArea: real)
    requires k <= j <= |cs|
    requires Observe(cs, k, backend, minArea, maxArea).None?
    ensures Observe(cs, j, backend, minArea, maxArea).None?
    decreases j - k
  {
    if k < j {
      ObserveFailureSticks(cs, k + 1, j, backend, minArea, maxArea);
    }
  }

  /** `insert(0, s)` followed by one `pop()` when more than two sets are held. */
  function PushSet(sets: seq<ContourSet>, s: ContourSet): seq<ContourSet> {
    var all := [s] + sets;
    if |all| > Depth then all[..|all| - 1] else all
  }

  /** From a queue of depth at most two, pushing keeps the new set first and the previous newest second. */
  lemma PushSetSpec(sets: seq<ContourSet>, s: ContourSet)
    requires |sets| <= Depth
    ensures var r := PushSet(sets, s);
            && |r| <= Depth && r[0] == s
            && (|sets| > 0 ==> |r| == 2 && r[1] == sets[0])
            && (|sets| == 0 ==> r == [s])
  {
  }

  function PushAll(sets: seq<ContourSet>, ss: seq<ContourSet>): seq<ContourSet>
    decreases |ss|
  {
    if ss == [] then sets else PushSet(PushAll(sets, ss[..|ss| - 1]), ss[|ss| - 1])
  }

  /** However many sets were pushed, only the two newest remain, newest first. */
  lemma {:induction false} PushAllKeepsNewestTwo(sets: seq<ContourSet>, ss: seq<ContourSet>)
    requires |sets| <= Depth
    ensures |PushAll(sets, ss)| <= Depth
    ensures |ss| >= 2 ==> PushAll(sets, ss) == [ss[|ss| - 1], ss[|ss| - 2]]
    ensures |ss| == 1 ==> PushAll(sets, ss)[0] == ss[0]
    decreases |ss|
  {
    if ss != [] {
      var init := ss[..|ss| - 1];
      PushAllKeepsNewestTwo(sets, init);
      if |ss| >= 2 {
        assert init[|init| - 1] == ss[|ss| - 2];
        assert |PushAll(sets, init)| >= 1;
      }
    }
  }

  function SquaredDistance(p: Point, q: Point): int {
    (p.x - q.x) * (p.x - q.x) + (p.y - q.y) * (p.y - q.y)
  }

  /**
   * The speed ceiling test `distance / millis > maxSpeed`, stated without a
   * square root: a negative ceiling rejects every pair.
   */
  predicate TooFast(past: Point, present: Point, millis: real, maxSpeed: real)
    requires millis > 0.0
  {
    maxSpeed < 0.0 || SquaredDistance(past, present) as real > (maxSpeed * millis) * (maxSpeed * millis)
  }

  lemma SquareMonotone(a: real, b: real)
    requires 0.0 <= a && 0.0 <= b
    ensures a > b <==> a * a > b * b
  {
    assert a * a - b * b == (a - b) * (a + b);
    if a > b {
      assert a - b > 0.0 && a + b > 0.0;
      assert (a - b) * (a + b) > 0.0;
    } else {
      assert b - a >= 0.0 && a + b >= 0.0;
      assert (b - a) * (a + b) >= 0.0;
    }
  }

  /** For any square root of the squared distance, the test is the program's speed comparison. */
  lemma TooFastIsSpeedAboveCeiling(past: Point, present: Point, millis: real, maxSpeed: real, distance: real)
    requires millis > 0.0 && distance >= 0.0
    requires distance * distance == SquaredDistance(past, present) as real
    ensures TooFast(past, present, millis, maxSpeed) <==> distance / millis > maxSpeed
  {
    var speed := distance / millis;
    assert speed * millis == distance;
    assert speed >= 0.0;
    if maxSpeed >= 0.0 {
      SquareMonotone(distance, maxSpeed * millis);
      assert speed > maxSpeed <==> speed * millis > maxSpeed * millis;
    }
  }

  /** The speed ceiling example: 1000 px in 10 ms is 100 px/ms, rejected below that ceiling. */
  lemma FastJumpRejected(maxSpeed: real)
    requires maxSpeed < 100.0
    ensures TooFast(Point(0, 0), Point(1000, 0), 10.0, maxSpeed)
  {
    if maxSpeed >= 0.0 {
      assert maxSpeed * 10.0 < 1000.0;
      SquareMonotone(1000.0, maxSpeed * 10.0);
    }
  }

  /** Linear extrapolation of one coordinate `futureMs` milliseconds ahead, truncated toward zero. */
  function GetFuture(past: int, present: int, deltaMicros: int, futureMs: real): int
    requires deltaMicros != 0
  {
    var speed := (present - past) as real / deltaMicros as real;
    Trunc(present as real + speed * futureMs * 1000.0)
  }

  /** An object at rest stays where it is, whatever the horizon. */
  lemma GetFutureAtRest(p: int, deltaMicros: int, futureMs: real)
    requires deltaMicros != 0
    ensures GetFuture(p, p, deltaMicros, futureMs) == p
  {
    TruncOfInt(p);
  }

  /** Moving from 0 to 10 in 100 ms, the position 60 ms later is 16. */
  lemma GetFutureExample()
    ensures GetFuture(0, 10, 100000, 60.0) == 16
  {
    TruncOfInt(16);
  }

  /** With time running forward, a longer horizon predicts a point no nearer along the direction of motion. */
  lemma GetFutureMonotoneInHorizon(past: int, present: int, deltaMicros: int, f1: real, f2: real)
    requires deltaMicros > 0 && f1 <= f2
    ensures past <= present ==> GetFuture(past, present, deltaMicros, f1) <= GetFuture(past, present, deltaMicros, f2)
    ensures present <= past ==> GetFuture(past, present, deltaMicros, f2) <= GetFuture(past, present, deltaMicros, f1)
  {
    if past <= present {
      HorizonForward(past, present, deltaMicros, f1, f2);
    }
    if present <= past {
      HorizonBackward(past, present, deltaMicros, f1, f2);
    }
  }

  lemma HorizonForward(past: int, present: int, deltaMicros: int, f1: real, f2: real)
    requires deltaMicros > 0 && past <= present && f1 <= f2
    ensures GetFuture(past, present, deltaMicros, f1) <= GetFuture(past, present, deltaMicros, f2)
  {
    var speed := (present - past) as real / deltaMicros as real;
    assert speed >= 0.0;
    assert speed * f1 <= speed * f2;
    TruncMonotone(present as real + speed * f1 * 1000.0, present as real + speed * f2 * 1000.0);
  }

  lemma HorizonBackward(past: int, present: int, deltaMicros: int, f1: real, f2: real)
    requires deltaMicros > 0 && present <= past && f1 <= f2
    ensures GetFuture(past, present, deltaMicros, f2) <= GetFuture(past, present, deltaMicros, f1)
  {
    var speed := (present - past) as real / deltaMicros as real;
    assert speed <= 0.0;
    assert speed * f2 <= speed * f1;
    TruncMonotone(present as real + speed * f2 * 1000.0, present as real + speed * f1 * 1000.0);
  }

  /** Parameters shared by every pairing in one prediction. */
  datatype LineConfig = LineConfig(deltaMicros: int, future: real, timingError: real, maxSpeed: real)
  {
    /** `future * (1 - timing_error)` milliseconds. */
    function EarliestHorizon(): real { future * (1.0 - timingError) }

    /** `future * (1 + timing_error)` milliseconds. */
    function LatestHorizon(): real { future * (1.0 + timingError) }
  }

  function FutureAt(newer: Observation, older: Observation, cfg: LineConfig, futureMs: real): Point
    requires cfg.deltaMicros != 0
  {
    Point(GetFuture(older.center.x, newer.center.x, cfg.deltaMicros, futureMs),
          GetFuture(older.center.y, newer.center.y, cfg.deltaMicros, futureMs))
  }

  /** The speed test of one pair, with `delta / 1000.0` as the elapsed milliseconds. */
  predicate PairTooFast(newer: Observation, older: Observation, cfg: LineConfig)
    requires cfg.deltaMicros > 0
  {
    TooFast(older.center, newer.center, cfg.deltaMicros as real / 1000.0, cfg.maxSpeed)
  }

  /** The line for one (newest, older) pair, or `None` when the pair is too fast. */
  function PairLine(newer: Observation, older: Observation, cfg: LineConfig): (r: Option<Line>)
    requires cfg.deltaMicros > 0
  {
    if PairTooFast(newer, older, cfg) then None
    else
      Some(Line(newer.center, older.center, older.area,
                FutureAt(newer, older, cfg, cfg.EarliestHorizon()),
                FutureAt(newer, older, cfg, cfg.LatestHorizon())))
  }

  /** A pair is emitted iff it is under the ceiling; labels and area come from the sets as the program swaps them. */
  lemma PairLineSpec(newer: Observation, older: Observation, cfg: LineConfig)
    requires cfg.deltaMicros > 0
    ensures var r := PairLine(newer, older, cfg);
            && (r.Some? <==> !TooFast(older.center, newer.center, cfg.deltaMicros as real / 1000.0, cfg.maxSpeed))
            && (r.Some? ==> r.value.past == newer.center && r.value.present == older.center
                            && r.value.presentArea == older.area)
  {
  }

  /** With no timing error the future window is a single point. */
  lemma ZeroTimingErrorCollapses(newer: Observation, older: Observation, cfg: LineConfig)
    requires cfg.deltaMicros > 0 && cfg.timingError == 0.0
    requires PairLine(newer, older, cfg).Some?
    ensures PairLine(newer, older, cfg).value.futureMin == PairLine(newer, older, cfg).value.futureMax
  {
  }

  function OptionToSeq<T>(o: Option<T>): seq<T> {
    match o
    case None => []
    case Some(v) => [v]
  }

  /** Lines of `newer` against the first `m` older observations. */
  function RowLines(newer: Observation, older: seq<Observation>, m: nat, cfg: LineConfig): seq<Line>
    requires m <= |older| && (m == 0 || cfg.deltaMicros > 0)
  {
    if m == 0 then [] else RowLines(newer, older, m - 1, cfg) + OptionToSeq(PairLine(newer, older[m - 1], cfg))
  }

  /** Lines of the first `k` newest observations against every older one (the nested loops). */
  function GridLines(newer: seq<Observation>, older: seq<Observation>, k: nat, cfg: LineConfig): seq<Line>
    requires k <= |newer| && (k == 0 || |older| == 0 || cfg.deltaMicros > 0)
  {
    if k == 0 then [] else GridLines(newer, older, k - 1, cfg) + RowLines(newer[k - 1], older, |older|, cfg)
  }

  /** The index pairs (newest, older) that pass the speed ceiling, in loop order: a reference for `GridLines`. */
  function RowPairs(a: nat, newer: seq<Observation>, older: seq<Observation>, m: nat, cfg: LineConfig): seq<(nat, nat)>
    requires a < |newer| && m <= |older| && (m == 0 || cfg.deltaMicros > 0)
  {
    if m == 0 then []
    else RowPairs(a, newer, older, m - 1, cfg) + (if PairLine(newer[a], older[m - 1], cfg).Some? then [(a, m - 1)] else [])
  }

  function GridPairs(newer: seq<Observation>, older: seq<Observation>, k: nat, cfg: LineConfig): seq<(nat, nat)>
    requires k <= |newer| && (k == 0 || |older| == 0 || cfg.deltaMicros > 0)
  {
    if k == 0 then [] else GridPairs(newer, older, k - 1, cfg) + RowPairs(k - 1, newer, older, |older|, cfg)
  }

  predicate LexLess(p: (nat, nat), q: (nat, nat)) {
    p.0 < q.0 || (p.0 == q.0 && p.1 < q.1)
  }

  /** The i-th line is the line of the i-th accepted pair. */
  ghost predicate LinesMatchPairs(newer: seq<Observation>, older: seq<Observation>, cfg: LineConfig,
                                  lines: seq<Line>, pairs: seq<(nat, nat)>)
    requires cfg.deltaMicros > 0
  {
    && |lines| == |pairs|
    && forall i :: 0 <= i < |pairs| ==>
         pairs[i].0 < |newer| && pairs[i].1 < |older|
         && PairLine(newer[pairs[i].0], older[pairs[i].1], cfg) == Some(lines[i])
  }

  lemma {:induction false} RowPairsShape(a: nat, newer: seq<Observation>, older: seq<Observation>, m: nat, cfg: LineConfig)
    requires a < |newer| && m <= |older| && cfg.deltaMicros > 0
    ensures forall p :: p in RowPairs(a, newer, older, m, cfg) ==> p.0 == a && p.1 < m
    ensures forall i, j :: 0 <= i < j < |RowPairs(a, newer, older, m, cfg)| ==>
              RowPairs(a, newer, older, m, cfg)[i].1 < RowPairs(a, newer, older, m, cfg)[j].1
    ensures forall b :: 0 <= b < m ==>
              ((a, b) in RowPairs(a, newer, older, m, cfg) <==> PairLine(newer[a], older[b], cfg).Some?)
  {
    if m > 0 {
      RowPairsShape(a, newer, older, m - 1, cfg);
    }
  }

  lemma {:induction false} RowLinesMatchPairs(a: nat, newer: seq<Observation>, older: seq<Observation>, m: nat, cfg: LineConfig)
    requires a < |newer| && m <= |older| && cfg.deltaMicros > 0
    ensures LinesMatchPairs(newer, older, cfg, RowLines(newer[a], older, m, cfg), RowPairs(a, newer, older, m, cfg))
  {
    if m > 0 {
      RowLinesMatchPairs(a, newer, older, m - 1, cfg);
    }
  }

  /** Pairs of the first `k` newest observations: indices in range, in (newest, older) order. */
  lemma {:induction false} GridPairsOrdered(newer: seq<Observation>, older: seq<Observation>, k: nat, cfg: LineConfig)
    requires k <= |newer| && cfg.deltaMicros > 0
    ensures forall p :: p in GridPairs(newer, older, k, cfg) ==> p.0 < k && p.1 < |older|
    ensures forall i, j :: 0 <= i < j < |GridPairs(newer, older, k, cfg)| ==>
              LexLess(GridPairs(newer, older, k, cfg)[i], GridPairs(newer, older, k, cfg)[j])
  {
    if k > 0 {
      GridPairsOrdered(newer, older, k - 1, cfg);
      RowPairsShape(k - 1, newer, older, |older|, cfg);
      var prev := GridPairs(newer, older, k - 1, cfg);
      var row := RowPairs(k - 1, newer, older, |older|, cfg);
      var all := GridPairs(newer, older, k, cfg);
      assert all == prev + row;
      forall i, j | 0 <= i < j < |all|
        ensures LexLess(all[i], all[j])
      {
        if j < |prev| {
          assert all[i] == prev[i] && all[j] == prev[j];
        } else if i < |prev| {
          assert all[i] == prev[i] && prev[i] in prev;
          assert all[j] == row[j - |prev|] && row[j - |prev|] in row;
        } else {
          assert all[i] == row[i - |prev|] && all[j] == row[j - |prev|];
          assert row[i - |prev|] in row;
        }
      }
    }
  }

  /** Every pair under the speed ceiling is among the pairs, and no other. */
  lemma {:induction false} GridPairsComplete(newer: seq<Observation>, older: seq<Observation>, k: nat, cfg: LineConfig)
    requires k <= |newer| && cfg.deltaMicros > 0
    ensures forall a, b :: 0 <= a < k && 0 <= b < |older| ==>
              ((a, b) in GridPairs(newer, older, k, cfg) <==> PairLine(newer[a], older[b], cfg).Some?)
  {
    if k > 0 {
      GridPairsComplete(newer, older, k - 1, cfg);
      GridPairsOrdered(newer, older, k - 1, cfg);
      RowPairsShape(k - 1, newer, older, |older|, cfg);
      var prev := GridPairs(newer, older, k - 1, cfg);
      var row := RowPairs(k - 1, newer, older, |older|, cfg);
      assert GridPairs(newer, older, k, cfg) == prev + row;
      forall a, b | 0 <= a < k && 0 <= b < |older|
        ensures (a, b) in prev + row <==> PairLine(newer[a], older[b], cfg).Some?
      {
        if a < k - 1 {
          assert (a, b) !in row;
        } else {
          assert (a, b) !in prev;
        }
      }
    }
  }

  /** The i-th line is the line of the i-th accepted pair. */
  lemma {:induction false} GridLinesMatchPairs(newer: seq<Observation>, older: seq<Observation>, k: nat, cfg: LineConfig)
    requires k <= |newer| && cfg.deltaMicros > 0
    ensures LinesMatchPairs(newer, older, cfg, GridLines(newer, older, k, cfg), GridPairs(newer, older, k, cfg))
  {
    if k > 0 {
      GridLinesMatchPairs(newer, older, k - 1, cfg);
      RowLinesMatchPairs(k - 1, newer, older, |older|, cfg);
      var prev := GridPairs(newer, older, k - 1, cfg);
      var row := RowPairs(k - 1, newer, older, |older|, cfg);
      var prevLines := GridLines(newer, older, k - 1, cfg);
      var rowLines := RowLines(newer[k - 1], older, |older|, cfg);
      LinesMatchAppend(newer, older, cfg, prevLines, prev, rowLines, row);
    }
  }

  lemma LinesMatchAppend(newer: seq<Observation>, older: seq<Observation>, cfg: LineConfig,
                         lines1: seq<Line>, pairs1: seq<(nat, nat)>, lines2: seq<Line>, pairs2: seq<(nat, nat)>)
    requires cfg.deltaMicros > 0
    requires LinesMatchPairs(newer, older, cfg, lines1, pairs1)
    requires LinesMatchPairs(newer, older, cfg, lines2, pairs2)
    ensures LinesMatchPairs(newer, older, cfg, lines1 + lines2, pairs1 + pairs2)
  {
    var lines, pairs := lines1 + lines2, pairs1 + pairs2;
    forall i | 0 <= i < |pairs|
      ensures pairs[i].0 < |newer| && pairs[i].1 < |older|
              && PairLine(newer[pairs[i].0], older[pairs[i].1], cfg) == Some(lines[i])
    {
      if i < |pairs1| {
        assert pairs[i] == pairs1[i] && lines[i] == lines1[i];
      } else {
        assert pairs[i] == pairs2[i - |pairs1|] && lines[i] == lines2[i - |lines1|];
      }
    }
  }

  lemma {:induction false} RowLinesBound(newer: Observation, older: seq<Observation>, m: nat, cfg: LineConfig)
    requires m <= |older| && (m == 0 || cfg.deltaMicros > 0)
    ensures |RowLines(newer, older, m, cfg)| <= m
  {
    if m > 0 {
      RowLinesBound(newer, older, m - 1, cfg);
    }
  }

  /** There are never more lines than pairs. */
  lemma {:induction false} GridLinesBound(newer: seq<Observation>, older: seq<Observation>, k: nat, cfg: LineConfig)
    requires k <= |newer| && (k == 0 || |older| == 0 || cfg.deltaMicros > 0)
    ensures |GridLines(newer, older, k, cfg)| <= k * |older|
  {
    if k > 0 {
      GridLinesBound(newer, older, k - 1, cfg);
      RowLinesBound(newer[k - 1], older, |older|, cfg);
      assert k * |older| == (k - 1) * |older| + |older|;
    }
  }

  /**
   * What `get_lines` returns for a queue of sets: nothing with fewer than two
   * sets; a division by zero when the sub-second time difference is zero and
   * there is a pair to test; otherwise the lines of every accepted pair.
   */
  function Lines(sets: seq<ContourSet>, future: real, timingError: real, maxSpeed: real): Result<seq<Line>, PredictError> {
    if |sets| < 2 then Ok([])
    else
      var newer, older := sets[0].contours, sets[1].contours;
      var cfg := LineConfig(SubSecondMicros(sets[0].time - sets[1].time), future, timingError, maxSpeed);
      if |newer| > 0 && |older| > 0 && cfg.deltaMicros == 0 then Err(ZeroDivision)
      else Ok(GridLines(newer, older, |newer|, cfg))
  }

  /** Fewer than two sets: an empty result, not an error. */
  lemma LinesNeedTwoSets(sets: seq<ContourSet>, future: real, timingError: real, maxSpeed: real)
    requires |sets| < 2
    ensures Lines(sets, future, timingError, maxSpeed) == Ok([])
  {
  }

  /** Two non-empty sets captured a whole number of seconds apart, in either order, make the program divide by zero. */
  lemma WholeSecondApartFails(sets: seq<ContourSet>, seconds: int, future: real, timingError: real, maxSpeed: real)
    requires |sets| == 2 && sets[0].time == sets[1].time + seconds * MicrosPerSecond
    requires |sets[0].contours| > 0 && |sets[1].contours| > 0
    ensures Lines(sets, future, timingError, maxSpeed) == Err(ZeroDivision)
  {
    WholeSecondsAreDropped(0, seconds);
  }

  /**
   * The full characterisation of a successful prediction: at most one line
   * per pair, each line the line of an accepted pair, pairs in
   * (newest index, older index) order, and every pair under the ceiling present.
   */
  lemma LinesSpec(sets: seq<ContourSet>, future: real, timingError: real, maxSpeed: real)
    requires |sets| >= 2 && Lines(sets, future, timingError, maxSpeed).Ok?
    ensures var lines := Lines(sets, future, timingError, maxSpeed).value;
            var newer, older := sets[0].contours, sets[1].contours;
            var cfg := LineConfig(SubSecondMicros(sets[0].time - sets[1].time), future, timingError, maxSpeed);
            && |lines| <= |newer| * |older|
            && (|lines| > 0 ==> cfg.deltaMicros > 0)
            && (cfg.deltaMicros > 0 ==>
                  var pairs := GridPairs(newer, older, |newer|, cfg);
                  && LinesMatchPairs(newer, older, cfg, lines, pairs)
                  && (forall i, j :: 0 <= i < j < |pairs| ==> LexLess(pairs[i], pairs[j]))
                  && (forall a, b :: 0 <= a < |newer| && 0 <= b < |older| ==>
                        ((a, b) in pairs <==> PairLine(newer[a], older[b], cfg).Some?)))
  {
    var newer, older := sets[0].contours, sets[1].contours;
    var cfg := LineConfig(SubSecondMicros(sets[0].time - sets[1].time), future, timingError, maxSpeed);
    GridLinesBound(newer, older, |newer|, cfg);
    if cfg.deltaMicros > 0 {
      GridLinesMatchPairs(newer, older, |newer|, cfg);
      GridPairsOrdered(newer, older, |newer|, cfg);
      GridPairsComplete(newer, older, |newer|, cfg);
    } else if |newer| > 0 {
      assert |older| == 0;
      assert |newer| * |older| == 0;
    }
  }

  class Bruteforce {
    const minArea: real
    const maxArea: real
    const maxSpeed: real
    var contourSets: seq<ContourSet>

    /** At most two sets are held, and every stored observation is within the area bounds. */
    ghost predicate Valid()
      reads this
    {
      && |contourSets| <= Depth
      && forall s, o :: s in contourSets && o in s.contours ==> minArea <= o.area <= maxArea
    }

    constructor (minArea: real, maxArea: real, maxSpeed: real)
      ensures Valid() && contourSets == []
      ensures this.minArea == minArea && this.maxArea == maxArea && this.maxSpeed == maxSpeed
    {
      this.minArea := minArea;
      this.maxArea := maxArea;
      this.maxSpeed := maxSpeed;
      contourSets := [];
    }

    /**
     * Filter `contours` to the area bounds, compute each survivor's centre
     * and push the new set in front, keeping two. `ok` is false where the
     * program raises on a zero `m00`; the queue is then untouched.
     */
    method AddContours(contours: seq<Contour>, time: int, backend: Backend) returns (ok: bool)
      requires Valid()
      modifies this
      ensures Valid()
      ensures ok <==> Observe(contours, |contours|, backend, minArea, maxArea).Some?
      ensures ok ==> contourSets == PushSet(old(contourSets),
                                            ContourSet(time, Observe(contours, |contours|, backend, minArea, maxArea).value))
      ensures !ok ==> contourSets == old(contourSets)
    {
      var filtered: seq<Observation> := [];
      for k := 0 to |contours|
        invariant Observe(contours, k, backend, minArea, maxArea) == Some(filtered)
      {
        var c := contours[k];
        if backend.contourArea(c) < minArea || backend.contourArea(c) > maxArea {
          continue;
        }
        var center := CenterOfMass(backend.moments(c));
        if center.None? {
          ObserveFailureSticks(contours, k + 1, |contours|, backend, minArea, maxArea);
          return false;
        }
        filtered := filtered + [Observation(c, center.value, backend.contourArea(c))];
      }
      ObserveKeepsInRange(contours, |contours|, backend, minArea, maxArea);
      contourSets := [ContourSet(time, filtered)] + contourSets;
      if |contourSets| > Depth {
        contourSets := contourSets[..|contourSets| - 1];
      }
      ok := true;
    }

    /** The nested pairing loops of `get_lines`. */
    method GetLines(future: real := DefaultFuture, timingError: real := DefaultTimingError) returns (r: Result<seq<Line>, PredictError>)
      ensures r == Lines(contourSets, future, timingError, maxSpeed)
    {
      if |contourSets| < 2 {
        return Ok([]);
      }
      var newer, older := contourSets[0].contours, contourSets[1].contours;
      var delta := SubSecondMicros(contourSets[0].time - contourSets[1].time);
      var cfg := LineConfig(delta, future, timingError, maxSpeed);
      var lines: seq<Line> := [];
      for a := 0 to |newer|
        invariant a == 0 || |older| == 0 || delta > 0
        invariant lines == GridLines(newer, older, a, cfg)
      {
        var row := RowOfLines(newer[a], older, cfg);
        if row.Err? {
          return Err(row.error);
        }
        lines := lines + row.value;
      }
      return Ok(lines);
    }
  }

  /** The inner loop of `get_lines`: one newest observation against every older one. */
  method RowOfLines(i: Observation, older: seq<Observation>, cfg: LineConfig) returns (r: Result<seq<Line>, PredictError>)
    requires cfg.deltaMicros >= 0
    ensures |older| > 0 && cfg.deltaMicros == 0 ==> r == Err(ZeroDivision)
    ensures |older| == 0 || cfg.deltaMicros > 0 ==> r == Ok(RowLines(i, older, |older|, cfg))
  {
    var delta := cfg.deltaMicros;
    var lines: seq<Line> := [];
    for b := 0 to |older|
      invariant b == 0 || delta > 0
      invariant lines == RowLines(i, older, b, cfg)
    {
      if delta == 0 {
        return Err(ZeroDivision);
      }
      var j := older[b];
      assert RowLines(i, older, b + 1, cfg) == lines + OptionToSeq(PairLine(i, j, cfg));
      if PairTooFast(i, j, cfg) {
        continue;
      }
      var line := Line(i.center, j.center, j.area, FutureAt(i, j, cfg, cfg.EarliestHorizon()), FutureAt(i, j, cfg, cfg.LatestHorizon()));
      assert PairLine(i, j, cfg) == Some(line);
      lines := lines + [line];
    }
    return Ok(lines);
  }
}
