/**
 * The CalcSuppr class of run.py: it sizes a honeycomb (hexagonal-aperture)
 * perforation pattern for a shielding panel, so that the panel's shielding
 * effectiveness at a given frequency lands just above a target, and reports
 * every candidate pattern the sweep accepts, ordered by open area.
 *
 * CalcSuppr never changes its fields after construction, so it is a value
 * here. getResults' mutable state (the results list and best_set) lives in
 * local variables of GetResults.
 */
module Run {
  import opened Numerics
  import opened Records

  /** Speed of light, m/s. */
  const LightSpeed: real := 299792458.0

  /** Width of the acceptance band above the target effectiveness, dB. */
  const Band: real := 0.3

  /** Exceptions the Python code raises. */
  datatype Fault =
    | ZeroDivisionError  // 299792458 / 0 for a zero frequency
    | NonFiniteRowCount  // int() of an inf or nan row count: a zero denominator in numAperture

  datatype Result<T> = Ok(value: T) | Err(fault: Fault)

  /** The dictionary numAperture returns. */
  datatype Evaluation = Evaluation(
    field: real,
    apertures: int,
    height: real,
    intervalX: real,
    intervalY: real,
    suppression: real,
    rowCounts: seq<int>)

  /** best_set, the dictionary {"Field": ..., "Aperatures": ...}. */
  datatype BestSet = BestSet(field: real, apertures: real)

  const InitialBest := BestSet(0.0, 0.0)

  /** The sweep state before the first candidate: the sentinel alone, best_set zero. */
  const Start: (seq<Record>, BestSet) := ([Sentinel], InitialBest)

  /** The acceptance gate on aperture count and open area. */
  predicate Gate(best: BestSet, x: Record) {
    x.apertures as real > best.apertures && x.field >= 0.01 * best.field
  }

  /**
   * best_set after accepting x: replaced only when x beats both stored
   * values, and then stored swapped, the count under "Field" and the open
   * area under "Aperatures", as run.py writes it.
   */
  function NextBest(best: BestSet, x: Record): BestSet {
    if x.apertures as real > best.apertures && x.field > best.field
    then BestSet(field := x.apertures as real, apertures := x.field)
    else best
  }

  /** best_set after the records of s have been appended, in order. */
  function BestAfter(s: seq<Record>): BestSet {
    if s == [] then InitialBest else NextBest(BestAfter(s[..|s| - 1]), s[|s| - 1])
  }

  /** Every record passed the gate against best_set as it stood when it was appended. */
  predicate GatesHeld(s: seq<Record>) {
    forall i :: 0 <= i < |s| ==> Gate(BestAfter(s[..i]), s[i])
  }

  /** The duplicate test against the last entry of the results list. */
  predicate Duplicate(last: Record, x: Record) {
    x.lineLength == last.lineLength && x.field == last.field
  }

  predicate NoAdjacentDuplicates(s: seq<Record>) {
    forall i :: 0 < i < |s| ==> !Duplicate(s[i - 1], s[i])
  }

  lemma NoAdjacentDuplicatesAppend(s: seq<Record>, x: Record)
    requires NoAdjacentDuplicates(s)
    requires s != [] ==> !Duplicate(s[|s| - 1], x)
    ensures NoAdjacentDuplicates(s + [x])
  {
    var t := s + [x];
    forall i | 0 < i < |t|
      ensures !Duplicate(t[i - 1], t[i])
    {
      if i < |s| {
        assert t[i - 1] == s[i - 1] && t[i] == s[i];
      }
    }
  }

  lemma NoAdjacentDuplicatesTail(s: seq<Record>)
    requires NoAdjacentDuplicates(s) && s != []
    ensures NoAdjacentDuplicates(s[1..])
  {
    forall i | 0 < i < |s| - 1
      ensures !Duplicate(s[1..][i - 1], s[1..][i])
    {
      assert s[1..][i - 1] == s[i] && s[1..][i] == s[i + 1];
    }
  }

  /**
   * best_set only ever holds the initial zeros or one appended record's
   * count and open area, swapped.
   */
  lemma {:induction false} BestAfterIsSwappedRecord(s: seq<Record>)
    ensures BestAfter(s) == InitialBest
         || exists i :: 0 <= i < |s| && BestAfter(s) == BestSet(s[i].apertures as real, s[i].field)
  {
    if s != [] {
      var u := s[..|s| - 1];
      BestAfterIsSwappedRecord(u);
      if BestAfter(s) != BestAfter(u) {
        assert BestAfter(s) == BestSet(s[|s| - 1].apertures as real, s[|s| - 1].field);
      } else if BestAfter(u) != InitialBest {
        var i :| 0 <= i < |u| && BestAfter(u) == BestSet(u[i].apertures as real, u[i].field);
        assert s[i] == u[i];
      }
    }
  }

  lemma GatesHeldAppend(s: seq<Record>, x: Record)
    requires GatesHeld(s) && Gate(BestAfter(s), x)
    ensures GatesHeld(s + [x])
    ensures BestAfter(s + [x]) == NextBest(BestAfter(s), x)
  {
    var t := s + [x];
    assert t[..|s|] == s;
    forall i | 0 <= i < |t|
      ensures Gate(BestAfter(t[..i]), t[i])
    {
      if i < |s| {
        assert t[..i] == s[..i];
      }
    }
  }

  /**
   * The panel calculator. `freq` is in Hz; `field` is the panel's width and
   * height in cm; `math` stands for numpy's sqrt and log10.
   */
  datatype CalcSuppr = CalcSuppr(
    math: MathOracle,
    freq: real,
    effSuppr: real,
    field: (real, real),
    waveLength: real,
    maxLineLength: real,
    minInterval: real,
    areaInterval: real,
    fastMode: bool,
    precision: real)
  {
    /** __init__: frequency in GHz, derived lengths in cm. */
    static function New(
      math: MathOracle, freq: real, effSuppr: real, field: (real, real),
      fastMode: bool := false, precision: real := 0.001): (r: Result<CalcSuppr>)
      requires math.Sound()
      ensures r.Err? <==> freq == 0.0
      ensures r.Err? ==> r.fault == ZeroDivisionError
      ensures r.Ok? ==> r.value.Valid()
      ensures r.Ok? ==> r.value.freq != 0.0 && r.value.waveLength == LightSpeed / r.value.freq * 100.0
      ensures r.Ok? ==> && r.value.freq == freq * 1000000000.0 && r.value.effSuppr == effSuppr
                        && r.value.field == field && r.value.fastMode == fastMode
                        && r.value.precision == precision
      ensures r.Ok? ==> r.value.maxLineLength == r.value.areaInterval
      ensures r.Ok? ==> r.value.maxLineLength <= r.value.waveLength / 2.0 < r.value.maxLineLength + 1.0 / Scale
      ensures r.Ok? ==> r.value.minInterval - 1.0 / Scale < r.value.waveLength / 10.0 <= r.value.minInterval
    {
      var hz := freq * 1000000000.0;
      if hz == 0.0 then Err(ZeroDivisionError)
      else
        var waveLength := LightSpeed / hz * 100.0;
        Ok(CalcSuppr(
          math, hz, effSuppr, field, waveLength,
          RoundDown(waveLength / 2.0),
          RoundUp(waveLength / 10.0),
          RoundDown(waveLength / 2.0),
          fastMode, precision))
    }

    /** The relations __init__ establishes between the fields. */
    predicate Valid() {
      && math.Sound()
      && maxLineLength == RoundDown(waveLength / 2.0)
      && minInterval == RoundUp(waveLength / 10.0)
      && areaInterval == RoundDown(waveLength / 2.0)
    }

    function Sqrt3(): real {
      math.sqrt(3.0)
    }

    /** The height of one hexagon, rounded up to the grid. */
    function Height(lineLength: real): real {
      RoundUp(lineLength / 2.0 * Sqrt3())
    }

    /** A longer edge never gives a lower hexagon. */
    lemma HeightMonotone(a: real, b: real)
      requires math.Sound()
      requires a <= b
      ensures Height(a) <= Height(b)
    {
      assert Height(a) == RoundUp(a / 2.0 * Sqrt3());
      assert Height(b) == RoundUp(b / 2.0 * Sqrt3());
      MulMono(a / 2.0, b / 2.0, Sqrt3());
      RoundUpMonotone(a / 2.0 * Sqrt3(), b / 2.0 * Sqrt3());
    }

    /**
     * close_apert in calcSuppr: how many neighbouring apertures couple into
     * the effectiveness, 0, 6, 12 or 18.
     */
    function CloseApertures(lineLength: real, height: real, intervalX: real): (n: int)
      ensures n == 0 || n == 6 || n == 12 || n == 18
      ensures n == 0 <==> intervalX > areaInterval
      ensures n >= 12 <==> intervalX <= areaInterval && intervalX * Sqrt3() + lineLength / 2.0 <= areaInterval
      ensures n == 18 <==> n >= 12 && 2.0 * intervalX + height <= areaInterval
    {
      if intervalX <= areaInterval then
        if intervalX * Sqrt3() + lineLength / 2.0 <= areaInterval then
          if 2.0 * intervalX + height <= areaInterval then 18 else 12
        else 6
      else 0
    }

    /** The waveguide-below-cutoff term alone: the fast sweep's effectiveness. */
    function BaseSuppression(lineLength: real): real
      requires lineLength > 0.0
    {
      20.0 * math.log10(waveLength / (2.0 * lineLength))
    }

    /**
     * calcSuppr: the base term minus the coupling correction for
     * CloseApertures neighbours. Without neighbours the correction is
     * 20*log10(sqrt(1)) = 0.
     */
    function CalcSuppression(lineLength: real, height: real, intervalX: real): (s: real)
      requires lineLength > 0.0
      ensures math.Sound() && intervalX > areaInterval ==> s == BaseSuppression(lineLength)
    {
      var closeApert := CloseApertures(lineLength, height, intervalX);
      BaseSuppression(lineLength) - 20.0 * math.log10(math.sqrt(closeApert as real + 1.0))
    }

    /**
     * In the full sweep, whose pre-filter skips every interval with
     * areaInterval > 2*interval + height, the 18-neighbour tier is reached
     * only on the boundary 2*interval + height == areaInterval.
     */
    lemma EighteenOnlyOnFilterBoundary(lineLength: real, intervalX: real)
      requires areaInterval <= 2.0 * intervalX + Height(lineLength)
      requires CloseApertures(lineLength, Height(lineLength), intervalX) == 18
      ensures 2.0 * intervalX + Height(lineLength) == areaInterval
    {
    }

    /** Area of one hexagon, 3/2 * (L/2)^2 * sqrt(3). */
    function HexArea(lineLength: real): real {
      3.0 / 2.0 * (lineLength / 2.0) * (lineLength / 2.0) * Sqrt3()
    }

    /** The open area of `count` hexagons. */
    function OpenArea(count: int, lineLength: real): real {
      count as real * HexArea(lineLength)
    }

    /** The horizontal pitch numAperture uses: pinned to areaInterval in fast mode. */
    function IntervalX(interval: real): real {
      if fastMode then areaInterval else interval
    }

    function IntervalY(lineLength: real, intervalX: real): real {
      RoundUp(intervalX * Sqrt3() / 2.0 - lineLength / 4.0)
    }

    /** The panel less a margin of minInterval on each side. */
    function UsableWidth(): real {
      field.0 - 2.0 * minInterval
    }

    function UsableHeight(): real {
      field.1 - 2.0 * minInterval
    }

    /** num_rows; the divisor is the edge length, as run.py writes it. */
    function NumRows(lineLength: real, intervalY: real): int
      requires lineLength + intervalY != 0.0
    {
      Floor((UsableHeight() + intervalY) / (lineLength + intervalY))
    }

    function EvenRowCount(height: real, intervalX: real): int
      requires height + intervalX != 0.0
    {
      Floor((UsableWidth() + intervalX) / (height + intervalX))
    }

    /** Odd rows are offset by half an aperture and half a pitch. */
    function OddRowCount(height: real, intervalX: real): int
      requires height + intervalX != 0.0
    {
      Floor((UsableWidth() - height / 2.0 - intervalX / 2.0 + intervalX) / (height + intervalX))
    }

    function RowCount(row: int, height: real, intervalX: real): int
      requires height + intervalX != 0.0
    {
      if row % 2 == 0 then EvenRowCount(height, intervalX) else OddRowCount(height, intervalX)
    }

    /** An offset row holds as many apertures as an unshifted one, or one fewer. */
    lemma OddRowAtMostEven(height: real, intervalX: real)
      requires height + intervalX != 0.0
      ensures EvenRowCount(height, intervalX) - 1 <= OddRowCount(height, intervalX) <= EvenRowCount(height, intervalX)
    {
      var d := height + intervalX;
      var a := UsableWidth() + intervalX;
      var b := UsableWidth() - height / 2.0 - intervalX / 2.0 + intervalX;
      assert b == a - d / 2.0;
      DivHalf(a, d);
      assert EvenRowCount(height, intervalX) == Floor(a / d);
      assert OddRowCount(height, intervalX) == Floor(b / d);
    }

    /**
     * numAperture's result, stated outright: e is what numAperture(L,
     * interval) returns when it returns at all.
     */
    predicate IsEvaluation(lineLength: real, interval: real, e: Evaluation)
      requires lineLength > 0.0
    {
      && e.height == Height(lineLength)
      && e.intervalX == IntervalX(interval)
      && e.intervalY == IntervalY(lineLength, e.intervalX)
      && lineLength + e.intervalY != 0.0
      && |e.rowCounts| == RangeLength(NumRows(lineLength, e.intervalY))
      && (|e.rowCounts| > 0 ==> e.height + e.intervalX != 0.0)
      && (forall i :: 0 <= i < |e.rowCounts| ==> e.rowCounts[i] == RowCount(i, e.height, e.intervalX))
      && e.apertures == Sum(e.rowCounts)
      && e.field == OpenArea(e.apertures, lineLength)
      && e.suppression == if fastMode then BaseSuppression(lineLength)
                          else CalcSuppression(lineLength, e.height, e.intervalX)
    }

    /**
     * numAperture's row loop: the per-row aperture counts of num_rows rows,
     * even rows unshifted and odd rows offset, and their running total.
     * The row divisor is reached, and can be zero, only when there is a row.
     */
    method CountRows(height: real, intervalX: real, numRows: int) returns (r: Result<(int, seq<int>)>)
      ensures r.Err? <==> numRows > 0 && height + intervalX == 0.0
      ensures r.Err? ==> r.fault == NonFiniteRowCount
      ensures r.Ok? ==> && |r.value.1| == RangeLength(numRows)
                        && (|r.value.1| > 0 ==> height + intervalX != 0.0)
                        && (forall i :: 0 <= i < |r.value.1| ==> r.value.1[i] == RowCount(i, height, intervalX))
                        && r.value.0 == Sum(r.value.1)
    {
      var counter := 0;
      var figSet: seq<int> := [];
      for row := 0 to RangeLength(numRows)
        invariant |figSet| == row
        invariant row > 0 ==> height + intervalX != 0.0
        invariant forall i :: 0 <= i < row ==> figSet[i] == RowCount(i, height, intervalX)
        invariant counter == Sum(figSet)
      {
        if height + intervalX == 0.0 {
          return Err(NonFiniteRowCount);
        }
        var temp;
        if row % 2 == 0 {
          temp := EvenRowCount(height, intervalX);
        } else {
          temp := OddRowCount(height, intervalX);
        }
        assert (figSet + [temp])[..row] == figSet;
        counter := counter + temp;
        figSet := figSet + [temp];
      }
      return Ok((counter, figSet));
    }

    /**
     * numAperture. It raises exactly when a row-count denominator is zero
     * (int() of an infinite or undefined quotient); the divisor of the
     * per-row counts is reached only when there is at least one row.
     */
    method NumAperture(lineLength: real, interval: real) returns (r: Result<Evaluation>)
      requires lineLength > 0.0
      ensures r.Err? <==>
        || lineLength + IntervalY(lineLength, IntervalX(interval)) == 0.0
        || (&& NumRows(lineLength, IntervalY(lineLength, IntervalX(interval))) > 0
            && Height(lineLength) + IntervalX(interval) == 0.0)
      ensures r.Ok? ==> IsEvaluation(lineLength, interval, r.value)
    {
      var height := Height(lineLength);
      var intervalX;
      if fastMode {
        intervalX := areaInterval;
      } else {
        intervalX := interval;
      }
      var intervalY := IntervalY(lineLength, intervalX);
      if lineLength + intervalY == 0.0 {
        return Err(NonFiniteRowCount);
      }
      var numRows := NumRows(lineLength, intervalY);
      var rows := CountRows(height, intervalX, numRows);
      if rows.Err? {
        return Err(rows.fault);
      }
      var (counter, figSet) := rows.value;

      var s;
      if fastMode {
        s := BaseSuppression(lineLength);
      } else {
        s := CalcSuppression(lineLength, height, intervalX);
      }
      var e := Evaluation(OpenArea(counter, lineLength), counter, height, intervalX, intervalY, s, figSet);
      return Ok(e);
    }

    /**
     * The total count in closed form: with n rows, the ceil(n/2) even rows
     * hold EvenRowCount apertures each and the floor(n/2) odd rows
     * OddRowCount each.
     */
    lemma AperturesClosedForm(lineLength: real, interval: real, e: Evaluation)
      requires lineLength > 0.0
      requires IsEvaluation(lineLength, interval, e)
      requires |e.rowCounts| > 0
      ensures e.apertures == (|e.rowCounts| + 1) / 2 * EvenRowCount(e.height, e.intervalX)
                           + |e.rowCounts| / 2 * OddRowCount(e.height, e.intervalX)
    {
      AlternatingSum(e.rowCounts, EvenRowCount(e.height, e.intervalX), OddRowCount(e.height, e.intervalX));
    }

    /** max_interval in the full sweep: a third of the shorter panel side. */
    function MaxInterval(): (m: real)
      ensures 3.0 * m <= field.0 && 3.0 * m <= field.1
      ensures 3.0 * m == field.0 || 3.0 * m == field.1
    {
      if field.0 > field.1 then field.1 / 3.0 else field.0 / 3.0
    }

    /** x is numAperture's result for its own edge length and pitch. */
    predicate Evaluated(x: Record)
      requires x.lineLength > 0.0
    {
      && x.height == (if fastMode then None else Some(Height(x.lineLength)))
      && IsEvaluation(x.lineLength, x.intervalX,
           Evaluation(x.field, x.apertures, Height(x.lineLength), x.intervalX,
                      x.intervalY, x.suppr, x.rowCounts))
    }

    /**
     * What holds of every record the sweep offers for acceptance: its edge
     * length comes from the outer sweep, it is numAperture's result, and in
     * full mode its pitch comes from the inner sweep and passed the
     * feasibility pre-filter.
     */
    predicate Candidate(x: Record) {
      && 0.1 < x.lineLength <= maxLineLength / 2.0
      && Evaluated(x)
      && (!fastMode ==> && minInterval <= x.intervalX < MaxInterval()
                        && areaInterval <= 2.0 * x.intervalX + Height(x.lineLength))
    }

    predicate InBand(x: Record) {
      effSuppr <= x.suppr <= effSuppr + Band
    }

    /** A record the sweep appended: in the band, and a candidate of the sweep. */
    predicate Accepted(x: Record) {
      InBand(x) && Candidate(x)
    }

    /** Every record of s is Accepted (stated record by record, from the end). */
    predicate AllAccepted(s: seq<Record>) {
      s == [] || (AllAccepted(s[..|s| - 1]) && Accepted(s[|s| - 1]))
    }

    lemma {:induction false} AcceptedAt(s: seq<Record>, k: int)
      requires AllAccepted(s) && 0 <= k < |s|
      ensures Accepted(s[k])
    {
      if k < |s| - 1 {
        AcceptedAt(s[..|s| - 1], k);
      }
    }

    lemma AcceptedAppend(s: seq<Record>, x: Record)
      requires AllAccepted(s) && InBand(x) && Candidate(x)
      ensures AllAccepted(s + [x])
    {
      assert (s + [x])[..|s|] == s;
    }

    /** An accepted record's aperture count is the sum of its row counts. */
    lemma AcceptedCounts(x: Record)
      requires Accepted(x)
      ensures x.apertures == Sum(x.rowCounts)
    {
    }

    /**
     * The invariant of the results list and best_set during the sweep: the
     * sentinel first, no two adjacent entries with the same edge length and
     * open area, every entry passed the gate, and best_set is what the
     * appends made of it.
     */
    predicate SearchInv(results: seq<Record>, best: BestSet) {
      && |results| >= 1
      && results[0] == Sentinel
      && NoAdjacentDuplicates(results)
      && GatesHeld(results[1..])
      && best == BestAfter(results[1..])
    }

    /** Appending a record that passed the gate and the duplicate test keeps SearchInv. */
    lemma SearchInvAppend(results: seq<Record>, best: BestSet, x: Record)
      requires SearchInv(results, best)
      requires Gate(best, x) && !Duplicate(results[|results| - 1], x)
      ensures SearchInv(results + [x], NextBest(best, x))
    {
      GatesHeldAppend(results[1..], x);
      NoAdjacentDuplicatesAppend(results, x);
      assert (results + [x])[1..] == results[1..] + [x];
    }

    /**
     * The acceptance step on the sweep state (results, best_set): a record
     * in the band that passes the gate and does not repeat the last entry
     * is appended and best_set moves by NextBest; any other record leaves
     * the state as it was.
     */
    function Step(state: (seq<Record>, BestSet), x: Record): (r: (seq<Record>, BestSet))
      requires state.0 != []
      ensures r.0 == state.0 || r.0 == state.0 + [x]
      ensures r.0 == state.0 + [x] ==> InBand(x) && Gate(state.1, x)
    {
      var (results, best) := state;
      if InBand(x) && Gate(best, x) && !Duplicate(results[|results| - 1], x)
      then (results + [x], NextBest(best, x))
      else state
    }

    /** The sweep state after the records of xs are offered to Step, in order. */
    function Fold(state: (seq<Record>, BestSet), xs: seq<Record>): (r: (seq<Record>, BestSet))
      requires state.0 != []
      ensures |state.0| <= |r.0| <= |state.0| + |xs|
      decreases |xs|
    {
      if xs == [] then state else Step(Fold(state, xs[..|xs| - 1]), xs[|xs| - 1])
    }

    /** Offering a then b is offering a + b. */
    lemma {:induction false} FoldAppend(state: (seq<Record>, BestSet), a: seq<Record>, b: seq<Record>)
      requires state.0 != []
      ensures Fold(state, a + b) == Fold(Fold(state, a), b)
      decreases |b|
    {
      if b == [] {
        assert a + b == a;
      } else {
        var c := b[..|b| - 1];
        FoldAppend(state, a, c);
        assert (a + b)[..|a + b| - 1] == a + c;
      }
    }

    /** Whatever records are offered, the sweep invariant survives. */
    lemma {:induction false} FoldKeepsSearchInv(state: (seq<Record>, BestSet), xs: seq<Record>)
      requires SearchInv(state.0, state.1)
      ensures SearchInv(Fold(state, xs).0, Fold(state, xs).1)
      decreases |xs|
    {
      if xs != [] {
        var prev := Fold(state, xs[..|xs| - 1]);
        FoldKeepsSearchInv(state, xs[..|xs| - 1]);
        var x := xs[|xs| - 1];
        if InBand(x) && Gate(prev.1, x) && !Duplicate(prev.0[|prev.0| - 1], x) {
          SearchInvAppend(prev.0, prev.1, x);
        }
      }
    }

    /**
     * One candidate through the acceptance tests: the band, the gate, the
     * adjacent-duplicate skip, the best_set update and the append.
     */
    method Consider(results: seq<Record>, best: BestSet, x: Record)
      returns (results': seq<Record>, best': BestSet)
      requires SearchInv(results, best)
      ensures SearchInv(results', best')
      ensures (results', best') == Step((results, best), x)
    {
      results', best' := results, best;
      if x.suppr >= effSuppr && x.suppr <= effSuppr + Band {
        if x.apertures as real > best.apertures && x.field >= 0.01 * best.field {
          if x.lineLength == results[|results| - 1].lineLength && x.field == results[|results| - 1].field {
            return;
          }
          if x.apertures as real > best.apertures && x.field > best.field {
            best' := BestSet(field := x.apertures as real, apertures := x.field);
          }
          results' := results + [x];
          SearchInvAppend(results, best, x);
        }
      }
    }

    /**
     * Inside the sweep numAperture never raises: the edge length, the
     * hexagon height and the pitch are all positive there.
     */
    lemma SweepPointDefined(lineLength: real, interval: real)
      requires Valid()
      requires 0.1 < lineLength <= maxLineLength / 2.0
      requires !fastMode ==> minInterval <= interval
      ensures lineLength + IntervalY(lineLength, IntervalX(interval)) > 0.0
      ensures Height(lineLength) + IntervalX(interval) > 0.0
    {
      assert IntervalX(interval) > 0.0 by {
        assert maxLineLength <= waveLength / 2.0;
        assert waveLength / 10.0 <= minInterval;
      }
      PositiveDenominators(lineLength, IntervalX(interval));
    }

    /**
     * With a positive edge length and pitch, the rounded hexagon height and
     * row pitch keep numAperture's denominators positive.
     */
    lemma PositiveDenominators(lineLength: real, intervalX: real)
      requires math.Sound()
      requires lineLength > 0.0 && intervalX > 0.0
      ensures lineLength + IntervalY(lineLength, intervalX) > 0.0
      ensures Height(lineLength) + intervalX > 0.0
    {
      MulPos(lineLength / 2.0, Sqrt3());
      MulPos(intervalX, Sqrt3());
    }

    /**
     * One evaluated candidate of the sweep, as the record getResults builds
     * from numAperture's result.
     */
    method SweepRecord(lineLength: real, interval: real) returns (x: Record)
      requires Valid()
      requires 0.1 < lineLength <= maxLineLength / 2.0
      requires !fastMode ==> && minInterval <= interval < MaxInterval()
                             && areaInterval <= 2.0 * interval + Height(lineLength)
      ensures Candidate(x)
      ensures x.lineLength == lineLength && x.intervalX == IntervalX(interval)
    {
      SweepPointDefined(lineLength, interval);
      var r := NumAperture(lineLength, interval);
      var e := r.value;
      if fastMode {
        x := Record(lineLength, e.field, e.apertures, None, e.intervalX, e.intervalY, e.suppression, e.rowCounts);
      } else {
        x := Record(lineLength, e.field, e.apertures, Some(e.height), e.intervalX, e.intervalY, e.suppression, e.rowCounts);
      }
    }

    /** Consider, for a candidate of the sweep: the results stay accepted. */
    method Offer(results: seq<Record>, best: BestSet, x: Record)
      returns (results': seq<Record>, best': BestSet)
      requires SearchInv(results, best) && AllAccepted(results[1..])
      requires Candidate(x)
      ensures SearchInv(results', best') && AllAccepted(results'[1..])
      ensures (results', best') == Step((results, best), x)
    {
      results', best' := Consider(results, best, x);
      if results' == results + [x] {
        AcceptedAppend(results[1..], x);
        assert results'[1..] == results[1..] + [x];
      }
    }

    /** Every record of s is a candidate of the sweep (stated from the end). */
    predicate AllCandidates(s: seq<Record>) {
      s == [] || (AllCandidates(s[..|s| - 1]) && Candidate(s[|s| - 1]))
    }

    lemma {:induction false} CandidateAt(s: seq<Record>, k: int)
      requires AllCandidates(s) && 0 <= k < |s|
      ensures Candidate(s[k])
    {
      if k < |s| - 1 {
        CandidateAt(s[..|s| - 1], k);
      }
    }

    /**
     * A candidate is fixed by its edge length and pitch: numAperture's
     * result determines every other component.
     */
    lemma CandidateUnique(x: Record, y: Record)
      requires Candidate(x) && Candidate(y)
      requires x.lineLength == y.lineLength && x.intervalX == y.intervalX
      ensures x == y
    {
      assert |x.rowCounts| == |y.rowCounts|;
      assert forall i :: 0 <= i < |x.rowCounts| ==> x.rowCounts[i] == y.rowCounts[i];
      assert x.rowCounts == y.rowCounts;
    }

    /**
     * offered holds, in order, one candidate per sweep point: the record
     * numAperture gives for that point's edge length and pitch.
     */
    predicate Offers(points: seq<(real, real)>, offered: seq<Record>) {
      && |offered| == |points|
      && (forall k :: 0 <= k < |offered| ==>
            offered[k].lineLength == points[k].0 && offered[k].intervalX == points[k].1)
      && AllCandidates(offered)
    }

    lemma OffersAppend(points: seq<(real, real)>, offered: seq<Record>, point: (real, real), x: Record)
      requires Offers(points, offered)
      requires x.lineLength == point.0 && x.intervalX == point.1 && Candidate(x)
      ensures Offers(points + [point], offered + [x])
    {
      assert (offered + [x])[..|offered|] == offered;
    }

    /** Dropping the last point and its record keeps Offers; that record is a candidate. */
    lemma OffersInit(points: seq<(real, real)>, offered: seq<Record>)
      requires Offers(points, offered) && offered != []
      ensures Offers(points[..|points| - 1], offered[..|offered| - 1])
      ensures Candidate(offered[|offered| - 1])
    {
    }

    lemma {:induction false} OffersConcat(
      points: seq<(real, real)>, offered: seq<Record>, points': seq<(real, real)>, offered': seq<Record>)
      requires Offers(points, offered) && Offers(points', offered')
      ensures Offers(points + points', offered + offered')
      decreases |offered'|
    {
      if offered' == [] {
        assert points + points' == points && offered + offered' == offered;
      } else {
        var n := |offered'| - 1;
        var p, o := points'[..n], offered'[..n];
        OffersInit(points', offered');
        OffersConcat(points, offered, p, o);
        OffersAppend(points + p, offered + o, points'[n], offered'[n]);
        assert points + p + [points'[n]] == points + points';
        assert offered + o + [offered'[n]] == offered + offered';
      }
    }

    /** The fast sweep's points: one per edge length max_line_length - x, at pitch area_interval. */
    function FastPoints(xs: seq<real>): seq<(real, real)>
    {
      if xs == [] then []
      else FastPoints(xs[..|xs| - 1]) + [(maxLineLength - xs[|xs| - 1], areaInterval)]
    }

    /** The full sweep's feasibility pre-filter: the pitches it lets through to numAperture. */
    predicate Passes(lineLength: real, interval: real) {
      areaInterval <= 2.0 * interval + Height(lineLength)
    }

    /** The points of the inner pitch loop for one edge length, pre-filter applied. */
    function PitchPoints(lineLength: real, intervals: seq<real>): seq<(real, real)>
    {
      if intervals == [] then []
      else
        var last := intervals[|intervals| - 1];
        PitchPoints(lineLength, intervals[..|intervals| - 1])
          + (if Passes(lineLength, last) then [(lineLength, last)] else [])
    }

    /** The full sweep's points: every edge length against every pitch that passes the pre-filter. */
    function FullPoints(xs: seq<real>, intervals: seq<real>): seq<(real, real)>
    {
      if xs == [] then []
      else FullPoints(xs[..|xs| - 1], intervals) + PitchPoints(maxLineLength - xs[|xs| - 1], intervals)
    }

    /** One more edge length of the full sweep adds its pitch points and their records. */
    lemma FullPointsNext(xs: seq<real>, i: int, intervals: seq<real>, offered: seq<Record>, group: seq<Record>)
      requires 0 <= i < |xs|
      requires Offers(FullPoints(xs[..i], intervals), offered)
      requires Offers(PitchPoints(maxLineLength - xs[i], intervals), group)
      ensures Offers(FullPoints(xs[..i + 1], intervals), offered + group)
    {
      assert xs[..i + 1][..i] == xs[..i];
      OffersConcat(FullPoints(xs[..i], intervals), offered, PitchPoints(maxLineLength - xs[i], intervals), group);
    }

    /** The points getResults evaluates, in sweep order. */
    function SweepPoints(): seq<(real, real)>
      requires precision > 0.0
    {
      var xs := Arange(maxLineLength / 2.0, maxLineLength - 0.1, precision);
      if fastMode then FastPoints(xs) else FullPoints(xs, Arange(minInterval, MaxInterval(), precision))
    }

    /** The fast sweep of getResults: one numAperture call per edge length. */
    method FastSweep(xs: seq<real>) returns (results: seq<Record>, best: BestSet, ghost offered: seq<Record>)
      requires Valid() && fastMode
      requires forall k :: 0 <= k < |xs| ==> maxLineLength / 2.0 <= xs[k] < maxLineLength - 0.1
      ensures Offers(FastPoints(xs), offered)
      ensures (results, best) == Fold(Start, offered)
      ensures SearchInv(results, best) && AllAccepted(results[1..])
    {
      results, best, offered := [Sentinel], InitialBest, [];
      for i := 0 to |xs|
        invariant Offers(FastPoints(xs[..i]), offered)
        invariant (results, best) == Fold(Start, offered)
        invariant SearchInv(results, best) && AllAccepted(results[1..])
      {
        var lineLength := maxLineLength - xs[i];
        var x := SweepRecord(lineLength, 0.0);
        results, best := Offer(results, best, x);
        OffersAppend(FastPoints(xs[..i]), offered, (lineLength, areaInterval), x);
        assert xs[..i + 1][..i] == xs[..i];
        assert (offered + [x])[..|offered|] == offered;
        offered := offered + [x];
      }
      assert xs[..|xs|] == xs;
    }

    /** The full sweep of getResults: every edge length against every pitch. */
    method FullSweep(xs: seq<real>) returns (results: seq<Record>, best: BestSet, ghost offered: seq<Record>)
      requires Valid() && !fastMode && precision > 0.0
      requires forall k :: 0 <= k < |xs| ==> maxLineLength / 2.0 <= xs[k] < maxLineLength - 0.1
      ensures Offers(FullPoints(xs, Arange(minInterval, MaxInterval(), precision)), offered)
      ensures (results, best) == Fold(Start, offered)
      ensures SearchInv(results, best) && AllAccepted(results[1..])
    {
      results, best, offered := [Sentinel], InitialBest, [];
      var maxInterval := MaxInterval();
      for i := 0 to |xs|
        invariant Offers(FullPoints(xs[..i], Arange(minInterval, maxInterval, precision)), offered)
        invariant (results, best) == Fold(Start, offered)
        invariant SearchInv(results, best) && AllAccepted(results[1..])
      {
        var lineLength := maxLineLength - xs[i];
        var intervals := Arange(minInterval, maxInterval, precision);
        ghost var group;
        results, best, group := PitchSweep(results, best, lineLength, intervals);
        FoldAppend(Start, offered, group);
        FullPointsNext(xs, i, intervals, offered, group);
        offered := offered + group;
      }
      assert xs[..|xs|] == xs;
    }

    /**
     * The inner loop of the full sweep for one edge length, with its
     * feasibility pre-filter.
     */
    method PitchSweep(results: seq<Record>, best: BestSet, lineLength: real, intervals: seq<real>)
      returns (results': seq<Record>, best': BestSet, ghost offered: seq<Record>)
      requires Valid() && !fastMode
      requires 0.1 < lineLength <= maxLineLength / 2.0
      requires forall k :: 0 <= k < |intervals| ==> minInterval <= intervals[k] < MaxInterval()
      requires SearchInv(results, best) && AllAccepted(results[1..])
      ensures Offers(PitchPoints(lineLength, intervals), offered)
      ensures (results', best') == Fold((results, best), offered)
      ensures SearchInv(results', best') && AllAccepted(results'[1..])
    {
      results', best', offered := results, best, [];
      for j := 0 to |intervals|
        invariant Offers(PitchPoints(lineLength, intervals[..j]), offered)
        invariant (results', best') == Fold((results, best), offered)
        invariant SearchInv(results', best') && AllAccepted(results'[1..])
      {
        var interval := intervals[j];
        assert intervals[..j + 1][..j] == intervals[..j];
        if areaInterval > 2.0 * interval + Height(lineLength) {
          continue;
        }
        var x := SweepRecord(lineLength, interval);
        results', best' := Offer(results', best', x);
        OffersAppend(PitchPoints(lineLength, intervals[..j]), offered, (lineLength, interval), x);
        assert (offered + [x])[..|offered|] == offered;
        offered := offered + [x];
      }
      assert intervals[..|intervals|] == intervals;
    }

    /** The sweep of getResults, fast or full by the mode. */
    method Sweep() returns (results: seq<Record>, best: BestSet, ghost offered: seq<Record>)
      requires Valid()
      requires precision > 0.0
      ensures Offers(SweepPoints(), offered)
      ensures (results, best) == Fold(Start, offered)
      ensures SearchInv(results, best) && AllAccepted(results[1..])
    {
      var xs := Arange(maxLineLength / 2.0, maxLineLength - 0.1, precision);
      ghost var points;
      if fastMode {
        results, best, offered := FastSweep(xs);
        points := FastPoints(xs);
      } else {
        results, best, offered := FullSweep(xs);
        points := FullPoints(xs, Arange(minInterval, MaxInterval(), precision));
      }
      assert points == SweepPoints();
    }

    /**
     * getResults. `offered` is every record the sweep evaluated, in order;
     * `appended` is the results list the sweep builds from them, before the
     * sentinel is removed and the list sorted.
     */
    method GetResults() returns (sorted: seq<Record>, ghost appended: seq<Record>, ghost offered: seq<Record>)
      requires Valid()
      requires precision > 0.0
      ensures Offers(SweepPoints(), offered)
      ensures appended == Fold(Start, offered).0[1..]
      ensures sorted == SortByKey(appended)
      ensures Sorted(sorted) && multiset(sorted) == multiset(appended)
      ensures forall x :: x in sorted ==> InBand(x) && x.apertures == Sum(x.rowCounts)
      ensures AllAccepted(appended)
      ensures NoAdjacentDuplicates(appended)
      ensures GatesHeld(appended)
    {
      var results, best;
      results, best, offered := Sweep();
      NoAdjacentDuplicatesTail(results);
      results := results[1..];
      appended := results;
      sorted := SortByKey(results);
      SortByKeySorts(results);
      SortedAccepted(results);
    }

    /** Every record of the sorted output is in the band, with its count the sum of its rows. */
    lemma SortedAccepted(s: seq<Record>)
      requires AllAccepted(s)
      ensures forall x :: x in SortByKey(s) ==> InBand(x) && x.apertures == Sum(x.rowCounts)
    {
      SortByKeySorts(s);
      forall x | x in SortByKey(s)
        ensures InBand(x) && x.apertures == Sum(x.rowCounts)
      {
        assert x in multiset(SortByKey(s));
        var k :| 0 <= k < |s| && s[k] == x;
        AcceptedAt(s, k);
        AcceptedCounts(x);
      }
    }
  }
}
