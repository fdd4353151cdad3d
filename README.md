# Honeycomb shielding-panel calculator (run.py), modelled in Dafny

`run.py` sizes a honeycomb (hexagonal-aperture) perforation pattern for an
electromagnetic shielding panel. Its class `CalcSuppr` takes:

- a frequency in GHz;
- a target shielding effectiveness in dB;
- the panel's width and height in cm;
- a fast/full mode flag;
- a sweep step (`precision`).

From the frequency's wavelength it derives three lengths, each rounded to four decimals:

- the longest aperture edge (`max_line_length`);
- the smallest pitch between apertures (`min_interval`);
- the coupling radius (`area_interval`).

`getResults` then sweeps edge lengths and, in full mode, pitches. For each
pair, `numAperture` lays the panel out in rows and counts the apertures of
each row. `calcSuppr` estimates the effectiveness from the number of coupled
neighbours (0, 6, 12 or 18). The sweep keeps a candidate only when all of
these hold:

- its effectiveness is within 0.3 dB above the target;
- it beats the running best set;
- it does not repeat the previous entry.

The kept candidates are returned sorted by open area and then by aperture count.

The model has three modules:

- `Numerics` (numerics.dfy) holds the four-decimal rounding (`roundUp`/`roundDown`),
  floor/ceil, numpy's `arange` in exact arithmetic, the row-count sum, and
  `MathOracle`. `MathOracle` is the pair of numpy's `sqrt` and `log10`,
  passed in as functions. The model assumes only `sqrt(3) > 0`, `sqrt(1) = 1`
  and `log10(1) = 0` about them.
- `Records` (records.dfy) holds the record `getResults` appends, the sentinel,
  and Python's stable `sorted(..., key=itemgetter("Field", "Aperatures"))` as an insertion sort.
- `Run` (run.py's class) makes `CalcSuppr` a datatype, because no method
  changes its fields after `__init__`. It has these members:
  - `calcSuppr` and the layout formulas are functions.
  - `numAperture` is a method with its row loop (`CountRows`). It is proved
    against the relational specification `IsEvaluation`.
  - `getResults` is a method whose local state is the results list and
    `best_set`. One acceptance step is `Consider`, specified by the function
    `Step`. The loops (`FastSweep`, `FullSweep`, `PitchSweep`) are proved to
    leave exactly `Fold` of `Step` over the candidates of the sweep points
    (`SweepPoints`), in sweep order, and to keep the invariant `SearchInv`.

Every number is an exact `real`. Python exceptions are `Err` values of a `Result` type:

- a zero frequency raises `ZeroDivisionError`;
- `int()` of an infinite or undefined row count is `NonFiniteRowCount`.

`SweepPointDefined` proves that the second never happens inside the sweep.

## Model

| member | source | states |
|---|---|---|
| Numerics.Floor | run.py:14-16 | numpy floor then int(): the greatest integer not above y |
| Numerics.Ceil | run.py:14-16 | numpy ceil then int(): the least integer not below y |
| Numerics.RoundDown | run.py:23-24 | the result is at most x and within one ten-thousandth below it |
| Numerics.RoundUp | run.py:20-21 | the result is at least x and within one ten-thousandth above it |
| Numerics.RoundDownOnGrid | run.py:23-24 | the result is a whole number of ten-thousandths |
| Numerics.RoundUpOnGrid | run.py:20-21 | the result is a whole number of ten-thousandths |
| Numerics.RoundDownIsGreatest | run.py:23-24 | no four-decimal value lies strictly between roundDown(x) and x |
| Numerics.RoundUpIsLeast | run.py:20-21 | no four-decimal value lies strictly between x and roundUp(x) |
| Numerics.RoundUpMonotone | run.py:20-21 | roundUp is monotone |
| Numerics.Arange | run.py:87 | every element lies in [start, stop) |
| Numerics.ArangeValues | run.py:87 | the k-th element is start + k*step, and the sweep runs until the next value would reach stop |
| Numerics.Sum | run.py:54-63 | the running `counter`: the left-to-right sum of the per-row counts |
| Numerics.RangeLength | run.py:56 | the iteration count of range(0, num_rows): num_rows when positive, else 0 |
| Numerics.AlternatingSum | run.py:56-64 | a list alternating even/odd values sums to ceil(n/2)*even + floor(n/2)*odd |
| Records.KeyLe | run.py:150 | Python's tuple order on (Field, Aperatures): Field first, Aperatures on a tie |
| Records.Sorted | run.py:150 | every earlier record's key is at most every later record's |
| Records.Insert | run.py:150 | places a record after every record whose key does not exceed its own (properties in the lemmas below) |
| Records.SortByKey | run.py:150 | sorted(..., key=itemgetter("Field", "Aperatures")) as an insertion sort (properties in SortByKeySorts and SortByKeyStable) |
| Records.InsertPermutes | run.py:150 | inserting one record adds exactly that record to the multiset |
| Records.InsertSorted | run.py:150 | inserting into an ordered list keeps it ordered by (Field, Aperatures) |
| Records.SortByKeySorts | run.py:149-150 | sorted output is ordered by (Field, Aperatures) and is a permutation of the input |
| Records.WithKeyAppend | run.py:150 | selecting the records with one key distributes over concatenation |
| Records.InsertStable | run.py:150 | insertion places a record after every earlier record with the same key |
| Records.SortByKeyStable | run.py:149-150 | records with equal (Field, Aperatures) keep their appended order |
| Run.Gate | run.py:92-93 | the gate: the count exceeds best_set["Aperatures"] and the open area is at least 1% of best_set["Field"] |
| Run.Duplicate | run.py:95-96 | same edge length and same open area as the last entry |
| Run.NextBest | run.py:99-100 | best_set is replaced only when count and open area both exceed the stored values, and then stored swapped |
| Run.BestAfter | run.py:81 | best_set after a sequence of appends, from the initial zeros |
| Run.GatesHeld | run.py:92-93 | every appended record passed the gate against best_set as it stood then |
| Run.NoAdjacentDuplicates | run.py:95-97 | no two neighbouring entries are duplicates |
| Run.NoAdjacentDuplicatesAppend | run.py:95-97 | appending a record that is not a duplicate of the last keeps the list free of adjacent duplicates |
| Run.NoAdjacentDuplicatesTail | run.py:111 | popping the sentinel keeps the list free of adjacent duplicates |
| Run.BestAfterIsSwappedRecord | run.py:99-100 | best_set is either the initial zeros or one appended record's count under "Field" and open area under "Aperatures" |
| Run.GatesHeldAppend | run.py:92-100 | appending a gated record keeps "every record beat best_set when appended", and best_set moves by the replace-only-if-both-larger rule |
| Run.CalcSuppr.New | run.py:9-18 | fails exactly for frequency 0; otherwise frequency in Hz, wavelength 299792458/f*100, max_line_length equals area_interval, both the four-decimal floor of half the wavelength, min_interval the four-decimal ceil of a tenth |
| Run.CalcSuppr.Valid | run.py:14-16 | the relations __init__ sets: max_line_length and area_interval the four-decimal floor of half the wavelength, min_interval the four-decimal ceil of a tenth, and the math functions sound |
| Run.CalcSuppr.Height | run.py:40 | the hexagon height roundUp(L/2 * sqrt 3) |
| Run.CalcSuppr.HeightMonotone | run.py:40 | a longer edge never gives a lower rounded hexagon height |
| Run.CalcSuppr.CloseApertures | run.py:27-34 | the neighbour count is 0, 6, 12 or 18; 0 exactly beyond area_interval; at least 12 exactly when the second condition holds as well; 18 only on top of the 12 tier |
| Run.CalcSuppr.BaseSuppression | run.py:69 | the waveguide term 20*log10(wavelength/(2L)), the fast sweep's suppression |
| Run.CalcSuppr.CalcSuppression | run.py:26-37 | with no coupled neighbours the correction vanishes and the result is the base term |
| Run.CalcSuppr.EighteenOnlyOnFilterBoundary | run.py:123-124 | after the full sweep's pre-filter, the 18 tier is reached only when 2*interval + height equals area_interval |
| Run.CalcSuppr.IntervalX | run.py:42-46 | the pitch numAperture uses: area_interval in fast mode, the argument otherwise |
| Run.CalcSuppr.IntervalY | run.py:44-47 | the row pitch roundUp(interval_x*sqrt 3/2 - L/4) |
| Run.CalcSuppr.UsableWidth | run.py:49 | the panel width less min_interval on each side |
| Run.CalcSuppr.UsableHeight | run.py:50 | the panel height less min_interval on each side |
| Run.CalcSuppr.NumRows | run.py:52 | num_rows, dividing by the edge length plus row pitch as written |
| Run.CalcSuppr.EvenRowCount | run.py:58 | the count of an unshifted row |
| Run.CalcSuppr.OddRowCount | run.py:62 | the count of a row offset by half an aperture and half a pitch |
| Run.CalcSuppr.RowCount | run.py:57-62 | the even formula for even rows, the odd formula otherwise |
| Run.CalcSuppr.HexArea | run.py:66 | field_1fig, 3/2*(L/2)^2*sqrt 3 |
| Run.CalcSuppr.OpenArea | run.py:74 | the open area: the count times field_1fig |
| Run.CalcSuppr.IsEvaluation | run.py:74-75 | the dictionary numAperture returns, field by field |
| Run.CalcSuppr.OddRowAtMostEven | run.py:57-64 | an offset row holds as many apertures as an even row, or one fewer |
| Run.CalcSuppr.CountRows | run.py:54-64 | fails exactly when there is a row and the row divisor is zero; otherwise exactly num_rows counts, each from the even or odd formula by parity, and the counter is their sum |
| Run.CalcSuppr.NumAperture | run.py:39-75 | fails exactly on a zero denominator; otherwise the result satisfies IsEvaluation: Height is roundUp(L/2*sqrt 3); Interval X is area_interval in fast mode; Set has num_rows entries by parity; Aperatures is the sum of Set; Field is Aperatures * 3/2*(L/2)^2*sqrt 3; Suppression is the base term alone in fast mode and calcSuppr otherwise |
| Run.CalcSuppr.AperturesClosedForm | run.py:56-64 | the aperture total equals ceil(n/2) even rows plus floor(n/2) odd rows |
| Run.CalcSuppr.MaxInterval | run.py:115-118 | max_interval is a third of the shorter panel side |
| Run.CalcSuppr.InBand | run.py:90 | eff_suppr <= Suppression <= eff_suppr + 0.3 |
| Run.CalcSuppr.Evaluated | run.py:89-106 | the record copies numAperture's result for its own edge length and pitch, with "Height" only in full mode |
| Run.CalcSuppr.Candidate | run.py:121-125 | a record of the sweep: edge length in (0.1, max_line_length/2], numAperture's result, and in full mode a pitch from [min_interval, max_interval) that passed the pre-filter |
| Run.CalcSuppr.AcceptedAt | run.py:102-107 | every element of an all-accepted list is accepted |
| Run.CalcSuppr.AcceptedAppend | run.py:102-107 | appending an in-band candidate keeps the list all-accepted |
| Run.CalcSuppr.AcceptedCounts | run.py:74 | an accepted record's Aperatures is the sum of its per-row list |
| Run.CalcSuppr.SearchInvAppend | run.py:95-106 | appending a record that passed the gate and the duplicate test keeps the sweep invariant, with best_set updated |
| Run.CalcSuppr.Step | run.py:90-106 | the acceptance step on (results, best_set): append and NextBest exactly when the record is in band, passes the gate and is not a duplicate of the last entry, otherwise no change; an appended record is in band and gated |
| Run.CalcSuppr.Fold | run.py:87-107 | the state after offering a sequence of records in order; the list only grows, by at most one entry per record |
| Run.CalcSuppr.FoldAppend | run.py:87-107 | offering a then b is offering a + b |
| Run.CalcSuppr.FoldKeepsSearchInv | run.py:87-107 | whatever records are offered, the sweep invariant is kept |
| Run.CalcSuppr.Consider | run.py:90-106 | the new list and best_set are exactly Step's, so a skipped record changes neither; the sweep invariant is kept |
| Run.CalcSuppr.SweepPointDefined | run.py:52-58 | inside the sweep both row-count denominators are positive, so numAperture never fails there |
| Run.CalcSuppr.PositiveDenominators | run.py:40-47 | a positive edge and pitch give a positive height + pitch and edge + row pitch |
| Run.CalcSuppr.SweepRecord | run.py:88-89 | the record built from numAperture's result is a sweep candidate with that edge length and numAperture's pitch |
| Run.CalcSuppr.Offer | run.py:90-106 | one acceptance step gives exactly Step's state, keeps the sweep invariant, and keeps every appended record in band and a candidate |
| Run.CalcSuppr.CandidateAt | run.py:121-125 | every element of an all-candidates list is a candidate |
| Run.CalcSuppr.CandidateUnique | run.py:39-75 | a candidate is fixed by its edge length and pitch, so a list of sweep points fixes the records offered |
| Run.CalcSuppr.Offers | run.py:86-125 | the records offered are, in order, the candidates for the sweep points |
| Run.CalcSuppr.OffersAppend | run.py:102-107 | one more point and its candidate extend Offers |
| Run.CalcSuppr.OffersInit | run.py:102-107 | dropping the last point and its record keeps Offers, and that record is a candidate |
| Run.CalcSuppr.OffersConcat | run.py:120-147 | Offers is kept by concatenating points and records |
| Run.CalcSuppr.FastPoints | run.py:87-89 | the fast sweep's points: edge max_line_length - x for each x of the arange, at pitch area_interval |
| Run.CalcSuppr.Passes | run.py:123-124 | the pre-filter lets a pitch through exactly when area_interval <= 2*interval + height |
| Run.CalcSuppr.PitchPoints | run.py:122-125 | the inner loop's points for one edge length: the arange pitches that pass the pre-filter, in order |
| Run.CalcSuppr.FullPoints | run.py:120-125 | the full sweep's points: for each edge length in order, its PitchPoints |
| Run.CalcSuppr.FullPointsNext | run.py:120-125 | one more edge length adds its pitch points and their records to Offers |
| Run.CalcSuppr.SweepPoints | run.py:86-125 | the points getResults evaluates, fast or full by the mode |
| Run.CalcSuppr.FastSweep | run.py:86-107 | the records offered are the candidates for the fast points, and the final list and best_set are exactly the Fold of Step over them from the sentinel; the sweep invariant holds |
| Run.CalcSuppr.FullSweep | run.py:114-147 | the records offered are the candidates for the full points, pre-filtered pitches left out, and the final state is the Fold of Step over them |
| Run.CalcSuppr.PitchSweep | run.py:122-147 | the records offered are the candidates for the pitches that pass the pre-filter, in order, and the new state is the Fold of Step over them from the given state |
| Run.CalcSuppr.Sweep | run.py:86-147 | the sweep of the current mode: candidates for SweepPoints offered in order, and the final state is their Fold from the sentinel |
| Run.CalcSuppr.GetResults | run.py:77-150 | `offered` is one candidate per sweep point, in order. `appended` is the Fold of Step over them, sentinel removed: exactly the in-band, gated, non-duplicate candidates in sweep order. The output is `appended` sorted by (Field, Aperatures) and a permutation of it, each record in band with its count the sum of its rows. The appended records have no adjacent duplicates and each passed the gate |
| Run.CalcSuppr.SortedAccepted | run.py:149-150 | every record of the sorted output is in band and its count is the sum of its rows |

## Left out

- The command-line tail (run.py:153-177), `logging` and `tqdm`: presentation and side effects only.
- IEEE-754 behaviour:
  - numbers are exact reals;
  - `arange` has no accumulated error;
  - the duplicate test compares exact values;
  - numpy's inf/nan warnings are not modelled.
- The concrete values of `sqrt` and `log10`: only sqrt(3) > 0, sqrt(1) = 1 and log10(1) = 0 are assumed, as `MathOracle.Sound`.
- Physical correctness of the effectiveness formula: no claim is made about concrete dB or cm values.
- Numerics.Arange: requires a positive step. numpy's arange raises on a zero step and counts down on a negative one; neither is modelled.
- Run.CalcSuppr.GetResults: requires precision > 0, which it passes to arange as the step.
- Run.CalcSuppr.NumAperture: requires a positive edge length. run.py would divide by zero in float arithmetic and carry inf/nan into `log10`. The sweep only passes lengths in (0.1, max_line_length/2].
- Run.CalcSuppr.CalcSuppression: requires a positive edge length, for the same reason.
- Run.CalcSuppr.BaseSuppression: requires a positive edge length, for the same reason.
- The sentinel's missing keys: the Python sentinel holds only "Line length", "Interval X" and "Field". Here it is a record of zeros whose other components are never read.
- Kept as written, and not corrected:
  - the row count divides by the edge length (run.py:52);
  - the outer sweep stops at max_line_length - 0.1 (run.py:87, 120);
  - best_set stores the count under "Field" and the open area under "Aperatures" (run.py:100, 138). The gate therefore compares a new count against the stored open area.
- A configuration or domain error type: run.py raises nothing beyond Python's own exceptions, and the model follows the code.
- The fast-mode record carries no "Height" entry (its `height` is `None`), as in run.py.
