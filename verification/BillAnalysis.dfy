/** Period comparisons and anomaly flags of recurring bills, over exact arithmetic. */
module BillAnalysis {
  import opened Basics

  datatype Failure =
    | DuplicatePeriod | NotFirstOfMonth | UnitWithoutValue | ValueWithoutUnit
    | InvalidMonths | InvalidWindow | InvalidThreshold | DateOutOfRange

  type Outcome<+T> = Result<T, Failure>

  // ------------------------------------------------------------ dates and points

  datatype RawDate = Date(year: int, month: int, day: int)

  type Date = d: RawDate | 1 <= d.year <= 9999 && 1 <= d.month <= 12 && 1 <= d.day <= 31 witness Date(1, 1, 1)

  function MonthIndex(d: Date): int {
    d.year * 12 + d.month - 1
  }

  /** The position of a date in the calendar order. */
  function Ordinal(d: Date): int {
    MonthIndex(d) * 31 + d.day - 1
  }

  /** `_shift_month`: the first of the month that many months away. */
  function ShiftMonth(d: Date, months: int): Option<Date> {
    var index := MonthIndex(d) + months;
    if 1 <= index / 12 <= 9999 then Some(Date(index / 12, index % 12 + 1, 1)) else None
  }

  datatype Point = Point(period: Date, amount: real, consumption: Option<real>, consumptionUnit: Option<string>)

  lemma OrdinalInjective(c: Date, d: Date)
    requires Ordinal(c) == Ordinal(d)
    ensures c == d
  {
    assert MonthIndex(c) == MonthIndex(d);
  }

  lemma ShiftMoves(d: Date, months: int)
    ensures ShiftMonth(d, months).Some? ==>
      MonthIndex(ShiftMonth(d, months).value) == MonthIndex(d) + months && ShiftMonth(d, months).value.day == 1
  {
  }

  // ------------------------------------------------------------ ordering

  function InsertPoint(p: Point, points: seq<Point>): (r: seq<Point>)
    ensures multiset(r) == multiset(points) + multiset{p}
  {
    if points == [] then [p]
    else if Ordinal(p.period) <= Ordinal(points[0].period) then [p] + points
    else
      assert points == [points[0]] + points[1..];
      [points[0]] + InsertPoint(p, points[1..])
  }

  function SortPoints(points: seq<Point>): (r: seq<Point>)
    ensures multiset(r) == multiset(points) && |r| == |points|
  {
    if points == [] then []
    else
      assert points == [points[0]] + points[1..];
      var r := InsertPoint(points[0], SortPoints(points[1..]));
      assert |r| == |multiset(r)|;
      r
  }

  ghost predicate Sorted(points: seq<Point>) {
    forall i, j :: 0 <= i < j < |points| ==> Ordinal(points[i].period) <= Ordinal(points[j].period)
  }

  predicate Distinct(points: seq<Point>) {
    forall i, j :: 0 <= i < j < |points| ==> points[i].period != points[j].period
  }

  lemma {:induction false} InsertSorted(p: Point, points: seq<Point>)
    requires Sorted(points)
    ensures Sorted(InsertPoint(p, points))
  {
    hide Ordinal;
    if points != [] && Ordinal(points[0].period) < Ordinal(p.period) {
      InsertSorted(p, points[1..]);
      var rest := InsertPoint(p, points[1..]);
      forall q | q in rest ensures Ordinal(points[0].period) <= Ordinal(q.period) {
        assert q in multiset(rest);
      }
    }
  }

  lemma {:induction false} SortSorted(points: seq<Point>)
    ensures Sorted(SortPoints(points))
  {
    if points != [] {
      SortSorted(points[1..]);
      InsertSorted(points[0], SortPoints(points[1..]));
    }
  }

  lemma FirstAgrees(a: seq<Point>, b: seq<Point>)
    requires Sorted(a) && Sorted(b) && Distinct(a) && multiset(a) == multiset(b) && a != []
    ensures b != [] && a[0] == b[0]
  {
    hide Ordinal;
    assert a[0] in multiset(b);
    assert b[0] in multiset(a);
    var i :| 0 <= i < |a| && a[i] == b[0];
    if i > 0 {
      assert Ordinal(a[0].period) == Ordinal(b[0].period) by {
        var j :| 0 <= j < |b| && b[j] == a[0];
      }
      OrdinalInjective(a[0].period, a[i].period);
    }
  }

  lemma TailMultiset(a: seq<Point>)
    requires a != []
    ensures multiset(a[1..]) == multiset(a) - multiset{a[0]}
  {
    assert a == [a[0]] + a[1..];
  }

  lemma {:induction false} SortedAgree(a: seq<Point>, b: seq<Point>)
    requires Sorted(a) && Sorted(b) && Distinct(a) && multiset(a) == multiset(b)
    ensures a == b
    decreases |a|
  {
    hide Ordinal;
    if a == [] {
      assert |multiset(b)| == 0;
    } else {
      FirstAgrees(a, b);
      TailMultiset(a);
      TailMultiset(b);
      SortedAgree(a[1..], b[1..]);
      assert a == [a[0]] + a[1..] && b == [b[0]] + b[1..];
    }
  }

  /** The first fault of an ordered series, in the order the checks run. */
  function PointFault(p: Point): Option<Failure> {
    if p.period.day != 1 then Some(NotFirstOfMonth)
    else if p.consumption.None? && p.consumptionUnit.Some? then Some(UnitWithoutValue)
    else if p.consumption.Some? && (p.consumptionUnit.None? || p.consumptionUnit.value == "")
      then Some(ValueWithoutUnit)
    else None
  }

  function FirstFault(points: seq<Point>): Option<Failure> {
    if points == [] then None
    else if PointFault(points[0]).Some? then PointFault(points[0])
    else FirstFault(points[1..])
  }

  /** `_ordered_unique_points` */
  function OrderedUnique(points: seq<Point>): Outcome<seq<Point>> {
    var ordered := SortPoints(points);
    if !Distinct(ordered) then Err(DuplicatePeriod)
    else if FirstFault(ordered).Some? then Err(FirstFault(ordered).value)
    else Ok(ordered)
  }

  lemma {:induction false} FaultFree(points: seq<Point>)
    requires FirstFault(points).None?
    ensures forall p :: p in points ==> PointFault(p).None?
  {
    if points != [] { FaultFree(points[1..]); }
  }

  lemma OrderedIs(points: seq<Point>)
    requires OrderedUnique(points).Ok?
    ensures var o := OrderedUnique(points).value;
      Sorted(o) && Distinct(o) && multiset(o) == multiset(points) && forall p :: p in o ==> PointFault(p).None?
  {
    SortSorted(points);
    FaultFree(SortPoints(points));
  }

  /** The order in which the points arrive does not matter, not even to the error. */
  lemma OrderIgnored(a: seq<Point>, b: seq<Point>)
    requires multiset(a) == multiset(b)
    ensures OrderedUnique(a) == OrderedUnique(b)
  {
    hide Sorted, Distinct;
    SortSorted(a);
    SortSorted(b);
    if Distinct(SortPoints(a)) {
      SortedAgree(SortPoints(a), SortPoints(b));
    } else if Distinct(SortPoints(b)) {
      SortedAgree(SortPoints(b), SortPoints(a));
    }
  }

  // ------------------------------------------------------------ comparisons

  datatype ReferenceDelta = ReferenceDelta(
    period: Date, missing: bool, amount: Option<real>, consumption: Option<real>, unitPrice: Option<real>)

  datatype PeriodDelta = PeriodDelta(
    period: Date, amount: real, consumption: Option<real>, consumptionUnit: Option<string>, unitPrice: Option<real>,
    monthOverMonth: ReferenceDelta, yearOverYear: ReferenceDelta)

  predicate SameUnit(a: Point, b: Point) {
    && a.consumption.Some? && b.consumption.Some?
    && a.consumptionUnit.Some? && a.consumptionUnit.value != "" && a.consumptionUnit == b.consumptionUnit
  }

  function UnitPrice(p: Point): Option<real> {
    if p.consumption.None? || p.consumption.value == 0.0 then None else Some(p.amount / p.consumption.value)
  }

  /** The mapping from billing period to point; a later point would win. */
  function Lookup(points: seq<Point>, d: Date): Option<Point> {
    if points == [] then None
    else if points[|points| - 1].period == d then Some(points[|points| - 1])
    else Lookup(points[..|points| - 1], d)
  }

  function DeltaTo(p: Point, reference: Option<Point>, expected: Date): ReferenceDelta {
    match reference
    case None => ReferenceDelta(expected, true, None, None, None)
    case Some(r) =>
      ReferenceDelta(
        expected, false, Some(p.amount - r.amount),
        if SameUnit(p, r) then Some(p.consumption.value - r.consumption.value) else None,
        if SameUnit(p, r) && UnitPrice(p).Some? && UnitPrice(r).Some?
          then Some(UnitPrice(p).value - UnitPrice(r).value) else None)
  }

  function Compare(ordered: seq<Point>, p: Point): Outcome<PeriodDelta> {
    var month, year := ShiftMonth(p.period, -1), ShiftMonth(p.period, -12);
    if month.None? || year.None? then Err(DateOutOfRange)
    else
      Ok(PeriodDelta(
        p.period, p.amount, p.consumption, p.consumptionUnit, UnitPrice(p),
        DeltaTo(p, Lookup(ordered, month.value), month.value),
        DeltaTo(p, Lookup(ordered, year.value), year.value)))
  }

  function CompareAll(ordered: seq<Point>, selected: seq<Point>): (r: Outcome<seq<PeriodDelta>>)
    ensures r.Ok? ==> |r.value| == |selected| && forall k :: 0 <= k < |selected| ==>
      Compare(ordered, selected[k]) == Ok(r.value[k])
  {
    if selected == [] then Ok([])
    else
      var first :- Compare(ordered, selected[0]);
      var rest :- CompareAll(ordered, selected[1..]);
      Ok([first] + rest)
  }

  /** `ordered[-months:]` */
  function LastMonths(ordered: seq<Point>, months: Option<int>): seq<Point>
    requires months.Some? ==> months.value >= 1
  {
    if months.None? || months.value >= |ordered| then ordered else ordered[|ordered| - months.value..]
  }

  function ComparePoints(points: seq<Point>, months: Option<int>): Outcome<seq<PeriodDelta>> {
    if months.Some? && months.value < 1 then Err(InvalidMonths)
    else
      var ordered :- OrderedUnique(points);
      CompareAll(ordered, LastMonths(ordered, months))
  }

  lemma {:induction false} LookupFinds(points: seq<Point>, i: nat)
    requires Distinct(points) && i < |points|
    ensures Lookup(points, points[i].period) == Some(points[i])
    decreases |points|
  {
    if i < |points| - 1 { LookupFinds(points[..|points| - 1], i); }
  }

  /** The twelve months before position `j` are all present. */
  ghost predicate YearBefore(ordered: seq<Point>, j: nat) {
    && j < |ordered|
    && forall month :: MonthIndex(ordered[j].period) - 12 <= month < MonthIndex(ordered[j].period) ==>
         Present(ordered, month)
  }

  ghost predicate Present(ordered: seq<Point>, month: int) {
    exists i :: 0 <= i < |ordered| && MonthIndex(ordered[i].period) == month
  }

  lemma FirstsIncrease(ordered: seq<Point>, i: nat, j: nat)
    requires Sorted(ordered) && Distinct(ordered) && (forall p :: p in ordered ==> PointFault(p).None?)
      && i < j < |ordered|
    ensures MonthIndex(ordered[i].period) < MonthIndex(ordered[j].period)
  {
    assert ordered[i] in ordered && ordered[j] in ordered;
    assert ordered[i].period != ordered[j].period;
    if Ordinal(ordered[i].period) == Ordinal(ordered[j].period) {
      OrdinalInjective(ordered[i].period, ordered[j].period);
    }
  }

  lemma FirstsCompare(ordered: seq<Point>, i: nat, j: nat)
    requires Sorted(ordered) && Distinct(ordered) && (forall p :: p in ordered ==> PointFault(p).None?)
      && i < |ordered| && j < |ordered|
    ensures MonthIndex(ordered[i].period) < MonthIndex(ordered[j].period) <==> i < j
  {
    if i < j { FirstsIncrease(ordered, i, j); }
    if j < i { FirstsIncrease(ordered, j, i); }
  }

  /** If the month before a point is present, it is the point just before. */
  lemma MonthBefore(ordered: seq<Point>, c: nat)
    requires Sorted(ordered) && Distinct(ordered) && (forall p :: p in ordered ==> PointFault(p).None?)
    requires c < |ordered| && Present(ordered, MonthIndex(ordered[c].period) - 1)
    ensures c > 0 && MonthIndex(ordered[c - 1].period) == MonthIndex(ordered[c].period) - 1
  {
    hide Ordinal, MonthIndex, PointFault, Sorted, Distinct;
    var i :| 0 <= i < |ordered| && MonthIndex(ordered[i].period) == MonthIndex(ordered[c].period) - 1;
    FirstsCompare(ordered, i, c);
    FirstsCompare(ordered, c - 1, c);
    FirstsCompare(ordered, i, c - 1);
  }

  /** With no gap, the point `k` places back is the one of `k` months ago. */
  lemma {:induction false} MonthsAreConsecutive(ordered: seq<Point>, j: nat, k: nat)
    requires Sorted(ordered) && Distinct(ordered) && (forall p :: p in ordered ==> PointFault(p).None?)
    requires YearBefore(ordered, j) && k <= 12
    ensures k <= j && MonthIndex(ordered[j - k].period) == MonthIndex(ordered[j].period) - k
    decreases k
  {
    hide Ordinal, MonthIndex, PointFault, Sorted, Distinct, Present;
    if k > 0 {
      MonthsAreConsecutive(ordered, j, k - 1);
      MonthBefore(ordered, j - (k - 1));
    }
  }

  lemma ReferenceFound(ordered: seq<Point>, j: nat, k: nat)
    requires Sorted(ordered) && Distinct(ordered) && (forall p :: p in ordered ==> PointFault(p).None?)
    requires k <= j < |ordered| && MonthIndex(ordered[j - k].period) == MonthIndex(ordered[j].period) - k
    ensures ShiftMonth(ordered[j].period, 0 - k as int) == Some(ordered[j - k].period)
    ensures Lookup(ordered, ordered[j - k].period) == Some(ordered[j - k])
  {
    hide Ordinal, MonthIndex, ShiftMonth, Lookup, Sorted, Distinct;
    assert ordered[j - k] in ordered && ordered[j - k].period.day == 1;
    ShiftReaches(ordered[j].period, ordered[j - k].period, 0 - k as int);
    LookupFinds(ordered, j - k);
  }

  /** The shifted month is the only first of a month that far away. */
  lemma ShiftReaches(d: Date, e: Date, months: int)
    requires e.day == 1 && MonthIndex(e) == MonthIndex(d) + months
    ensures ShiftMonth(d, months) == Some(e)
  {
    var index := MonthIndex(e);
    assert index / 12 == e.year && index % 12 == e.month - 1;
  }

  /** The month-over-month amount deltas from `lo` up to `hi`. */
  function MonthlyDeltas(deltas: seq<PeriodDelta>, lo: nat, hi: nat): real
    requires lo <= hi <= |deltas|
    decreases hi
  {
    if lo == hi then 0.0
    else
      var delta := deltas[hi - 1].monthOverMonth.amount;
      MonthlyDeltas(deltas, lo, hi - 1) + (if delta.Some? then delta.value else 0.0)
  }

  lemma SelectedIs(ordered: seq<Point>, months: Option<int>)
    requires months.Some? ==> months.value >= 1
    ensures var selected := LastMonths(ordered, months);
      |selected| <= |ordered| && forall k :: 0 <= k < |selected| ==> selected[k] == ordered[|ordered| - |selected| + k]
  {
  }

  /** A month-over-month delta is the difference to the point before, when that is the month before. */
  lemma MonthDelta(ordered: seq<Point>, j: nat)
    requires Sorted(ordered) && Distinct(ordered) && (forall p :: p in ordered ==> PointFault(p).None?)
    requires 1 <= j < |ordered| && MonthIndex(ordered[j - 1].period) == MonthIndex(ordered[j].period) - 1
    ensures Compare(ordered, ordered[j]).Ok? ==>
      Compare(ordered, ordered[j]).value.monthOverMonth.amount == Some(ordered[j].amount - ordered[j - 1].amount)
  {
    hide Ordinal, MonthIndex, PointFault, Lookup, Sorted, Distinct, SameUnit;
    ReferenceFound(ordered, j, 1);
  }

  lemma YearDelta(ordered: seq<Point>, j: nat)
    requires Sorted(ordered) && Distinct(ordered) && (forall p :: p in ordered ==> PointFault(p).None?)
    requires 12 <= j < |ordered| && MonthIndex(ordered[j - 12].period) == MonthIndex(ordered[j].period) - 12
    ensures Compare(ordered, ordered[j]).Ok? ==>
      Compare(ordered, ordered[j]).value.yearOverYear.amount == Some(ordered[j].amount - ordered[j - 12].amount)
  {
    hide Ordinal, MonthIndex, PointFault, Lookup, Sorted, Distinct, SameUnit;
    ReferenceFound(ordered, j, 12);
  }

  /** The months telescope. */
  lemma {:induction false} MonthsTelescope(ordered: seq<Point>, deltas: seq<PeriodDelta>, shift: nat, j: nat, k: nat)
    requires Sorted(ordered) && Distinct(ordered) && (forall p :: p in ordered ==> PointFault(p).None?)
    requires |deltas| + shift == |ordered|
      && (forall i :: 0 <= i < |deltas| ==> Compare(ordered, ordered[shift + i]) == Ok(deltas[i]))
    requires YearBefore(ordered, shift + j) && k <= 12 && j < |deltas| && k <= j + 1
    ensures k <= shift + j
    ensures MonthlyDeltas(deltas, j + 1 - k, j + 1) == ordered[shift + j].amount - ordered[shift + j - k].amount
    decreases k
  {
    hide Ordinal, MonthIndex, PointFault, Lookup, Sorted, Distinct, SameUnit, Compare;
    MonthsAreConsecutive(ordered, shift + j, k);
    if k > 0 {
      MonthsTelescope(ordered, deltas, shift, j, k - 1);
      MonthsAreConsecutive(ordered, shift + j, k - 1);
      var c := j + 1 - k;
      MonthDelta(ordered, shift + c);
      assert Compare(ordered, ordered[shift + c]) == Ok(deltas[c]);
      DeltasFromFront(deltas, c, j + 1);
    }
  }

  lemma {:induction false} DeltasFromFront(deltas: seq<PeriodDelta>, lo: nat, hi: nat)
    requires lo < hi <= |deltas|
    ensures MonthlyDeltas(deltas, lo, hi) == MonthlyDeltas(deltas, lo, lo + 1) + MonthlyDeltas(deltas, lo + 1, hi)
    decreases hi
  {
    if lo + 1 < hi { DeltasFromFront(deltas, lo, hi - 1); }
  }

  /** `deltas` compares the last points of `ordered`. */
  ghost predicate Compared(ordered: seq<Point>, deltas: seq<PeriodDelta>) {
    && Sorted(ordered) && Distinct(ordered) && (forall p :: p in ordered ==> PointFault(p).None?)
    && |deltas| <= |ordered|
    && forall i :: 0 <= i < |deltas| ==> Compare(ordered, ordered[|ordered| - |deltas| + i]) == Ok(deltas[i])
  }

  lemma YearTelescopes(ordered: seq<Point>, deltas: seq<PeriodDelta>, j: nat)
    requires Compared(ordered, deltas) && 11 <= j < |deltas| && YearBefore(ordered, |ordered| - |deltas| + j)
    ensures deltas[j].yearOverYear.amount == Some(MonthlyDeltas(deltas, j - 11, j + 1))
  {
    hide Ordinal, MonthIndex, PointFault, Lookup, Sorted, Distinct, SameUnit, Compare, YearBefore;
    var shift := |ordered| - |deltas|;
    MonthsAreConsecutive(ordered, shift + j, 12);
    YearDelta(ordered, shift + j);
    assert Compare(ordered, ordered[shift + j]) == Ok(deltas[j]);
    MonthsTelescope(ordered, deltas, shift, j, 12);
  }

  lemma SelectedCompared(ordered: seq<Point>, months: Option<int>)
    requires Sorted(ordered) && Distinct(ordered) && (forall p :: p in ordered ==> PointFault(p).None?)
    requires (months.Some? ==> months.value >= 1) && CompareAll(ordered, LastMonths(ordered, months)).Ok?
    ensures Compared(ordered, CompareAll(ordered, LastMonths(ordered, months)).value)
  {
    hide Ordinal, MonthIndex, PointFault, Sorted, Distinct, Compare, LastMonths, CompareAll;
    SelectedIs(ordered, months);
  }

  lemma ComparedIs(points: seq<Point>, months: Option<int>)
    requires ComparePoints(points, months).Ok?
    ensures OrderedUnique(points).Ok? && Compared(OrderedUnique(points).value, ComparePoints(points, months).value)
  {
    hide PointFault, Sorted, Distinct, OrderedUnique, LastMonths, CompareAll, Compared;
    OrderedIs(points);
    SelectedCompared(OrderedUnique(points).value, months);
  }

  /**
    If the twelve months before a period exist, its year-over-year delta is the
    sum of twelve month-over-month deltas.
  */
  lemma YearIsTwelveMonths(points: seq<Point>, months: Option<int>, j: nat)
    requires ComparePoints(points, months).Ok? && 11 <= j < |ComparePoints(points, months).value|
    requires OrderedUnique(points).Ok? && |ComparePoints(points, months).value| <= |OrderedUnique(points).value|
    requires YearBefore(OrderedUnique(points).value,
      |OrderedUnique(points).value| - |ComparePoints(points, months).value| + j)
    ensures var deltas := ComparePoints(points, months).value;
      deltas[j].yearOverYear.amount == Some(MonthlyDeltas(deltas, j - 11, j + 1))
  {
    hide ComparePoints, OrderedUnique, Compared, YearBefore;
    ComparedIs(points, months);
    YearTelescopes(OrderedUnique(points).value, ComparePoints(points, months).value, j);
  }

  // ------------------------------------------------------------ medians

  function InsertReal(x: real, xs: seq<real>): (r: seq<real>)
    ensures multiset(r) == multiset(xs) + multiset{x} && |r| == |xs| + 1
  {
    if xs == [] then [x]
    else if x <= xs[0] then [x] + xs
    else
      assert xs == [xs[0]] + xs[1..];
      [xs[0]] + InsertReal(x, xs[1..])
  }

  function SortReals(xs: seq<real>): (r: seq<real>)
    ensures multiset(r) == multiset(xs) && |r| == |xs|
  {
    if xs == [] then []
    else
      assert xs == [xs[0]] + xs[1..];
      InsertReal(xs[0], SortReals(xs[1..]))
  }

  ghost predicate Ascending(xs: seq<real>) {
    forall i, j :: 0 <= i < j < |xs| ==> xs[i] <= xs[j]
  }

  lemma {:induction false} InsertAscending(x: real, xs: seq<real>)
    requires Ascending(xs)
    ensures Ascending(InsertReal(x, xs))
  {
    if xs != [] && xs[0] < x {
      InsertAscending(x, xs[1..]);
      var rest := InsertReal(x, xs[1..]);
      forall k | 0 <= k < |rest| ensures xs[0] <= rest[k] {
        assert rest[k] in multiset(rest);
        assert rest[k] == x || rest[k] in multiset(xs[1..]);
      }
    }
  }

  lemma {:induction false} SortAscending(xs: seq<real>)
    ensures Ascending(SortReals(xs))
  {
    if xs != [] {
      SortAscending(xs[1..]);
      InsertAscending(xs[0], SortReals(xs[1..]));
    }
  }

  /** `_median` */
  function Median(values: seq<real>): real
    requires values != []
  {
    var ordered := SortReals(values);
    var middle := |ordered| / 2;
    if |ordered| % 2 == 1 then ordered[middle] else (ordered[middle - 1] + ordered[middle]) / 2.0
  }

  /** How many values lie outside the range. */
  function Outside(values: seq<real>, lo: real, hi: real): nat {
    if values == [] then 0 else (if lo <= values[0] <= hi then 0 else 1) + Outside(values[1..], lo, hi)
  }

  lemma {:induction false} OutsideSplits(a: seq<real>, b: seq<real>, lo: real, hi: real)
    ensures Outside(a + b, lo, hi) == Outside(a, lo, hi) + Outside(b, lo, hi)
    decreases |a|
  {
    if a == [] {
      assert a + b == b;
    } else {
      assert (a + b)[1..] == a[1..] + b;
      OutsideSplits(a[1..], b, lo, hi);
    }
  }

  lemma {:induction false} OutsideInserted(x: real, xs: seq<real>, lo: real, hi: real)
    ensures Outside(InsertReal(x, xs), lo, hi) == Outside([x], lo, hi) + Outside(xs, lo, hi)
  {
    if xs == [] {
    } else if x <= xs[0] {
      OutsideSplits([x], xs, lo, hi);
    } else {
      OutsideInserted(x, xs[1..], lo, hi);
      OutsideSplits([xs[0]], InsertReal(x, xs[1..]), lo, hi);
    }
  }

  /** Sorting keeps the count. */
  lemma {:induction false} OutsideSorted(xs: seq<real>, lo: real, hi: real)
    ensures Outside(SortReals(xs), lo, hi) == Outside(xs, lo, hi)
  {
    if xs != [] {
      OutsideSorted(xs[1..], lo, hi);
      OutsideInserted(xs[0], SortReals(xs[1..]), lo, hi);
    }
  }

  lemma {:induction false} AllOutside(xs: seq<real>, lo: real, hi: real)
    requires forall i :: 0 <= i < |xs| ==> !(lo <= xs[i] <= hi)
    ensures Outside(xs, lo, hi) == |xs|
  {
    if xs != [] {
      AllOutside(xs[1..], lo, hi);
    }
  }

  /** With at most `k` values outside, the sorted value at any place from `k` to `n - 1 - k` is inside. */
  lemma MiddleIsInside(ordered: seq<real>, lo: real, hi: real, at: nat)
    requires Ascending(ordered) && lo <= hi && at < |ordered|
    requires Outside(ordered, lo, hi) <= at && Outside(ordered, lo, hi) < |ordered| - at
    ensures lo <= ordered[at] <= hi
  {
    var front, back := ordered[..at + 1], ordered[at..];
    assert ordered == front + ordered[at + 1..] && ordered == ordered[..at] + back;
    OutsideSplits(front, ordered[at + 1..], lo, hi);
    OutsideSplits(ordered[..at], back, lo, hi);
    if ordered[at] < lo { AllOutside(front, lo, hi); }
    if ordered[at] > hi { AllOutside(back, lo, hi); }
  }

  lemma MedianInside(values: seq<real>, lo: real, hi: real)
    requires values != [] && lo <= hi && 2 * Outside(values, lo, hi) < |values|
    ensures lo <= Median(values) <= hi
  {
    var ordered := SortReals(values);
    SortAscending(values);
    OutsideSorted(values, lo, hi);
    hide SortReals, Outside;
    var middle := |ordered| / 2;
    MiddleIsInside(ordered, lo, hi, middle);
    if |ordered| % 2 == 0 { MiddleIsInside(ordered, lo, hi, middle - 1); }
  }

  /** The positions at which two histories differ. */
  function Altered(a: seq<real>, b: seq<real>): nat
    requires |a| == |b|
  {
    if a == [] then 0 else (if a[0] == b[0] then 0 else 1) + Altered(a[1..], b[1..])
  }

  lemma {:induction false} OutsideOnlyAltered(a: seq<real>, b: seq<real>, lo: real, hi: real)
    requires |a| == |b| && forall i :: 0 <= i < |a| && a[i] == b[i] ==> lo <= a[i] <= hi
    ensures Outside(b, lo, hi) <= Altered(a, b)
  {
    if a != [] {
      forall i | 0 <= i < |a[1..]| && a[1..][i] == b[1..][i] ensures lo <= a[1..][i] <= hi {
        assert a[i + 1] == b[i + 1];
      }
      OutsideOnlyAltered(a[1..], b[1..], lo, hi);
    }
  }

  /** Altering fewer than half of a history keeps its median within the range of the unaltered values. */
  lemma MedianIsRobust(a: seq<real>, b: seq<real>, lo: real, hi: real)
    requires |a| == |b| && a != [] && lo <= hi && 2 * Altered(a, b) < |a|
    requires forall i :: 0 <= i < |a| && a[i] == b[i] ==> lo <= a[i] <= hi
    ensures lo <= Median(b) <= hi
  {
    hide Median;
    OutsideOnlyAltered(a, b, lo, hi);
    MedianInside(b, lo, hi);
  }

  // ------------------------------------------------------------ anomaly flags

  datatype Metric = ConsumptionMetric | UnitPriceMetric | AmountMetric

  datatype Flag = Flag(period: Date, metric: Metric, value: real, median: real, mad: real, robustZ: Option<real>)

  function Abs(x: real): real {
    if x < 0.0 then -x else x
  }

  function Deviations(values: seq<real>, median: real): (r: seq<real>)
    ensures |r| == |values|
  {
    if values == [] then [] else [Abs(values[0] - median)] + Deviations(values[1..], median)
  }

  /** `_metric_anomaly` */
  function MetricAnomaly(period: Date, metric: Metric, value: real, history: seq<real>, threshold: real): Option<Flag>
    requires history != []
  {
    var median := Median(history);
    var mad := Median(Deviations(history, median));
    var difference := Abs(value - median);
    if mad == 0.0 then
      if difference == 0.0 then None else Some(Flag(period, metric, value, median, mad, None))
    else
      var robustZ := 0.6745 * difference / mad;
      if robustZ <= threshold then None else Some(Flag(period, metric, value, median, mad, Some(robustZ)))
  }

  function SameUnitHistory(p: Point, history: seq<Point>): seq<Point> {
    if history == [] then []
    else (if SameUnit(p, history[0]) then [history[0]] else []) + SameUnitHistory(p, history[1..])
  }

  function Consumptions(history: seq<Point>): seq<real> {
    if history == [] then []
    else (if history[0].consumption.Some? then [history[0].consumption.value] else []) + Consumptions(history[1..])
  }

  function UnitPrices(history: seq<Point>): seq<real> {
    if history == [] then []
    else (if UnitPrice(history[0]).Some? then [UnitPrice(history[0]).value] else []) + UnitPrices(history[1..])
  }

  function Amounts(history: seq<Point>): (r: seq<real>)
    ensures |r| == |history|
  {
    if history == [] then [] else [history[0].amount] + Amounts(history[1..])
  }

  lemma {:induction false} ConsumptionsOfSameUnit(p: Point, history: seq<Point>)
    ensures |Consumptions(SameUnitHistory(p, history))| == |SameUnitHistory(p, history)|
  {
    if history != [] {
      ConsumptionsOfSameUnit(p, history[1..]);
      var rest := SameUnitHistory(p, history[1..]);
      if SameUnit(p, history[0]) {
        assert ([history[0]] + rest)[1..] == rest;
      } else {
        assert SameUnitHistory(p, history) == rest;
      }
    }
  }

  /** `_point_anomaly`: consumption first, then unit price, then the amount. */
  function PointAnomaly(p: Point, history: seq<Point>, threshold: real): Option<Flag>
    requires history != []
  {
    var same := SameUnitHistory(p, history);
    ConsumptionsOfSameUnit(p, history);
    var consumption :=
      if |same| >= 6 && p.consumption.Some?
        then MetricAnomaly(p.period, ConsumptionMetric, p.consumption.value, Consumptions(same), threshold)
      else None;
    var unitPrice :=
      if |same| >= 6 && p.consumption.Some? && |UnitPrices(same)| >= 6 && UnitPrice(p).Some?
      then MetricAnomaly(p.period, UnitPriceMetric, UnitPrice(p).value, UnitPrices(same), threshold)
      else None;
    if consumption.Some? then consumption
    else if unitPrice.Some? then unitPrice
    else MetricAnomaly(p.period, AmountMetric, p.amount, Amounts(history), threshold)
  }

  function History(ordered: seq<Point>, position: nat, window: nat): seq<Point>
    requires position <= |ordered|
  {
    ordered[if position < window then 0 else position - window..position]
  }

  function FlagAt(ordered: seq<Point>, position: nat, window: nat, threshold: real): seq<Flag>
    requires position < |ordered|
  {
    var history := History(ordered, position, window);
    if |history| < 6 then []
    else
      var flag := PointAnomaly(ordered[position], history, threshold);
      if flag.Some? then [flag.value] else []
  }

  /** The flags of the first `n` periods. */
  function FlagsOf(ordered: seq<Point>, n: nat, window: nat, threshold: real): seq<Flag>
    requires n <= |ordered|
  {
    if n == 0 then [] else FlagsOf(ordered, n - 1, window, threshold) + FlagAt(ordered, n - 1, window, threshold)
  }

  function Flags(points: seq<Point>, window: int, threshold: real): Outcome<seq<Flag>> {
    if window < 6 then Err(InvalidWindow)
    else if threshold <= 0.0 then Err(InvalidThreshold)
    else
      var ordered :- OrderedUnique(points);
      Ok(FlagsOf(ordered, |ordered|, window, threshold))
  }

  method FlagAnomalies(points: seq<Point>, window: int, threshold: real) returns (r: Outcome<seq<Flag>>)
    ensures r == Flags(points, window, threshold)
  {
    hide OrderedUnique, PointAnomaly;
    if window < 6 { return Err(InvalidWindow); }
    if threshold <= 0.0 { return Err(InvalidThreshold); }
    var unique := OrderedUnique(points);
    if unique.Err? { return Err(unique.error); }
    var ordered := unique.value;
    var flags := [];
    for position := 0 to |ordered|
      invariant flags == FlagsOf(ordered, position, window, threshold)
    {
      var history := ordered[if position < window then 0 else position - window..position];
      if |history| >= 6 {
        var flag := PointAnomaly(ordered[position], history, threshold);
        if flag.Some? { flags := flags + [flag.value]; }
      }
    }
    return Ok(flags);
  }

  /** Flags and comparisons ignore the order of the input. */
  lemma InputOrderIgnored(a: seq<Point>, b: seq<Point>, window: int, threshold: real, months: Option<int>)
    requires multiset(a) == multiset(b)
    ensures Flags(a, window, threshold) == Flags(b, window, threshold)
    ensures ComparePoints(a, months) == ComparePoints(b, months)
  {
    hide OrderedUnique, FlagsOf, CompareAll;
    OrderIgnored(a, b);
  }

  lemma {:induction false} FlagsOfPrefix(a: seq<Point>, b: seq<Point>, n: nat, window: nat, threshold: real)
    requires n <= |a| <= |b| && a == b[..|a|]
    ensures FlagsOf(a, n, window, threshold) == FlagsOf(b, n, window, threshold)
  {
    hide PointAnomaly;
    if n > 0 {
      FlagsOfPrefix(a, b, n - 1, window, threshold);
      assert History(a, n - 1, window) == History(b, n - 1, window);
    }
  }

  lemma {:induction false} FlagsExtend(b: seq<Point>, n: nat, k: nat, window: nat, threshold: real)
    requires n <= k <= |b|
    ensures FlagsOf(b, n, window, threshold) <= FlagsOf(b, k, window, threshold)
    decreases k
  {
    hide FlagAt;
    if n < k { FlagsExtend(b, n, k - 1, window, threshold); }
  }

  lemma SortedConcat(a: seq<Point>, b: seq<Point>)
    requires Sorted(a) && Sorted(b) && forall p, q :: p in a && q in b ==> Ordinal(p.period) < Ordinal(q.period)
    ensures Sorted(a + b)
  {
    hide Ordinal;
  }

  lemma LaterIsAppended(points: seq<Point>, later: seq<Point>)
    requires OrderedUnique(points + later).Ok?
    requires forall p, q :: p in points && q in later ==> Ordinal(p.period) < Ordinal(q.period)
    ensures OrderedUnique(points + later).value == SortPoints(points) + SortPoints(later)
  {
    hide Ordinal;
    OrderedIs(points + later);
    SortSorted(points);
    SortSorted(later);
    forall p, q | p in SortPoints(points) && q in SortPoints(later) ensures Ordinal(p.period) < Ordinal(q.period) {
      assert p in multiset(SortPoints(points)) && q in multiset(SortPoints(later));
    }
    SortedConcat(SortPoints(points), SortPoints(later));
    SortedAgree(OrderedUnique(points + later).value, SortPoints(points) + SortPoints(later));
  }

  lemma {:induction false} FaultFreeFrom(points: seq<Point>)
    requires forall p :: p in points ==> PointFault(p).None?
    ensures FirstFault(points).None?
  {
    hide PointFault;
    if points != [] { FaultFreeFrom(points[1..]); }
  }

  lemma EarlierAreFine(points: seq<Point>, later: seq<Point>)
    requires OrderedUnique(points + later).Ok?
    requires forall p, q :: p in points && q in later ==> Ordinal(p.period) < Ordinal(q.period)
    ensures var a, b := SortPoints(points), OrderedUnique(points + later).value;
      OrderedUnique(points) == Ok(a) && |a| <= |b| && a == b[..|a|]
  {
    LaterIsAppended(points, later);
    OrderedIs(points + later);
    var a, b := SortPoints(points), OrderedUnique(points + later).value;
    assert |a| <= |b| && a == b[..|a|];
    hide Ordinal, PointFault, SortPoints;
    assert Distinct(a);
    FaultFreeFrom(a);
  }

  /** Appending later periods only extends the flags. */
  lemma LaterOnlyExtends(points: seq<Point>, later: seq<Point>, window: int, threshold: real)
    requires Flags(points + later, window, threshold).Ok?
    requires forall p, q :: p in points && q in later ==> Ordinal(p.period) < Ordinal(q.period)
    ensures Flags(points, window, threshold).Ok?
    ensures Flags(points, window, threshold).value <= Flags(points + later, window, threshold).value
  {
    EarlierAreFine(points, later);
    var a, b := SortPoints(points), OrderedUnique(points + later).value;
    hide FlagsOf, SortPoints, OrderedUnique, Ordinal;
    FlagsOfPrefix(a, b, |a|, window, threshold);
    FlagsExtend(b, |a|, |b|, window, threshold);
  }
}
