/** The `daterange` class of tganalyzer/html_export/__init__.py: a range()
    over calendar days. A date is its day number (`date.toordinal()`), so a
    `timedelta` of `step` days is the integer `step`. */
module DateRanges {
  import opened Values

  /** `daterange(start, stop, step)`; `stop` is not part of the range. */
  datatype DateRange = DateRange(start: int, stop: int, step: int)

  /** The loop test of `__iter__`. */
  predicate Continues(date: int, stop: int, step: int) {
    (step > 0 && date < stop) || (step < 0 && date > stop)
  }

  /** The dates `__iter__` yields from `date` on. */
  function DatesFrom(date: int, stop: int, step: int): seq<int>
    decreases if step > 0 then stop - date else if step < 0 then date - stop else 0
  {
    if Continues(date, stop, step) then [date] + DatesFrom(date + step, stop, step) else []
  }

  function Dates(r: DateRange): seq<int> {
    DatesFrom(r.start, r.stop, r.step)
  }

  /** `__iter__`: `date` starts at `start` and is stepped while the loop
      test holds; every date it passes is yielded. */
  method Iterate(r: DateRange) returns (ds: seq<int>)
    ensures ds == Dates(r)
  {
    ds := [];
    var date := r.start;
    while Continues(date, r.stop, r.step)
      invariant ds + DatesFrom(date, r.stop, r.step) == Dates(r)
      decreases if r.step > 0 then r.stop - date else date - r.stop
    {
      ds := ds + [date];
      date := date + r.step;
    }
  }

  /** `ceil(d / s)` of the true quotient when it is positive, else 0. The
      day counts are far below 2**52, so the float quotient's ceiling is
      the exact one. */
  function CeilQuotient(d: int, s: int): (n: nat)
    requires s != 0
    ensures n > 0 <==> (d > 0 && s > 0) || (d < 0 && s < 0)
  {
    if d > 0 && s > 0 then (d + s - 1) / s
    else if d < 0 && s < 0 then (-d - s - 1) / -s
    else 0
  }

  /** `__len__`: the quotient `(stop - start).days / step.days`, so a zero
      step raises ZeroDivisionError. */
  function Len(r: DateRange): Result<nat> {
    if r.step == 0 then Err(DivisionByZero)
    else Ok(CeilQuotient(r.stop - r.start, r.step))
  }

  /** `__getitem__`: IndexError unless `0 <= idx < len(self)`. */
  function GetItem(r: DateRange, idx: int): Result<int> {
    var n :- Len(r);
    if 0 <= idx < n then Ok(r.start + idx * r.step) else Err(IndexOutOfRange)
  }

  /** The iterated dates are `start + i * step`, in order, as many as the
      quotient's ceiling. */
  lemma {:induction false} DatesFromShape(date: int, stop: int, step: int)
    requires step != 0
    ensures var ds := DatesFrom(date, stop, step);
      && |ds| == CeilQuotient(stop - date, step)
      && forall i :: 0 <= i < |ds| ==> ds[i] == date + i * step
    decreases if step > 0 then stop - date else date - stop
  {
    if Continues(date, stop, step) {
      DatesFromShape(date + step, stop, step);
      CeilStep(stop - date, step);
      var ds := DatesFrom(date, stop, step);
      forall i | 0 <= i < |ds| ensures ds[i] == date + i * step {
        if i > 0 {
          assert ds[i] == DatesFrom(date + step, stop, step)[i - 1];
        }
      }
    }
  }

  /** One step less to go: the count drops by one. */
  lemma CeilStep(d: int, s: int)
    requires (s > 0 && d > 0) || (s < 0 && d < 0)
    ensures CeilQuotient(d - s, s) == CeilQuotient(d, s) - 1
  {
    if s > 0 {
      CeilStepUp(d, s);
    } else {
      CeilStepUp(-d, -s);
      assert CeilQuotient(d, s) == (-d + -s - 1) / -s;
      if d - s < 0 {
        assert CeilQuotient(d - s, s) == (-d - -s + -s - 1) / -s;
      }
    }
  }

  /** `CeilStep` for a positive step. */
  lemma CeilStepUp(d: int, s: int)
    requires s > 0 && d > 0
    ensures (d + s - 1) / s == (if d - s > 0 then (d - s + s - 1) / s else 0) + 1
  {
    var a := d - 1;
    DivShift(a, s);
    assert d + s - 1 == a + s;
    if d - s <= 0 {
      DivUnique(a, s, 0, a);
    } else {
      assert d - s + s - 1 == a;
    }
  }

  lemma DivShift(a: int, s: int)
    requires s > 0
    ensures (a + s) / s == a / s + 1
  {
    var q, m := a / s, a % s;
    assert a == q * s + m && 0 <= m < s;
    assert a + s == (q + 1) * s + m;
    DivUnique(a + s, s, q + 1, m);
  }

  /** The quotient is the only `q` leaving a remainder in `[0, s)`. */
  lemma DivUnique(a: int, s: int, q: int, m: int)
    requires s > 0 && 0 <= m < s && a == q * s + m
    ensures a / s == q
  {
    var q', m' := a / s, a % s;
    assert a == q' * s + m' && 0 <= m' < s;
    if q' < q {
      MulMono(q' + 1, q, s);
    } else if q < q' {
      MulMono(q + 1, q', s);
    }
  }

  lemma MulMono(x: int, y: int, s: int)
    requires x <= y && s > 0
    ensures x * s <= y * s
  {
    assert y * s - x * s == (y - x) * s;
  }

  /** `len()` counts the iterated dates, for any non-zero step. */
  lemma LenCountsDates(r: DateRange)
    requires r.step != 0
    ensures Len(r) == Ok(|Dates(r)|)
  {
    DatesFromShape(r.start, r.stop, r.step);
  }

  /** Indexing succeeds exactly on the iterated positions and gives the
      date iterated there. */
  lemma GetItemIsDate(r: DateRange, idx: int)
    ensures GetItem(r, idx).Ok? <==> r.step != 0 && 0 <= idx < |Dates(r)|
    ensures GetItem(r, idx).Ok? ==> GetItem(r, idx).value == Dates(r)[idx]
    ensures r.step == 0 ==> GetItem(r, idx) == Err(DivisionByZero) && Dates(r) == []
  {
    if r.step != 0 {
      DatesFromShape(r.start, r.stop, r.step);
    }
  }

  /** Every iterated date lies in the half-open range, in step order. */
  lemma DatesInRange(r: DateRange)
    ensures forall i :: 0 <= i < |Dates(r)| ==>
      (r.step > 0 ==> r.start <= Dates(r)[i] < r.stop) && (r.step < 0 ==> r.stop < Dates(r)[i] <= r.start)
  {
    if r.step != 0 {
      DatesFromShape(r.start, r.stop, r.step);
      var ds := Dates(r);
      forall i | 0 <= i < |ds|
        ensures (r.step > 0 ==> r.start <= ds[i] < r.stop) && (r.step < 0 ==> r.stop < ds[i] <= r.start)
      {
        CeilBound(r.stop - r.start, r.step, i);
      }
    }
  }

  /** Below the count, `i` steps stay short of the distance. */
  lemma CeilBound(d: int, s: int, i: nat)
    requires s != 0 && i < CeilQuotient(d, s)
    ensures s > 0 ==> 0 <= i * s < d
    ensures s < 0 ==> d < i * s <= 0
  {
    var t := if s > 0 then s else -s;
    var e := if s > 0 then d + s - 1 else -d - s - 1;
    assert CeilQuotient(d, s) == e / t;
    var q := e / t;
    assert q * t + e % t == e;
    MulMono(0, i, t);
    MulMono(i + 1, q, t);
    assert i * s == if s > 0 then i * t else -(i * t);
  }
}
