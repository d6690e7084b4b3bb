/** `Period`: an inclusive range of whole days. Calendar dates are only ever
    compared, so a date is its epoch-day number. The Kotlin constructor is private
    and reached only through `From`, so every `Period` has `from < to`; the
    "not before today" check is made once, at construction, and is not part of
    the type. */
module Periods {
  import opened Wrappers

  /** A calendar date as its epoch-day number. */
  type Date = int

  datatype RawPeriod = Period(from: Date, to: Date)

  type Period = p: RawPeriod | p.from < p.to witness Period(0, 1)

  datatype PeriodError =
    | FromIsNull
    | ToIsNull
    | InvalidRange(from: Date, to: Date)
    | PastDate(from: Date, today: Date)

  /** `Period.from`: the first failing check, in the order null `from`,
      null `to`, `from >= to`, `from < today`, decides the error. */
  function From(from: Option<Date>, to: Option<Date>, today: Date): (r: Result<Period, PeriodError>)
    ensures from.None? ==> r == Err(FromIsNull)
    ensures from.Some? && to.None? ==> r == Err(ToIsNull)
    ensures from.Some? && to.Some? && from.value >= to.value ==> r == Err(InvalidRange(from.value, to.value))
    ensures from.Some? && to.Some? && from.value < to.value && from.value < today ==>
      r == Err(PastDate(from.value, today))
    ensures r.Ok? <==> from.Some? && to.Some? && from.value < to.value && today <= from.value
    ensures r.Ok? ==> r.value.from == from.value && r.value.to == to.value
  {
    if from.None? then Err(FromIsNull)
    else if to.None? then Err(ToIsNull)
    else if from.value >= to.value then Err(InvalidRange(from.value, to.value))
    else if from.value < today then Err(PastDate(from.value, today))
    else Ok(Period(from.value, to.value))
  }

  /** `isOngoingOrFuture`: the period has not ended before `today`. */
  predicate IsOngoingOrFuture(p: Period, today: Date) {
    p.to >= today
  }

  /** `overlaps`: inclusive at both ends, so periods that touch on one day overlap. */
  predicate Overlaps(p: Period, other: Period) {
    p.from <= other.to && p.to >= other.from
  }

  /** `contains`: `date` lies in the period, both ends included. */
  predicate Contains(p: Period, date: Date) {
    date >= p.from && date <= p.to
  }

  /** A period that exists is accepted again, on any day not after its start. */
  lemma FromRoundTrip(p: Period, today: Date)
    requires today <= p.from
    ensures From(Some(p.from), Some(p.to), today) == Ok(p)
  {
  }

  /** A range that is both inverted and in the past reports the range, not the date. */
  lemma InvalidRangeBeforePastDate(from: Date, to: Date, today: Date)
    requires to <= from < today
    ensures From(Some(from), Some(to), today) == Err(InvalidRange(from, to))
  {
  }

  /** Overlap does not depend on the order of its arguments. */
  lemma OverlapsSymmetric(p: Period, q: Period)
    ensures Overlaps(p, q) <==> Overlaps(q, p)
  {
  }

  /** Every period overlaps itself. */
  lemma OverlapsReflexive(p: Period)
    ensures Overlaps(p, p)
  {
  }

  /** Two periods overlap exactly when some day lies in both. */
  lemma OverlapsIffCommonDay(p: Period, q: Period)
    ensures Overlaps(p, q) <==> exists d :: Contains(p, d) && Contains(q, d)
  {
    if Overlaps(p, q) {
      var d := if p.from <= q.from then q.from else p.from;
      assert Contains(p, d) && Contains(q, d);
    }
  }

  /** A period ending on day D overlaps one starting on D, but not one starting on D + 1. */
  lemma OverlapsTouchingEndpoints(p: Period, q: Period)
    ensures q.from == p.to ==> Overlaps(p, q)
    ensures q.from == p.to + 1 ==> !Overlaps(p, q)
  {
  }

  /** A period that contains a day is still ongoing on that day. */
  lemma ContainsImpliesOngoing(p: Period, date: Date)
    ensures Contains(p, date) ==> IsOngoingOrFuture(p, date)
  {
  }
}
