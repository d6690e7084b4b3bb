/** `Borrowing`: one employee's reservation of one equipment item for one period.
    Only `create` and the id-based `equals` appear in the Borrowing class itself.
    The members marked RECONSTRUCTED are used by the equipment aggregate and by the
    borrowing tests but are not defined in that file; each one here delegates to
    `Period` or follows what the tests expect. */
module Borrowings {
  import opened Wrappers
  import opened Periods
  import opened BorrowingIds
  import opened EmployeeIds
  import opened EquipmentIds

  datatype Borrowing = Borrowing(
    id: BorrowingId,
    employeeId: EmployeeId,
    equipmentId: EquipmentId,
    period: Period,
    isReturned: bool)  // RECONSTRUCTED: false when created

  /** RECONSTRUCTED: the only failure of `markAsReturned`. */
  datatype BorrowingError = AlreadyReturned

  /** `Borrowing.create`: stores its arguments unchanged; a new borrowing is not returned. */
  function Create(id: BorrowingId, employeeId: EmployeeId, equipmentId: EquipmentId, period: Period): (b: Borrowing)
    ensures b.id == id && b.employeeId == employeeId && b.equipmentId == equipmentId && b.period == period
    ensures !b.isReturned
  {
    Borrowing(id, employeeId, equipmentId, period, false)
  }

  /** `equals`: two borrowings are the same entity when their ids are equal.
      The ids are compared by value here; see `BorrowingIds`. */
  predicate SameEntity(b: Borrowing, other: Borrowing) {
    b.id == other.id
  }

  /** RECONSTRUCTED `markAsReturned`: flags the borrowing as returned, once. */
  function MarkAsReturned(b: Borrowing): (r: Result<Borrowing, BorrowingError>)
    ensures b.isReturned ==> r == Err(AlreadyReturned)
    ensures !b.isReturned ==> r.Ok? && r.value.isReturned
    ensures r.Ok? ==> r.value == b.(isReturned := true)
  {
    if b.isReturned then Err(AlreadyReturned) else Ok(b.(isReturned := true))
  }

  /** RECONSTRUCTED `overlaps(Borrowing)`: the two periods overlap. */
  predicate Overlaps(b: Borrowing, other: Borrowing) {
    Periods.Overlaps(b.period, other.period)
  }

  /** RECONSTRUCTED `contains(date)`: the period contains `date`. */
  predicate Contains(b: Borrowing, date: Date) {
    Periods.Contains(b.period, date)
  }

  /** RECONSTRUCTED `isActiveOrFuture(today)`: the period is ongoing or still to come. */
  predicate IsActiveOrFuture(b: Borrowing, today: Date) {
    IsOngoingOrFuture(b.period, today)
  }

  /** Equality by id ignores every other attribute. */
  lemma SameEntityIgnoresAttributes(b: Borrowing, employeeId: EmployeeId, equipmentId: EquipmentId, period: Period)
    ensures SameEntity(b, Create(b.id, employeeId, equipmentId, period))
    ensures SameEntity(b, b.(isReturned := !b.isReturned))
  {
  }

  /** `equals` is an equivalence relation, as Kotlin's contract for `equals` demands. */
  lemma SameEntityIsEquivalence(a: Borrowing, b: Borrowing, c: Borrowing)
    ensures SameEntity(a, a)
    ensures SameEntity(a, b) ==> SameEntity(b, a)
    ensures SameEntity(a, b) && SameEntity(b, c) ==> SameEntity(a, c)
  {
  }

  /** Returning a borrowing keeps its identity, so it equals the original. */
  lemma MarkAsReturnedKeepsIdentity(b: Borrowing)
    requires MarkAsReturned(b).Ok?
    ensures SameEntity(b, MarkAsReturned(b).value)
    ensures MarkAsReturned(MarkAsReturned(b).value) == Err(AlreadyReturned)
  {
  }

  /** A borrowing that is under way on a day is still active on that day. */
  lemma ContainsImpliesActiveOrFuture(b: Borrowing, date: Date)
    ensures Contains(b, date) ==> IsActiveOrFuture(b, date)
  {
    ContainsImpliesOngoing(b.period, date);
  }

  /** The borrowing-level overlap is symmetric and every borrowing overlaps itself. */
  lemma OverlapsSymmetric(b: Borrowing, other: Borrowing)
    ensures Overlaps(b, other) <==> Overlaps(other, b)
    ensures Overlaps(b, b)
  {
    Periods.OverlapsSymmetric(b.period, other.period);
  }
}
