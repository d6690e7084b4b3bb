/** The behaviours the repository's unit tests check, as lemmas about fixed inputs.
    Dates are epoch days: 20381 is 2025-10-20, so 20386 is 2025-10-25, and so on. */
module Scenarios {
  import opened Wrappers
  import Periods
  import BorrowingIds
  import EmployeeIds
  import EquipmentIds
  import EquipmentNames
  import opened Borrowings
  import opened Equipments

  const Oct09: Periods.Date := 20370
  const Oct10: Periods.Date := 20371
  const Oct15: Periods.Date := 20376
  const Oct17: Periods.Date := 20378
  const Oct18: Periods.Date := 20379
  const Oct19: Periods.Date := 20380
  const Oct20: Periods.Date := 20381
  const Oct23: Periods.Date := 20384
  const Oct25: Periods.Date := 20386
  const Oct26: Periods.Date := 20387
  const Oct28: Periods.Date := 20389
  const Oct30: Periods.Date := 20391

  function Eq001(): EquipmentIds.EquipmentId {
    assert "eq-001"[..3] == "eq-";
    EquipmentIds.EquipmentId("eq-001")
  }

  function Emp001(): EmployeeIds.EmployeeId {
    assert "emp-001"[..4] == "emp-";
    EmployeeIds.EmployeeId("emp-001")
  }

  function Brw(n: string): BorrowingIds.BorrowingId {
    assert ("brw-" + n)[..4] == "brw-";
    BorrowingIds.BorrowingId("brw-" + n)
  }

  function Projector(): EquipmentNames.EquipmentName {
    EquipmentNames.EquipmentName("Projector")
  }

  /** A borrowing of eq-001 by emp-001 for the given days. */
  function Loan(n: string, from: Periods.Date, to: Periods.Date): Borrowing
    requires from < to
  {
    Borrowings.Create(Brw(n), Emp001(), Eq001(), Periods.Period(from, to))
  }

  /** A period ending on the 25th overlaps one starting on the 25th, not one starting on the 26th. */
  lemma PeriodTouchingOverlaps()
    ensures Periods.From(Some(Oct20), Some(Oct25), Oct19).Ok?
    ensures Periods.From(Some(Oct25), Some(Oct30), Oct19).Ok?
    ensures Periods.From(Some(Oct26), Some(Oct30), Oct19).Ok?
    ensures Periods.Overlaps(Periods.From(Some(Oct20), Some(Oct25), Oct19).value,
                             Periods.From(Some(Oct25), Some(Oct30), Oct19).value)
    ensures !Periods.Overlaps(Periods.From(Some(Oct20), Some(Oct25), Oct19).value,
                              Periods.From(Some(Oct26), Some(Oct30), Oct19).value)
  {
  }

  /** A new borrowing stores its parts and is not returned; it can be returned once only. */
  lemma BorrowingLifecycle()
    ensures !Loan("001", Oct20, Oct25).isReturned
    ensures MarkAsReturned(Loan("001", Oct20, Oct25)).Ok?
    ensures MarkAsReturned(Loan("001", Oct20, Oct25)).value.isReturned
    ensures MarkAsReturned(MarkAsReturned(Loan("001", Oct20, Oct25)).value) == Err(AlreadyReturned)
  {
  }

  /** A new equipment item is available and has no borrowings. */
  lemma CreatedEquipment()
    ensures Equipments.Create(Eq001(), Projector()) == Equipment(Eq001(), Projector(), Available, [])
  {
  }

  /** Borrowing from today on makes the item BORROWED and records the borrowing. */
  lemma BorrowStartingToday()
    ensures Borrow(Equipments.Create(Eq001(), Projector()), Loan("001", Oct20, Oct25), Oct20)
      == Ok(Equipment(Eq001(), Projector(), Borrowed, [Loan("001", Oct20, Oct25)]))
  {
    assert [] + [Loan("001", Oct20, Oct25)] == [Loan("001", Oct20, Oct25)];
  }

  /** A borrowing that ends today also makes the item BORROWED. */
  lemma BorrowEndingToday()
    ensures Borrow(Equipments.Create(Eq001(), Projector()), Loan("001", Oct20, Oct25), Oct25)
      == Ok(Equipment(Eq001(), Projector(), Borrowed, [Loan("001", Oct20, Oct25)]))
  {
    assert [] + [Loan("001", Oct20, Oct25)] == [Loan("001", Oct20, Oct25)];
  }

  /** A future reservation is recorded but leaves the item AVAILABLE. */
  lemma BorrowInFuture()
    ensures Borrow(Equipments.Create(Eq001(), Projector()), Loan("001", Oct25, Oct30), Oct20)
      == Ok(Equipment(Eq001(), Projector(), Available, [Loan("001", Oct25, Oct30)]))
  {
    assert [] + [Loan("001", Oct25, Oct30)] == [Loan("001", Oct25, Oct30)];
  }

  /** An overlapping request is refused, citing the existing and the new borrowing. */
  lemma BorrowOverlapping()
    ensures Borrow(CreateForTest(Eq001(), Projector(), Borrowed, [Loan("001", Oct20, Oct25)]),
                   Loan("002", Oct23, Oct28), Oct20)
      == Err(PeriodOverlap(Loan("001", Oct20, Oct25), Loan("002", Oct23, Oct28)))
  {
    assert Borrowings.Overlaps(Loan("001", Oct20, Oct25), Loan("002", Oct23, Oct28));
  }

  /** A disposed item cannot be borrowed. */
  lemma BorrowDisposed()
    ensures Borrow(CreateForTest(Eq001(), Projector(), Disposed, []), Loan("001", Oct20, Oct25), Oct20)
      == Err(AlreadyDisposed)
  {
  }

  /** With only a past borrowing the item can be disposed, once. */
  lemma DisposeAfterPastBorrowing()
    ensures Dispose(CreateForTest(Eq001(), Projector(), Available, [Loan("001", Oct10, Oct15)]), Oct20)
      == Ok(Equipment(Eq001(), Projector(), Disposed, [Loan("001", Oct10, Oct15)]))
    ensures Dispose(Equipment(Eq001(), Projector(), Disposed, [Loan("001", Oct10, Oct15)]), Oct20)
      == Err(AlreadyDisposed)
  {
  }

  /** A current or a future borrowing blocks disposal. */
  lemma DisposeBlocked()
    ensures Dispose(CreateForTest(Eq001(), Projector(), Borrowed, [Loan("001", Oct18, Oct25)]), Oct20)
      == Err(CannotDisposeWhileBorrowed)
    ensures Dispose(CreateForTest(Eq001(), Projector(), Available, [Loan("001", Oct25, Oct30)]), Oct20)
      == Err(CannotDisposeWhileBorrowed)
  {
  }

  /** Returning the only current borrowing makes the item AVAILABLE again. */
  lemma ReturnCurrentBorrowing()
    ensures ReturnBorrowing(CreateForTest(Eq001(), Projector(), Borrowed, [Loan("001", Oct18, Oct25)]), Brw("001"), Oct20)
      == Ok(Equipment(Eq001(), Projector(), Available, []))
    ensures ReturnBorrowing(CreateForTest(Eq001(), Projector(), Borrowed, [Loan("001", Oct18, Oct25)]), Brw("002"), Oct20)
      == Err(BorrowingNotFound(Brw("002")))
  {
    WithoutExtremes([Loan("001", Oct18, Oct25)], Brw("001"));
    assert Brw("001") != Brw("002") by {
      assert Brw("001").value[6] != Brw("002").value[6];
    }
  }

  /** A missing or empty name is refused with the matching error. */
  lemma NameValidation()
    ensures EquipmentNames.From(None) == Err(EquipmentNames.Null)
    ensures EquipmentNames.From(Some("")) == Err(EquipmentNames.Empty(""))
    ensures EquipmentNames.From(Some("Projector")) == Ok(Projector())
  {
  }
}
