/** `Equipment`: the aggregate root. It owns its borrowings as an ordered list and
    never changes in place: `Borrow`, `ReturnBorrowing` and `Dispose` each give a
    new snapshot or an error.
    Status is not kept derived from the borrowings as a rule: `CreateForTest` can
    build any combination, and `Borrow` only ever raises the status. What every
    operation does keep is that no two borrowings overlap (`NoOverlaps`). */
module Equipments {
  import opened Wrappers
  import opened Lists
  import Periods
  import opened BorrowingIds
  import opened EquipmentIds
  import opened EquipmentNames
  import opened Borrowings

  datatype EquipmentStatus = Available | Borrowed | Disposed

  datatype Equipment = Equipment(
    id: EquipmentId,
    name: EquipmentName,
    status: EquipmentStatus,
    borrowings: seq<Borrowing>)

  datatype EquipmentError =
    | AlreadyDisposed
    | AlreadyBorrowed  // declared by the source but produced by no operation
    | PeriodOverlap(existingBorrowing: Borrowing, newBorrowing: Borrowing)
    | BorrowingNotFound(borrowingId: BorrowingId)
    | CannotDisposeWhileBorrowed

  /** `Equipment.create`: a new item is available and has no borrowings. */
  function Create(id: EquipmentId, name: EquipmentName): (e: Equipment)
    ensures e.id == id && e.name == name
    ensures e.status == Available && e.borrowings == []
  {
    Equipment(id, name, Available, [])
  }

  /** `Equipment.createForTest`: any status together with any list of borrowings. */
  function CreateForTest(id: EquipmentId, name: EquipmentName, status: EquipmentStatus, borrowings: seq<Borrowing>): (e: Equipment)
    ensures e.id == id && e.name == name && e.status == status && e.borrowings == borrowings
  {
    Equipment(id, name, status, borrowings)
  }

  /** No two borrowings (at distinct positions) of the list overlap. */
  predicate NoOverlaps(bs: seq<Borrowing>) {
    forall i, j :: 0 <= i < |bs| && 0 <= j < |bs| && i != j ==> !Overlaps(bs[i], bs[j])
  }

  /** Some borrowing of the list is under way on `today`. */
  predicate SomeContains(bs: seq<Borrowing>, today: Periods.Date) {
    exists i :: 0 <= i < |bs| && Borrowings.Contains(bs[i], today)
  }

  /** The status that the borrowings alone give on `today`. */
  function DerivedStatus(bs: seq<Borrowing>, today: Periods.Date): (s: EquipmentStatus)
    ensures s != Disposed
    ensures s == Borrowed <==> SomeContains(bs, today)
  {
    if Any(bs, (b: Borrowing) => Borrowings.Contains(b, today)) then Borrowed else Available
  }

  /** The borrowings left once every borrowing with id `borrowingId` is taken out. */
  function Without(bs: seq<Borrowing>, borrowingId: BorrowingId): (r: seq<Borrowing>)
    ensures forall i :: 0 <= i < |r| ==> r[i] in bs && r[i].id != borrowingId
    ensures forall i :: 0 <= i < |bs| && bs[i].id != borrowingId ==> bs[i] in r
  {
    Filter(bs, (b: Borrowing) => b.id != borrowingId)
  }

  /** `Without` keeps the survivors in their original order: it works piecewise on a concatenation. */
  lemma WithoutConcat(a: seq<Borrowing>, b: seq<Borrowing>, borrowingId: BorrowingId)
    ensures Without(a + b, borrowingId) == Without(a, borrowingId) + Without(b, borrowingId)
  {
    FilterConcat(a, b, (x: Borrowing) => x.id != borrowingId);
  }

  /** `Without` leaves a list with no borrowing of that id unchanged, and empties
      one whose every borrowing has it. */
  lemma WithoutExtremes(bs: seq<Borrowing>, borrowingId: BorrowingId)
    ensures (forall i :: 0 <= i < |bs| ==> bs[i].id != borrowingId) ==> Without(bs, borrowingId) == bs
    ensures (forall i :: 0 <= i < |bs| ==> bs[i].id == borrowingId) ==> Without(bs, borrowingId) == []
  {
    if forall i :: 0 <= i < |bs| ==> bs[i].id != borrowingId {
      FilterKeepsAll(bs, (x: Borrowing) => x.id != borrowingId);
    }
    if forall i :: 0 <= i < |bs| ==> bs[i].id == borrowingId {
      FilterDropsAll(bs, (x: Borrowing) => x.id != borrowingId);
    }
  }

  /** `borrow`: refused on a disposed item, then refused citing the first existing
      borrowing (in list order) that overlaps the new one; otherwise the new
      borrowing is appended, and the status becomes BORROWED if it covers today. */
  function Borrow(e: Equipment, borrowing: Borrowing, today: Periods.Date): (r: Result<Equipment, EquipmentError>)
    ensures e.status == Disposed ==> r == Err(AlreadyDisposed)
    ensures e.status != Disposed && r.Err? ==>
      exists i :: 0 <= i < |e.borrowings| && r.error == PeriodOverlap(e.borrowings[i], borrowing)
        && Overlaps(e.borrowings[i], borrowing)
        && forall j :: 0 <= j < i ==> !Overlaps(e.borrowings[j], borrowing)
    ensures r.Ok? <==> e.status != Disposed && forall i :: 0 <= i < |e.borrowings| ==> !Overlaps(e.borrowings[i], borrowing)
    ensures r.Ok? ==> r.value.id == e.id && r.value.name == e.name && r.value.borrowings == e.borrowings + [borrowing]
    ensures r.Ok? ==> r.value.status == if Borrowings.Contains(borrowing, today) then Borrowed else e.status
  {
    if e.status == Disposed then Err(AlreadyDisposed)
    else
      match Find(e.borrowings, (existing: Borrowing) => Overlaps(existing, borrowing))
      case Some(existing) => Err(PeriodOverlap(existing, borrowing))
      case None =>
        var newStatus := if Borrowings.Contains(borrowing, today) then Borrowed else e.status;
        Ok(Equipment(e.id, e.name, newStatus, e.borrowings + [borrowing]))
  }

  /** `returnBorrowing`: refused on a disposed item, then refused when no borrowing
      has the id; otherwise every borrowing with that id is removed and the status
      is recomputed from what is left. */
  function ReturnBorrowing(e: Equipment, borrowingId: BorrowingId, today: Periods.Date): (r: Result<Equipment, EquipmentError>)
    ensures e.status == Disposed ==> r == Err(AlreadyDisposed)
    ensures e.status != Disposed && (forall i :: 0 <= i < |e.borrowings| ==> e.borrowings[i].id != borrowingId) ==>
      r == Err(BorrowingNotFound(borrowingId))
    ensures r.Ok? <==> e.status != Disposed && exists i :: 0 <= i < |e.borrowings| && e.borrowings[i].id == borrowingId
    ensures r.Ok? ==> r.value.id == e.id && r.value.name == e.name && r.value.borrowings == Without(e.borrowings, borrowingId)
    ensures r.Ok? ==> r.value.status == DerivedStatus(r.value.borrowings, today)
  {
    if e.status == Disposed then Err(AlreadyDisposed)
    else if !Any(e.borrowings, (b: Borrowing) => b.id == borrowingId) then Err(BorrowingNotFound(borrowingId))
    else
      var newBorrowings := Without(e.borrowings, borrowingId);
      Ok(Equipment(e.id, e.name, DerivedStatus(newBorrowings, today), newBorrowings))
  }

  /** `dispose`: refused on a disposed item, then refused while some borrowing is
      ongoing or in the future; otherwise the item becomes DISPOSED and keeps its
      borrowings. */
  function Dispose(e: Equipment, today: Periods.Date): (r: Result<Equipment, EquipmentError>)
    ensures e.status == Disposed ==> r == Err(AlreadyDisposed)
    ensures e.status != Disposed ==>
      (r == Err(CannotDisposeWhileBorrowed) <==> exists i :: 0 <= i < |e.borrowings| && e.borrowings[i].period.to >= today)
    ensures r.Ok? <==> e.status != Disposed && forall i :: 0 <= i < |e.borrowings| ==> e.borrowings[i].period.to < today
    ensures r.Ok? ==> r.value == Equipment(e.id, e.name, Disposed, e.borrowings)
  {
    if e.status == Disposed then Err(AlreadyDisposed)
    else if Any(e.borrowings, (b: Borrowing) => IsActiveOrFuture(b, today)) then Err(CannotDisposeWhileBorrowed)
    else Ok(e.(status := Disposed))
  }

  // ---------------------------------------------------------------------------
  // Non-overlap of the borrowings is kept by every operation

  /** A list starting with `x` has no overlaps iff its tail has none and `x` overlaps nothing in it. */
  lemma NoOverlapsCons(x: Borrowing, t: seq<Borrowing>)
    ensures NoOverlaps([x] + t) <==> NoOverlaps(t) && forall k :: 0 <= k < |t| ==> !Overlaps(x, t[k])
  {
    var s := [x] + t;
    if NoOverlaps(t) && forall k :: 0 <= k < |t| ==> !Overlaps(x, t[k]) {
      forall i, j | 0 <= i < |s| && 0 <= j < |s| && i != j
        ensures !Overlaps(s[i], s[j])
      {
        if i == 0 {
          assert s[j] == t[j - 1];
        } else if j == 0 {
          assert s[i] == t[i - 1];
          Borrowings.OverlapsSymmetric(x, t[i - 1]);
        } else {
          assert s[i] == t[i - 1] && s[j] == t[j - 1];
        }
      }
    }
    if NoOverlaps(s) {
      forall i, j | 0 <= i < |t| && 0 <= j < |t| && i != j
        ensures !Overlaps(t[i], t[j])
      {
        assert s[i + 1] == t[i] && s[j + 1] == t[j];
      }
      forall k | 0 <= k < |t|
        ensures !Overlaps(x, t[k])
      {
        assert s[0] == x && s[k + 1] == t[k];
      }
    }
  }

  /** Taking borrowings out of a list without overlaps leaves a list without overlaps. */
  lemma {:induction false} NoOverlapsFilter(s: seq<Borrowing>, p: Borrowing -> bool)
    requires NoOverlaps(s)
    ensures NoOverlaps(Filter(s, p))
  {
    if |s| > 0 {
      assert s == [s[0]] + s[1..];
      NoOverlapsCons(s[0], s[1..]);
      NoOverlapsFilter(s[1..], p);
      var rest := Filter(s[1..], p);
      if p(s[0]) {
        forall k | 0 <= k < |rest|
          ensures !Overlaps(s[0], rest[k])
        {
          var m :| 0 <= m < |s[1..]| && s[1..][m] == rest[k];
        }
        NoOverlapsCons(s[0], rest);
      }
    }
  }

  /** `Borrow` keeps the borrowings free of overlaps. */
  lemma BorrowPreservesNoOverlaps(e: Equipment, borrowing: Borrowing, today: Periods.Date)
    requires NoOverlaps(e.borrowings)
    requires Borrow(e, borrowing, today).Ok?
    ensures NoOverlaps(Borrow(e, borrowing, today).value.borrowings)
  {
    var bs := e.borrowings;
    var s := bs + [borrowing];
    forall i, j | 0 <= i < |s| && 0 <= j < |s| && i != j
      ensures !Overlaps(s[i], s[j])
    {
      if j == |bs| {
        assert s[i] == bs[i];
      } else if i == |bs| {
        assert s[j] == bs[j];
        Borrowings.OverlapsSymmetric(bs[j], borrowing);
      } else {
        assert s[i] == bs[i] && s[j] == bs[j];
      }
    }
  }

  /** `ReturnBorrowing` keeps the borrowings free of overlaps. */
  lemma ReturnPreservesNoOverlaps(e: Equipment, borrowingId: BorrowingId, today: Periods.Date)
    requires NoOverlaps(e.borrowings)
    requires ReturnBorrowing(e, borrowingId, today).Ok?
    ensures NoOverlaps(ReturnBorrowing(e, borrowingId, today).value.borrowings)
  {
    NoOverlapsFilter(e.borrowings, (b: Borrowing) => b.id != borrowingId);
  }

  /** `Dispose` keeps the borrowings free of overlaps. */
  lemma DisposePreservesNoOverlaps(e: Equipment, today: Periods.Date)
    requires NoOverlaps(e.borrowings)
    requires Dispose(e, today).Ok?
    ensures NoOverlaps(Dispose(e, today).value.borrowings)
  {
  }

  // ---------------------------------------------------------------------------
  // Status

  /** DISPOSED is absorbing: every operation on a disposed item fails with `AlreadyDisposed`. */
  lemma DisposedRejectsEverything(e: Equipment, borrowing: Borrowing, borrowingId: BorrowingId, today: Periods.Date)
    requires e.status == Disposed
    ensures Borrow(e, borrowing, today) == Err(AlreadyDisposed)
    ensures ReturnBorrowing(e, borrowingId, today) == Err(AlreadyDisposed)
    ensures Dispose(e, today) == Err(AlreadyDisposed)
  {
  }

  /** Once `Dispose` succeeds, every later operation fails with `AlreadyDisposed`. */
  lemma DisposeIsTerminal(e: Equipment, today: Periods.Date, borrowing: Borrowing, borrowingId: BorrowingId, later: Periods.Date)
    requires Dispose(e, today).Ok?
    ensures Borrow(Dispose(e, today).value, borrowing, later) == Err(AlreadyDisposed)
    ensures ReturnBorrowing(Dispose(e, today).value, borrowingId, later) == Err(AlreadyDisposed)
    ensures Dispose(Dispose(e, today).value, later) == Err(AlreadyDisposed)
  {
  }

  /** A successful `Borrow` never lowers the status: BORROWED stays BORROWED. */
  lemma BorrowNeverLowersStatus(e: Equipment, borrowing: Borrowing, today: Periods.Date)
    requires Borrow(e, borrowing, today).Ok?
    ensures e.status == Borrowed ==> Borrow(e, borrowing, today).value.status == Borrowed
    ensures Borrow(e, borrowing, today).value.status != Disposed
  {
  }

  /** If the status was the one derived from the borrowings on `today`, a `Borrow`
      on that same day leaves it derived. */
  lemma BorrowKeepsDerivedStatus(e: Equipment, borrowing: Borrowing, today: Periods.Date)
    requires e.status == DerivedStatus(e.borrowings, today)
    requires Borrow(e, borrowing, today).Ok?
    ensures Borrow(e, borrowing, today).value.status == DerivedStatus(e.borrowings + [borrowing], today)
  {
    var s := e.borrowings + [borrowing];
    if SomeContains(e.borrowings, today) {
      var i :| 0 <= i < |e.borrowings| && Borrowings.Contains(e.borrowings[i], today);
      assert s[i] == e.borrowings[i];
    }
    if Borrowings.Contains(borrowing, today) {
      assert s[|e.borrowings|] == borrowing;
    }
    if SomeContains(s, today) {
      var i :| 0 <= i < |s| && Borrowings.Contains(s[i], today);
      if i < |e.borrowings| {
        assert s[i] == e.borrowings[i];
      }
    }
  }

  /** `Borrow` does not recompute the status: an item marked BORROWED with no
      borrowings stays BORROWED after a future reservation. */
  lemma BorrowDoesNotRecompute(id: EquipmentId, name: EquipmentName, borrowing: Borrowing, today: Periods.Date)
    requires borrowing.period.from > today
    ensures Borrow(CreateForTest(id, name, Borrowed, []), borrowing, today).Ok?
    ensures Borrow(CreateForTest(id, name, Borrowed, []), borrowing, today).value.status == Borrowed
    ensures DerivedStatus([borrowing], today) == Available
  {
  }

  // ---------------------------------------------------------------------------
  // Successive operations

  /** One operation applied to the aggregate, with the day it is applied on. */
  datatype Command =
    | BorrowCommand(borrowing: Borrowing, today: Periods.Date)
    | ReturnCommand(borrowingId: BorrowingId, today: Periods.Date)
    | DisposeCommand(today: Periods.Date)

  function Apply(e: Equipment, c: Command): Result<Equipment, EquipmentError> {
    match c
    case BorrowCommand(b, today) => Borrow(e, b, today)
    case ReturnCommand(id, today) => ReturnBorrowing(e, id, today)
    case DisposeCommand(today) => Dispose(e, today)
  }

  /** The snapshot after running the commands in order; a failing command leaves
      the snapshot it was given as it was. */
  function Replay(e: Equipment, cs: seq<Command>): Equipment
    decreases |cs|
  {
    if cs == [] then e
    else
      var r := Apply(e, cs[0]);
      Replay(if r.Ok? then r.value else e, cs[1..])
  }

  /** No sequence of operations ever lets two borrowings overlap. */
  lemma {:induction false} ReplayPreservesNoOverlaps(e: Equipment, cs: seq<Command>)
    requires NoOverlaps(e.borrowings)
    ensures NoOverlaps(Replay(e, cs).borrowings)
    decreases |cs|
  {
    if cs != [] {
      var r := Apply(e, cs[0]);
      if r.Ok? {
        match cs[0]
        case BorrowCommand(b, today) => BorrowPreservesNoOverlaps(e, b, today);
        case ReturnCommand(id, today) => ReturnPreservesNoOverlaps(e, id, today);
        case DisposeCommand(today) => DisposePreservesNoOverlaps(e, today);
      }
      ReplayPreservesNoOverlaps(if r.Ok? then r.value else e, cs[1..]);
    }
  }

  /** A disposed item is left exactly as it is by any sequence of operations. */
  lemma {:induction false} ReplayOnDisposedIsNoOp(e: Equipment, cs: seq<Command>)
    requires e.status == Disposed
    ensures Replay(e, cs) == e
    decreases |cs|
  {
    if cs != [] {
      ReplayOnDisposedIsNoOp(e, cs[1..]);
    }
  }
}
