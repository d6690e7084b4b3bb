# Equipment lending domain model in Dafny

This project models the domain layer of a small equipment-lending application written
in Kotlin. An equipment item can be borrowed for a range of days, returned, or
disposed of. The model covers these parts:

- `Periods`: the `Period` value object. It is a validated, inclusive range of whole days with `from < to`. It provides the overlap, containment and "ongoing or future" tests.
- `Borrowings`: the `Borrowing` entity. It holds an id, an employee, an equipment item and a period, and it is compared by id.
- `Equipments`: the `Equipment` aggregate. It holds a status (AVAILABLE, BORROWED, DISPOSED) and an ordered list of borrowings. `Borrow`, `ReturnBorrowing` and `Dispose` each give back a new snapshot or a typed error.
- `BorrowingIds`, `EquipmentIds`, `EmployeeIds`: validators that check for a fixed prefix (`brw-`, `eq-`, `emp-`).
- `EquipmentNames`, `EmployeeNames`: validators that reject an empty string.
- `Lists`: the Kotlin collection operations the aggregate is written with (`find`, `any`/`none`, `filter`).
- `Scenarios`: the cases the repository's unit tests check, stated as lemmas about fixed inputs.

Everything in the source is immutable, so every entity is a Dafny `datatype` and every operation is a function.
A `LocalDate` is only ever compared, so it becomes an `int` epoch-day number (`Periods.Date`).
A Kotlin nullable argument becomes an `Option`.
A kotlin-result `Result` becomes `Wrappers.Result` with constructors `Ok` and `Err`.
Each value class with a private constructor (`Period`, the ids, the names) becomes a subset type.
So every `Period` has `from < to`, and every `BorrowingId` starts with `brw-`.

The `Borrowing` class in `src/main/kotlin/domain/Borrowing.kt` defines only `create`, `equals`, `hashCode` and `toString`.
Other code needs more members: `Equipment` calls `overlaps(Borrowing)`, `contains(date)` and `isActiveOrFuture(today)`, and the borrowing tests use `isReturned` and `markAsReturned`.
The model reconstructs these members and marks them RECONSTRUCTED in `borrowing.dfy`:
- the three predicates pass the question on to the borrowing's `Period`;
- `isReturned` is a field that is false at creation;
- `MarkAsReturned` fails with `AlreadyReturned` once the flag is set.

The status of an item is not always derived from its borrowings.
`Equipment.createForTest` can build any status with any list of borrowings.
`borrow` raises the status to BORROWED when the new borrowing covers today, and otherwise leaves it as it was.
Only `returnBorrowing` recomputes the status from the borrowings.
The model follows this code rather than the stronger claim that the status is always derived.
What is proved instead: `ReturnBorrowing` always derives the status, and `Borrow` keeps a derived status derived for the same day (`BorrowKeepsDerivedStatus`).
The "not before today" check on a `Period` is likewise made only when it is built, so it is not part of the `Period` type.

The property all three operations keep is that no two borrowings of an item overlap (`NoOverlaps`).
Overlap is inclusive, so a borrowing that ends on day D and one that starts on day D overlap.

## Model

| member | source | states |
|---|---|---|
| `BorrowingIds.From` | src/main/kotlin/domain/BorrowingId.kt:7-11 | null gives `Null`; a string without the `brw-` prefix gives `InvalidFormat` carrying that string; success iff the input starts with `brw-`, and the id holds the input unchanged |
| `BorrowingIds.FromValue` | src/main/kotlin/domain/BorrowingId.kt:5-11 | every existing id's string is accepted again and gives back the same id |
| `BorrowingIds.AcceptsAnySuffix` | src/main/kotlin/domain/BorrowingId.kt:9-10 | the prefix is the only rule: `brw-` alone or followed by anything is accepted as given |
| `BorrowingIds.RejectsEmpty` | src/main/kotlin/domain/BorrowingId.kt:9 | `""` gives `InvalidFormat("")` |
| `EquipmentIds.From` | src/domain/EquipmentId.kt:7-11 | null gives `Null`; a string without `eq-` gives `InvalidFormat` carrying it; success iff the input starts with `eq-`, value unchanged |
| `EquipmentIds.FromValue` | src/domain/EquipmentId.kt:5-11 | every existing id's string is accepted again and gives back the same id |
| `EquipmentIds.AcceptsAnySuffix` | src/domain/EquipmentId.kt:9-10 | `eq-` alone or followed by anything is accepted as given |
| `EquipmentIds.RejectsEmpty` | src/domain/EquipmentId.kt:9 | `""` is rejected with `InvalidFormat("")` |
| `EmployeeIds.From` | src/domain/EmployeeId.kt:7-11 | null gives `Null`; a string without `emp-` gives `InvalidFormat` carrying it; success iff the input starts with `emp-`, value unchanged |
| `EmployeeIds.FromValue` | src/domain/EmployeeId.kt:5-11 | every existing id's string is accepted again and gives back the same id |
| `EmployeeIds.AcceptsAnySuffix` | src/domain/EmployeeId.kt:9-10 | `emp-` alone or followed by anything is accepted as given |
| `EmployeeIds.RejectsEmpty` | src/domain/EmployeeId.kt:9 | `""` is rejected with `InvalidFormat("")` |
| `Text.StartsWithIffConcat` | src/main/kotlin/domain/BorrowingId.kt:9 | the prefix test holds exactly when the string is the prefix followed by some suffix |
| `Text.StartsWithAnySuffix` | src/domain/EquipmentId.kt:9 | the prefix followed by any suffix passes the prefix test |
| `Text.EmptyStartsWithNothing` | src/domain/EmployeeId.kt:9 | the empty string fails every non-empty prefix test |
| `EquipmentNames.From` | src/main/kotlin/domain/EquipmentName.kt:7-11 | null gives `Null`; `""` gives `Empty("")`; any non-empty string, whitespace included, is accepted unchanged |
| `EquipmentNames.FromValue` | src/main/kotlin/domain/EquipmentName.kt:5-11 | every existing name's string is accepted again and gives back the same name |
| `EquipmentNames.OneErrorPerInput` | src/main/kotlin/domain/EquipmentName.kt:8-9 | the null check comes first: a rejected input has exactly one error kind, `Null` iff null, `Empty` iff `""` |
| `EmployeeNames.From` | src/main/kotlin/domain/EmployeeName.kt:7-11 | null gives `Null`; `""` gives `Empty("")`; any non-empty string is accepted unchanged |
| `EmployeeNames.FromValue` | src/main/kotlin/domain/EmployeeName.kt:5-11 | every existing name's string is accepted again and gives back the same name |
| `EmployeeNames.OneErrorPerInput` | src/main/kotlin/domain/EmployeeName.kt:8-9 | a rejected input has exactly one error kind, `Null` iff null, `Empty` iff `""` |
| `Periods.From` | src/main/kotlin/domain/Period.kt:11-17 | first failure wins, in the order `FromIsNull`, `ToIsNull`, `InvalidRange(from, to)`, `PastDate(from, today)`; success iff both dates are present, `from < to` and `today <= from`, and the period carries exactly those dates |
| `Periods.FromRoundTrip` | src/main/kotlin/domain/Period.kt:6-17 | every period is accepted again, with the same dates, on any day not after its start |
| `Periods.InvalidRangeBeforePastDate` | src/main/kotlin/domain/Period.kt:14-15 | a range that is both inverted and in the past reports `InvalidRange` |
| `Periods.OverlapsSymmetric` | src/main/kotlin/domain/Period.kt:34-36 | `overlaps` gives the same answer with its arguments swapped |
| `Periods.OverlapsReflexive` | src/main/kotlin/domain/Period.kt:34-36 | every period overlaps itself |
| `Periods.OverlapsIffCommonDay` | src/main/kotlin/domain/Period.kt:29-36 | two periods overlap exactly when some day lies in both, so touching ends count |
| `Periods.OverlapsTouchingEndpoints` | src/main/kotlin/domain/Period.kt:34-36 | a period ending on day D overlaps one starting on D and not one starting on D + 1 |
| `Periods.ContainsImpliesOngoing` | src/main/kotlin/domain/Period.kt:25-27 | a period that contains a day is ongoing-or-future on that day |
| `Borrowings.Create` | src/main/kotlin/domain/Borrowing.kt:12-24 | stores id, employee, equipment and period unchanged; a new borrowing is not returned (reconstructed flag) |
| `Borrowings.SameEntityIgnoresAttributes` | src/main/kotlin/domain/Borrowing.kt:27-31 | two borrowings with the same id are equal whatever their employee, equipment, period or returned flag |
| `Borrowings.SameEntityIsEquivalence` | src/main/kotlin/domain/Borrowing.kt:27-31 | equality by id is reflexive, symmetric and transitive |
| `Borrowings.MarkAsReturned` | src/test/kotlin/domain/BorrowingTest.kt:43-80 | reconstructed: an unreturned borrowing becomes returned with nothing else changed; a returned one fails with `AlreadyReturned` |
| `Borrowings.MarkAsReturnedKeepsIdentity` | src/test/kotlin/domain/BorrowingTest.kt:62-80 | the returned borrowing equals the original by id, and returning it again fails |
| `Borrowings.OverlapsSymmetric` | src/main/kotlin/domain/Equipment.kt:39-41 | reconstructed borrowing-level overlap is symmetric and reflexive |
| `Borrowings.ContainsImpliesActiveOrFuture` | src/main/kotlin/domain/Equipment.kt:106-108 | reconstructed: a borrowing that contains a day is active-or-future on that day |
| `Lists.Find` | src/main/kotlin/domain/Equipment.kt:39-41 | `find` gives `None` iff no element matches, otherwise the first matching element in list order |
| `Lists.Any` | src/main/kotlin/domain/Equipment.kt:81-83 | `any` holds iff some element matches (`none` is its negation) |
| `Lists.Filter` | src/main/kotlin/domain/Equipment.kt:78 | `filter` keeps exactly the matching elements and never lengthens the list |
| `Lists.FilterConcat` | src/main/kotlin/domain/Equipment.kt:78 | `filter` works piecewise on a concatenation, so the kept elements stay in their original order |
| `Lists.FilterKeepsAll` | src/main/kotlin/domain/Equipment.kt:78 | a list whose every element matches is kept unchanged |
| `Lists.FilterDropsAll` | src/main/kotlin/domain/Equipment.kt:78 | a list whose no element matches is emptied |
| `Equipments.Create` | src/main/kotlin/domain/Equipment.kt:13-20 | a new item has the given id and name, status AVAILABLE and no borrowings |
| `Equipments.CreateForTest` | src/main/kotlin/domain/Equipment.kt:22-29 | any id, name, status and borrowing list can be combined |
| `Equipments.DerivedStatus` | src/main/kotlin/domain/Equipment.kt:81-88 | BORROWED iff some borrowing contains today, else AVAILABLE, never DISPOSED |
| `Equipments.Without` | src/main/kotlin/domain/Equipment.kt:78 | the result holds no borrowing with the id and every borrowing of the input without it |
| `Equipments.WithoutConcat` | src/main/kotlin/domain/Equipment.kt:78 | removal works piecewise, so the remaining borrowings keep their order |
| `Equipments.WithoutExtremes` | src/main/kotlin/domain/Equipment.kt:78 | removal changes nothing when no borrowing has the id and empties a list where all have it |
| `Equipments.Borrow` | src/main/kotlin/domain/Equipment.kt:32-64 | DISPOSED gives `AlreadyDisposed` first; an overlap gives `PeriodOverlap` citing the first overlapping borrowing in list order and the new one; success iff not disposed and nothing overlaps; success appends the borrowing, keeps id and name, and sets BORROWED iff the new period contains today, else keeps the old status |
| `Equipments.ReturnBorrowing` | src/main/kotlin/domain/Equipment.kt:66-98 | DISPOSED gives `AlreadyDisposed` first; `BorrowingNotFound(id)` iff no borrowing has the id; success removes every borrowing with the id, keeps id and name, and sets the status derived from what remains |
| `Equipments.Dispose` | src/main/kotlin/domain/Equipment.kt:100-121 | DISPOSED gives `AlreadyDisposed` first; otherwise `CannotDisposeWhileBorrowed` iff some borrowing ends on or after today; success iff neither, giving DISPOSED with id, name and borrowings unchanged |
| `Equipments.NoOverlapsCons` | src/main/kotlin/domain/Period.kt:34-36 | a list starting with x has no overlaps iff its tail has none and x overlaps nothing in it (uses symmetry) |
| `Equipments.NoOverlapsFilter` | src/main/kotlin/domain/Equipment.kt:78 | filtering a list without overlaps leaves a list without overlaps |
| `Equipments.BorrowPreservesNoOverlaps` | src/main/kotlin/domain/Equipment.kt:39-47 | a successful borrow keeps the borrowings pairwise non-overlapping |
| `Equipments.ReturnPreservesNoOverlaps` | src/main/kotlin/domain/Equipment.kt:77-78 | a successful return keeps the borrowings pairwise non-overlapping |
| `Equipments.DisposePreservesNoOverlaps` | src/main/kotlin/domain/Equipment.kt:113-120 | a successful disposal keeps the borrowings pairwise non-overlapping |
| `Equipments.DisposedRejectsEverything` | src/main/kotlin/domain/Equipment.kt:34-36 | on a DISPOSED item, borrow, return and dispose all fail with `AlreadyDisposed` |
| `Equipments.DisposeIsTerminal` | src/main/kotlin/domain/Equipment.kt:100-121 | after a successful disposal every later operation fails with `AlreadyDisposed` |
| `Equipments.BorrowNeverLowersStatus` | src/main/kotlin/domain/Equipment.kt:50-54 | a successful borrow keeps BORROWED and never yields DISPOSED |
| `Equipments.BorrowKeepsDerivedStatus` | src/main/kotlin/domain/Equipment.kt:50-54 | if the status was derived from the borrowings for today, it still is after a borrow on the same day |
| `Equipments.BorrowDoesNotRecompute` | src/main/kotlin/domain/Equipment.kt:50-54 | a BORROWED item with no borrowings stays BORROWED after a future reservation, although the derived status is AVAILABLE |
| `Equipments.ReplayPreservesNoOverlaps` | src/main/kotlin/domain/Equipment.kt:32-121 | no sequence of borrow, return and dispose calls, failed ones leaving the snapshot as it was, lets two borrowings overlap |
| `Equipments.ReplayOnDisposedIsNoOp` | src/main/kotlin/domain/Equipment.kt:34-36 | a disposed item is left unchanged by any sequence of operations |
| `Scenarios.PeriodTouchingOverlaps` | src/test/kotlin/domain/PeriodTest.kt:18-58 | a period ending on the 25th overlaps one starting on the 25th, not one starting on the 26th |
| `Scenarios.BorrowingLifecycle` | src/test/kotlin/domain/BorrowingTest.kt:19-80 | a new borrowing is not returned, can be returned once, and fails the second time |
| `Scenarios.CreatedEquipment` | src/test/kotlin/domain/EquipmentTest.kt:37-51 | a new item is AVAILABLE with no borrowings |
| `Scenarios.BorrowStartingToday` | src/test/kotlin/domain/EquipmentTest.kt:363-395 | borrowing from today gives BORROWED with the borrowing recorded |
| `Scenarios.BorrowEndingToday` | src/test/kotlin/domain/EquipmentTest.kt:397-429 | a borrowing that ends today gives BORROWED |
| `Scenarios.BorrowInFuture` | src/test/kotlin/domain/EquipmentTest.kt:329-361 | a future reservation is recorded and the item stays AVAILABLE |
| `Scenarios.BorrowOverlapping` | src/test/kotlin/domain/EquipmentTest.kt:241-293 | an overlapping request fails with `PeriodOverlap` citing both borrowings |
| `Scenarios.BorrowDisposed` | src/test/kotlin/domain/EquipmentTest.kt:202-239 | a disposed item cannot be borrowed |
| `Scenarios.DisposeAfterPastBorrowing` | src/test/kotlin/domain/EquipmentTest.kt:53-124 | with only a past borrowing disposal succeeds and keeps the borrowings; disposing again fails |
| `Scenarios.DisposeBlocked` | src/test/kotlin/domain/EquipmentTest.kt:126-200 | a current or future borrowing blocks disposal |
| `Scenarios.ReturnCurrentBorrowing` | src/main/kotlin/domain/Equipment.kt:66-98 | returning the only current borrowing gives AVAILABLE and an empty list; an unknown id gives `BorrowingNotFound` |
| `Scenarios.NameValidation` | src/test/kotlin/app/EquipmentAppServiceTest.kt:51-82 | a null name gives `Null`, `""` gives `Empty("")`, a real name is accepted |

## Left out

- Id equality: the Kotlin id classes do not override `equals`, so `==` on ids is reference identity. That affects `Borrowing.equals` and the lookups in `returnBorrowing`. The model compares ids by their string value, because object identity of immutable values cannot be expressed faithfully.
- `toString` and `hashCode` of `Borrowing`, `Period` and `BorrowingId` are formatting and hashing and state no rule.
- `EquipmentError.AlreadyBorrowed` is declared but no operation produces it. It is in the error datatype only.
- `src/domain/Period.kt` is an older copy of the period factory outside the compiled source set, without the predicates. The current `src/main/kotlin/domain/Period.kt` is modelled instead.
- `EquipmentAppService` and `IEquipmentRepository` are not part of this model. They are repository wiring and DTO mapping over an interface with no implementation.
- Calendar arithmetic (`LocalDate.of`, `LocalDate.now()`, `plusDays`) is not modelled. Dates are only compared, so an epoch-day integer stands for a date, and "today" is always a parameter.
- `Borrowings.MarkAsReturned`, `Borrowings.Overlaps`, `Borrowings.Contains`, `Borrowings.IsActiveOrFuture` and the `isReturned` field are reconstructed from their uses. The `Borrowing` class shown does not define them.
- The model does not try to reconcile `isReturned` with the removal done by `returnBorrowing`. The aggregate never calls `markAsReturned`, and the model keeps the two separate in the same way.
