/** `BorrowingId`: a string identifier that must start with "brw-".
    The Kotlin class has a private constructor, so every `BorrowingId` that exists
    went through `From`; the subset type records that.
    Equality: the Kotlin class does not override `equals`, so `==` on two ids is
    reference identity. This model compares ids by their string value instead. */
module BorrowingIds {
  import opened Wrappers
  import opened Text

  const Prefix: string := "brw-"

  datatype RawBorrowingId = BorrowingId(value: string)

  type BorrowingId = id: RawBorrowingId | StartsWith(id.value, Prefix)
    witness BorrowingId(Prefix)

  datatype BorrowingIdError = Null | InvalidFormat(value: string)

  /** `BorrowingId.from`: rejects `null`, then any string without the prefix. */
  function From(value: Option<string>): (r: Result<BorrowingId, BorrowingIdError>)
    ensures value.None? ==> r == Err(Null)
    ensures value.Some? && !StartsWith(value.value, Prefix) ==> r == Err(InvalidFormat(value.value))
    ensures r.Ok? <==> value.Some? && StartsWith(value.value, Prefix)
    ensures r.Ok? ==> r.value.value == value.value
  {
    match value
    case None => Err(Null)
    case Some(s) =>
      if !StartsWith(s, Prefix) then Err(InvalidFormat(s))
      else Ok(BorrowingId(s))
  }

  /** Every id's string is accepted again and gives back the same id. */
  lemma FromValue(id: BorrowingId)
    ensures From(Some(id.value)) == Ok(id)
  {
  }

  /** The prefix is the only rule: the prefix alone, or followed by anything, is accepted. */
  lemma AcceptsAnySuffix(suffix: string)
    ensures From(Some(Prefix + suffix)).Ok?
    ensures From(Some(Prefix + suffix)).value.value == Prefix + suffix
  {
    StartsWithAnySuffix(Prefix, suffix);
  }

  /** The empty string is rejected and carried in the error. */
  lemma RejectsEmpty()
    ensures From(Some("")) == Err(InvalidFormat(""))
  {
  }
}
