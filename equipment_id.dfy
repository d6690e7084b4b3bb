/** `EquipmentId`: a string identifier that must start with "eq-".
    The Kotlin class has a private constructor, so every `EquipmentId` that exists
    went through `From`; the subset type records that.
    Equality: the Kotlin class does not override `equals`, so `==` on two ids is
    reference identity. This model compares ids by their string value instead. */
module EquipmentIds {
  import opened Wrappers
  import opened Text

  const Prefix: string := "eq-"

  datatype RawEquipmentId = EquipmentId(value: string)

  type EquipmentId = id: RawEquipmentId | StartsWith(id.value, Prefix)
    witness EquipmentId(Prefix)

  datatype EquipmentIdError = Null | InvalidFormat(value: string)

  /** `EquipmentId.from`: rejects `null`, then any string without the prefix. */
  function From(value: Option<string>): (r: Result<EquipmentId, EquipmentIdError>)
    ensures value.None? ==> r == Err(Null)
    ensures value.Some? && !StartsWith(value.value, Prefix) ==> r == Err(InvalidFormat(value.value))
    ensures r.Ok? <==> value.Some? && StartsWith(value.value, Prefix)
    ensures r.Ok? ==> r.value.value == value.value
  {
    match value
    case None => Err(Null)
    case Some(s) =>
      if !StartsWith(s, Prefix) then Err(InvalidFormat(s))
      else Ok(EquipmentId(s))
  }

  /** Every id's string is accepted again and gives back the same id. */
  lemma FromValue(id: EquipmentId)
    ensures From(Some(id.value)) == Ok(id)
  {
  }

  /** The prefix is the only rule: the prefix alone, or followed by anything, is accepted. */
  lemma AcceptsAnySuffix(suffix: string)
    ensures From(Some(Prefix + suffix)).Ok?
    ensures From(Some(Prefix + suffix)).value.value == Prefix + suffix
  {
    StartsWithAnySuffix(Prefix, suffix);
  }

  /** The empty string is rejected and carried in the error. */
  lemma RejectsEmpty()
    ensures From(Some("")) == Err(InvalidFormat(""))
  {
  }
}
