/** `EquipmentName`: any non-empty string (whitespace-only strings included).
    The Kotlin class has a private constructor, so every `EquipmentName` went
    through `From`; the subset type records that. */
module EquipmentNames {
  import opened Wrappers

  datatype RawEquipmentName = EquipmentName(value: string)

  type EquipmentName = n: RawEquipmentName | n.value != []
    witness EquipmentName(" ")

  datatype EquipmentNameError = Null | Empty(value: string)

  /** `EquipmentName.from`: rejects `null` first, then the empty string. */
  function From(value: Option<string>): (r: Result<EquipmentName, EquipmentNameError>)
    ensures value.None? ==> r == Err(Null)
    ensures value == Some("") ==> r == Err(Empty(""))
    ensures r.Ok? <==> value.Some? && value.value != ""
    ensures r.Ok? ==> r.value.value == value.value
  {
    match value
    case None => Err(Null)
    case Some(s) =>
      if s == "" then Err(Empty(s))
      else Ok(EquipmentName(s))
  }

  /** Every name's string is accepted again and gives back the same name. */
  lemma FromValue(name: EquipmentName)
    ensures From(Some(name.value)) == Ok(name)
  {
  }

  /** Exactly one error kind applies to each rejected input. */
  lemma OneErrorPerInput(value: Option<string>)
    requires From(value).Err?
    ensures From(value).error.Null? <==> value.None?
    ensures From(value).error.Empty? <==> value == Some("")
  {
  }
}
