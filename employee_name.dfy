/** `EmployeeName`: any non-empty string.
    The Kotlin class has a private constructor, so every `EmployeeName` went
    through `From`; the subset type records that. */
module EmployeeNames {
  import opened Wrappers

  datatype RawEmployeeName = EmployeeName(value: string)

  type EmployeeName = n: RawEmployeeName | n.value != []
    witness EmployeeName(" ")

  datatype EmployeeNameError = Null | Empty(value: string)

  /** `EmployeeName.from`: rejects `null` first, then the empty string. */
  function From(value: Option<string>): (r: Result<EmployeeName, EmployeeNameError>)
    ensures value.None? ==> r == Err(Null)
    ensures value == Some("") ==> r == Err(Empty(""))
    ensures r.Ok? <==> value.Some? && value.value != ""
    ensures r.Ok? ==> r.value.value == value.value
  {
    match value
    case None => Err(Null)
    case Some(s) =>
      if s == "" then Err(Empty(s))
      else Ok(EmployeeName(s))
  }

  /** Every name's string is accepted again and gives back the same name. */
  lemma FromValue(name: EmployeeName)
    ensures From(Some(name.value)) == Ok(name)
  {
  }

  /** Exactly one error kind applies to each rejected input. */
  lemma OneErrorPerInput(value: Option<string>)
    requires From(value).Err?
    ensures From(value).error.Null? <==> value.None?
    ensures From(value).error.Empty? <==> value == Some("")
  {
  }
}
