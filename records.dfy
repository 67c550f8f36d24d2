/** The medicine record as the backend stores it, the input the form submits,
    and the outcome of a remote call. Nullable columns are `Option`s. */
module Records {

  datatype Option<+T> = None | Some(value: T)

  /** JavaScript truthiness of a nullable string: `null` and `""` are both falsy. */
  predicate Present(o: Option<string>)
  {
    o.Some? && o.value != ""
  }

  /** `a || b` on strings: `""` is falsy. */
  function Or(a: string, b: string): (r: string)
    ensures r == a || r == b
    ensures r != "" <==> a != "" || b != ""
  {
    if a != "" then a else b
  }

  /** `o || fallback` for a nullable string, `null` being as falsy as `""`. */
  function OrElse(o: Option<string>, fallback: string): (r: string)
    ensures Present(o) ==> r == o.value
    ensures !Present(o) ==> r == fallback
  {
    Or(if o.Some? then o.value else "", fallback)
  }

  /** A row of the `medicines` collection. */
  datatype Medicine = Medicine(
    id: string,
    userId: string,
    name: string,
    dosage: string,
    scheduleTimes: seq<string>,
    expiryDate: Option<string>,
    barcode: Option<string>,
    description: Option<string>,
    usedFor: Option<string>,
    precautions: Option<string>,
    reminderEnabled: bool,
    createdAt: string,
    updatedAt: string)

  /** The fields a client supplies when it creates or edits a record. */
  datatype MedicineInput = MedicineInput(
    name: string,
    dosage: string,
    scheduleTimes: seq<string>,
    expiryDate: Option<string>,
    barcode: Option<string>,
    description: Option<string>,
    usedFor: Option<string>,
    precautions: Option<string>,
    reminderEnabled: bool)

  /** The outcome of one call to the record store: the returned data, or an error. */
  datatype Remote<+T> = Ok(data: T) | Err(message: string)
}
