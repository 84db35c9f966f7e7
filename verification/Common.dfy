/** Small datatypes shared by the models of the driver's components. */
module Common {
  datatype Option<T> = None | Some(value: T)

  /** A switch stored in a record.  (Records with many `bool` fields are costly
      to reason about, because every field becomes a case split.) */
  datatype Flag = Off | On

  function ToFlag(b: bool): Flag {
    if b then On else Off
  }

  function Min(a: int, b: int): int {
    if a < b then a else b
  }

  function Max(a: int, b: int): int {
    if a < b then b else a
  }
}
