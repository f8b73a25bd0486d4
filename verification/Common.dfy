/** What every module of the model shares. */
module Common {

  /** An opaque identifier or digest. `Null` is the empty string, which every
      identifier and digest pattern of the source rejects: `Filled` is the part
      of those patterns that the logic depends on. */
  datatype Id = Null | Text(text: string)

  predicate Filled(id: Id) { id.Text? }

  datatype Option<+T> = None | Some(value: T)

  datatype Result<+T, +E> = Ok(value: T) | Err(error: E)
}
