/** Small shared vocabulary: optional values and the document store's identifiers. */
module Common {

  /** A value that may be absent, as a JSON body field or a store lookup may be. */
  datatype Option<+T> = None | Some(value: T)

  /** A document identifier handed out by the store (an ObjectId in hex text). */
  type ObjectId = string

  /** JavaScript truthiness of a string-valued request field: absent, null and "" are falsy. */
  predicate Present(field: Option<string>)
  {
    field.Some? && field.value != ""
  }
}
