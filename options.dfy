/** The optional value used throughout the model: a missing search result,
    a playlist not fetched yet, a pagination that never reached its last page. */
module Options {
  datatype Option<+T> = None | Some(value: T)
}
