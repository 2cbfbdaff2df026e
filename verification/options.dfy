/** The optional value every accessor of the model returns where the Swift source returns an optional (`T?`). */
module Options {

  /** `None` stands for Swift's `nil`, `Some(v)` for a present value. */
  datatype Option<+T> = None | Some(value: T)
}
