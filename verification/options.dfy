/** The optional values the model uses wherever the Ruby code may see `nil`. */
module Options {

  /** `None` stands for Ruby's `nil`; `Some(v)` for a value. Ruby counts only
      `nil` and `false` as false, and the collaborators modelled here answer a
      string or `nil`, so `Some(v)` is always truthy, even for an empty string. */
  datatype Option<+T> = None | Some(value: T)
}
