/** A value that may be absent. In this model `None` stands for the
    not-a-number the indicator library returns when it cannot compute a value. */
module Options {

  datatype Option<+T> = None | Some(value: T)

}
