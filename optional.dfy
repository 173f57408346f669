/** Swift's `Optional`, the only wrapper the model needs. */
module Optional {

  datatype Option<+T> = None | Some(value: T)
}
