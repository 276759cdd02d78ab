/** A value that may be absent: PHP's `null` where the source uses it. */
module Optional {

  datatype Option<+T> = None | Some(value: T)

}
