/** The optional value used for absent JSON members and failed parses. */
module Optional {

  datatype Option<+T> = None | Some(value: T)
}
