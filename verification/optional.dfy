/** The usual Some/None datatype, used for values that may be absent:
    a file that may not exist, a deadline a context may not have. */
module Optional {

  datatype Option<+T> = None | Some(value: T)
}
