/** The conventional Some/None datatype, standing for the source's SQL `NULL` values and for lookups that can miss. */
module Optional {

  datatype Option<+T> = None | Some(value: T)
}
