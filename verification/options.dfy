/** The optional value used for the selector's memory slot, for a weather
    sample that may be missing, and for the result of a table lookup. */
module Options {

  datatype Option<+T> = None | Some(value: T)
}
