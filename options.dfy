/** The optional value used where the source has "nothing found". */
module Options {

  datatype Option<+T> = None | Some(value: T)

}
