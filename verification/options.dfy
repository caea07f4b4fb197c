/** The optional value used for the frame loop's "nothing yet" states
    (no preview pending, no previous pen position, no hand in view). */
module Options {

  datatype Option<+T> = None | Some(value: T)
}
