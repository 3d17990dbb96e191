/** The optional value used for the session's mode (null until chosen), for the
    stored snapshot (absent until first saved) and for a parse that finds no number. */
module Options {
  datatype Option<+T> = None | Some(value: T)
}
