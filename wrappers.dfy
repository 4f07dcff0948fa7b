/** The optional values of the game state (`null` in the original records). */
module Wrappers {

  datatype Option<+T> = None | Some(value: T)
}
