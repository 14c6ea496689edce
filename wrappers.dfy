/** Swift's `Optional`: a cell with no mark, a game with no winner yet. */
module Wrappers {

  datatype Option<+T> = None | Some(value: T)
}
