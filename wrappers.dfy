/** The optional value used for the engine's `activeTask`, which the source
    keeps as either a task object or `null`. */
module Wrappers {

  datatype Option<+T> = None | Some(value: T)
}
