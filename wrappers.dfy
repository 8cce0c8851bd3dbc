/** The optional values the visualizer stores where the source keeps `None`. */
module Wrappers {

  datatype Option<+T> = None | Some(value: T)
}
