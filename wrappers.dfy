/** The nullable-pointer idiom of the repository: `None` stands for `nullptr`. */
module Wrappers {

  datatype Option<+T> = None | Some(value: T)
}
