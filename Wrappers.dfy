/** The optional value used wherever the scraper has a Python `None`. */
module Wrappers {

  datatype Option<+T> = None | Some(value: T)
}
