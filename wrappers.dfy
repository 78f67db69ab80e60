/** The optional value used wherever the scrapers return `None` or test an object for truthiness. */
module Wrappers {

  datatype Option<+T> = None | Some(value: T)
}
