/** Swift's optional values (`T?`, `T!`) as a datatype. */
module Wrappers {

  datatype Option<T> = None | Some(value: T)

}
