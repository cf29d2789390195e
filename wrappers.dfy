/** An optional value: `None` stands for a JavaScript `undefined` (and, for
    a request field, for any falsy non-string value). */
module Wrappers {

  datatype Option<+T> = None | Some(value: T)

}
