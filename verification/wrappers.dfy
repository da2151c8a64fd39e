/** The optional-value wrapper used for the source's `?:` fields and `undefined` results. */
module Wrappers {

  /** `None` stands for a JavaScript `undefined`; `Some(v)` for a present value. */
  datatype Option<+T> = None | Some(value: T)
}
