/** An optional value: JavaScript's `null`/`undefined` versus a present value. */
module Optional {

  datatype Option<+T> = None | Some(value: T)

}
