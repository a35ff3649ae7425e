/** An optional value: the model's stand-in for JavaScript's `undefined`/`null`. */
module Optional {

  datatype Option<+T> = None | Some(value: T)

}
