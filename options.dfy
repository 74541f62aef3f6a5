/** An optional value: a JavaScript `undefined`/`null` or a missing storage entry is `None`. */
module Options {

  datatype Option<T> = None | Some(value: T)
}
