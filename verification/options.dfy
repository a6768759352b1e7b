/** The value-or-nothing type used wherever the JavaScript code can yield
    `undefined` or stop with a TypeError. */
module Options {

  datatype Option<T> = None | Some(value: T)
}
