/** The two failure-carrying shapes the model uses in place of the source's `bool`
    returns and unset out-parameters. */
module Options {

  datatype Option<T> = None | Some(value: T)

  datatype Result<T, E> = Success(value: T) | Failure(error: E)
}
