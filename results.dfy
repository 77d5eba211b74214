/** Optional values and results. A Go function that returns `error` is modelled
    as one returning `Option<string>`: `None` for a nil error, `Some(message)`
    otherwise; a Go `(T, error)` pair becomes a `Result<T>`. */
module Results {

  datatype Option<+T> = None | Some(value: T)

  datatype Result<+T> = Ok(value: T) | Err(msg: string)
}
