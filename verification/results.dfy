/** Option, Result and Outcome: the values that stand in for Python's `None`,
    a return value or a raised exception, and "returned normally or raised". */
module Results {

  datatype Option<+T> = None | Some(value: T)

  /** `Ok(v)`: the call returned `v`; `Err(e)`: it raised `e`. */
  datatype Result<+T, +E> = Ok(value: T) | Err(error: E)

  /** `Pass`: the call returned without a value; `Fail(e)`: it raised `e`. */
  datatype Outcome<+E> = Pass | Fail(error: E)
}
