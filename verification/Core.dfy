/** Result and option types shared by every model in this project. */
module Core {

  datatype Option<+T> = None | Some(value: T)

  /** A transaction either commits a value or rolls back with an error. */
  datatype Result<+T, +E> = Ok(value: T) | Err(error: E)

  function Max(a: real, b: real): real {
    if a >= b then a else b
  }

  function Min(a: real, b: real): real {
    if a <= b then a else b
  }
}
