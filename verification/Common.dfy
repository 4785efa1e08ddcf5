/** Result shapes and the numeric columns, shared by the models. */
module Common {
  datatype Option<+T> = None | Some(value: T)

  datatype Result<+T, +E> = Ok(value: T) | Err(error: E)

  /**
   * NUMERIC(28,8) and NUMERIC(28,12) both hold 28 digits: in units of the last place the column refuses
   * anything of this magnitude or more.
   */
  const NUMERIC_LIMIT: int := 10_000_000_000_000_000_000_000_000_000
}
