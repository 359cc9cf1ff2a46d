/** The program's error value (src/my_error.rs) and the `Result<(), MyError>`
    that every fallible operation returns. */
module MyErrors {

  /** A plain message wrapper; its text is never inspected by the painter. */
  datatype MyError = MyError(message: string)

  /** `Ok(())` or `Err(e)`. */
  datatype Outcome = Pass | Fail(error: MyError)
}
