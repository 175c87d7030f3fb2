/**
 Error values of the fork engine. `fork`, `fork_post`, `copy_post_meta` and
 `copy_post_terms` catch their own failures and hand back a `WP_Error`
 instead of letting an exception escape; here that error is the `Err` case
 of `Result`.
 */
module Results {

  datatype Option<+T> = None | Some(value: T)

  /** A WordPress error object: a machine-readable code and a message. */
  datatype WpError = WpError(code: string, message: string)

  /** Either a value or the `WP_Error` an operation returned instead. */
  datatype Result<+T> = Ok(value: T) | Err(error: WpError)
}
