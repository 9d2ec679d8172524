/** Option and the outcome of a call that may throw, shared by every module of the model. */
module Wrappers {

  /** A Kotlin nullable value: `None` stands for `null`. */
  datatype Option<+T> = None | Some(value: T) {
    /** Kotlin's elvis operator `x ?: default`. */
    function GetOr(default: T): T {
      match this
      case Some(v) => v
      case None => default
    }
  }

  /** A failure carrying a message, or a success carrying a value. */
  datatype Result<+T, +E> = Ok(value: T) | Err(error: E)

  /**
   * What happened when a Kotlin call ran: it returned a value, or it threw an
   * exception whose `message` may be null.
   */
  datatype Call<+T> = Returned(value: T) | Threw(msg: Option<string>)

  /** A call that returns a string, such as the lambdas handed to the safe wrappers. */
  type Act = Call<string>

  /** A call that returns `Unit`, such as `page.close()` or `page.navigate(url)`. */
  type Attempt = Call<()>
}
