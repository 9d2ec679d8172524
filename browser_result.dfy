/**
 * `BrowserResult<T>` (playwright/.../BrowserResult.kt): the outcome of looking up a page
 * or a locator, and `execute`, which runs an action on a successful lookup and turns
 * every way it can go wrong into text.
 */
module BrowserResults {
  import opened Wrappers
  import opened Text

  /** `Success(page)` may still carry a null payload; `Failure` carries its message verbatim. */
  datatype BrowserResult<T> = Success(page: Option<T>) | Failure(error: string)

  const NotInitialized := "Error: Page or element is not initialized"
  const ActionErrorPrefix := "Error executing action: "
  const UnknownError := "Unknown error"

  /** The three prefixes of the text protocol between the tools and the model. */
  predicate HasOutcomePrefix(s: string) {
    StartsWith(s, "Error:") || StartsWith(s, "Warning:") || StartsWith(s, "Success:")
  }

  /**
   * `BrowserResult.execute(action)`: a `Failure` answers with its own message and a null
   * payload with `NotInitialized`, without running the action; otherwise the action's
   * result, or `ActionErrorPrefix` followed by the message of what it threw.
   */
  function Execute<T>(r: BrowserResult<T>, action: T -> Act): (out: string)
    ensures r.Failure? ==> out == r.error
    ensures r.Success? && r.page.None? ==> out == NotInitialized
    ensures r.Success? && r.page.Some? && action(r.page.value).Returned? ==>
              out == action(r.page.value).value
    ensures r.Success? && r.page.Some? && action(r.page.value).Threw? ==>
              out == ActionErrorPrefix + action(r.page.value).msg.GetOr(UnknownError)
  {
    match r
    case Failure(e) => e
    case Success(None) => NotInitialized
    case Success(Some(p)) =>
      match action(p)
      case Returned(s) => s
      case Threw(m) => ActionErrorPrefix + m.GetOr(UnknownError)
  }

  /** On a `Failure` the action makes no difference: it is never run. */
  lemma ExecuteFailureIgnoresAction<T>(e: string, a1: T -> Act, a2: T -> Act)
    ensures Execute(Failure(e), a1) == Execute(Failure(e), a2) == e
  {
  }

  /**
   * When the action throws, `execute` does not produce one of the three protocol
   * prefixes: "Error executing action: " is not "Error:".
   */
  lemma ExecuteThrowIsUnprefixed<T>(p: T, action: T -> Act)
    requires action(p).Threw?
    ensures !HasOutcomePrefix(Execute(Success(Some(p)), action))
  {
    var out := Execute(Success(Some(p)), action);
    assert out[5] == ' ';
  }

  /** A `Failure` whose text has no protocol prefix reaches the caller without one. */
  lemma ExecuteFailureKeepsUnprefixedText<T>(e: string, action: T -> Act)
    requires !HasOutcomePrefix(e)
    ensures !HasOutcomePrefix(Execute(Failure(e), action))
  {
  }
}
