/** Results of calls that may throw, and optional values. */
module Outcomes {

  /** Why a call threw, as its caller observes the exception. */
  datatype Failure =
    | Thrown(message: string)         // an Error the code itself constructs, with a fixed message
    | ProviderFault(request: string)  // the provider's own exception for that request, passed on unchanged
    | MalformedJson                   // JSON.parse rejected the string it was given
    | Unbound(variable: string)       // Python read a local variable that was never assigned

  /** A value, or the exception that took its place. */
  datatype Result<+T> = Ok(value: T) | Err(error: Failure)

  /** A JavaScript `undefined`-or-value, or a Python `None`-or-value. */
  datatype Option<+T> = None | Some(value: T)
}
