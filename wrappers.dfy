/** Option and Result wrappers, and the errors the backend raises (utils/error.util.ts). */
module Wrappers {
  datatype Option<+T> = None | Some(value: T)

  /**
   * A thrown error. `ProviderError` is the typed error the provider adapters throw
   * (message, HTTP-like code, optional retry delay); every other throw is a `Failure`.
   */
  datatype Error =
    | ProviderError(message: string, code: int, retryAfterMs: Option<int>)
    | Failure(message: string)

  /** The outcome of an operation that may throw. */
  datatype Result<+T> = Ok(value: T) | Err(error: Error)

  /** `isProviderError`: the instanceof test the fallback decision uses. */
  predicate IsProviderError(e: Error) { e.ProviderError? }
}
