/**
 * The crate's error type (the `error_chain!` block of src/lib.rs) and the
 * three ways a startup routine can end: it returns, it returns an error
 * through `?`, or it panics.
 */
module Errors {

  /** An error reported by the registry SDK; its content is opaque here. */
  datatype SdkError = SdkError(message: string)

  /** The crate's `Error`: the two foreign links. */
  datatype Error = Io(message: string) | NacosError(cause: SdkError)

  /** Why a routine panicked. */
  datatype Panic =
    | LoadFailed(path: string)       // `load_config` could not read or decode a local file
    | FetchFailed(cause: SdkError)   // the config service answered `get_config` with an error
    | DecodeFailed(content: string)  // the fetched text is not an application configuration

  datatype Outcome<+T> = Returned(value: T) | Raised(error: Error) | Aborted(panic: Panic)
}
