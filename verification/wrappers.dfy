/** Go's `error` values as the Civo provider produces or passes them on, and the
    two shapes in which they travel: an optional error (`nil` or not) and a
    value-or-error result. */
module Wrappers {

  /** The errors the provider returns. */
  datatype Error =
    /** The session carries no access token. */
    | MissingAccessToken
    /** The HTTP request or the decoding of its response body failed, with
        the message the requests package gave. */
    | RequestFailed(msg: string)
    /** A field read from the profile is absent or not a string. The error is
        the same whichever field was read. */
    | NotAString
    /** None of the user's permissions in the account is a required one;
        the error names the user and the account. */
    | NoSufficientPermissions(user: string, account: string)

  /** `None` plays Go's `nil` error. */
  datatype Option<+T> = None | Some(value: T)

  datatype Result<+T> = Ok(value: T) | Err(error: Error)
}
