/** The errors the two configurators return. A `None` error stands for Go's nil. */
module Errors {
  import opened Values

  /** What a wrapped error says it was doing when its cause occurred. */
  datatype Context =
    | MergeClaimStatus    // errMergeClaimStatus
    | UpdateClaimStatus   // errUpdateClaimStatus
    | MergeClaimSpec      // errMergeClaimSpec
    | UpdateClaim         // errUpdateClaim

  datatype Error =
    | UnsupportedClaimSpec              // the claim's spec is not an object
    | ExternalNameMismatch              // claim and existing composite disagree on the external name
    | UnsupportedDstObject              // the merge destination is not an object
    | UnsupportedSrcObject              // the merge source is not an object
    | StoreError(reason: string)        // whatever the backing store returned
    | Wrapped(cause: Error, context: Context)

  datatype Result<+T> = Ok(value: T) | Err(error: Error)

  /** errors.Wrap: wrapping nil gives nil. */
  function Wrap(err: Option<Error>, context: Context): Option<Error>
  {
    match err
    case None => None
    case Some(e) => Some(Wrapped(e, context))
  }
}
