/** Failure-carrying wrappers and the service's error kinds. */
module Common {

  datatype Option<+T> = None | Some(value: T) {
    /** The wrapped value, or `default` when there is none (Python's `dict.get(key, default)`). */
    function GetOr(default: T): T {
      match this
      case Some(v) => v
      case None => default
    }
  }

  datatype Result<+R, +E> = Ok(value: R) | Err(error: E)

  /** The failures a request can end with; each stands for one HTTP error the service raises. */
  datatype Error =
    | NotFound            // 404 "Conversation not found"
    | MediaUploadFailed   // 500 "Media upload failed: ..."
    | BackendUnavailable  // 502 "LLM API error: ..." (an httpx.HTTPError)
    | Unexpected          // 500 "Unexpected error: ..." (any other exception)
}
