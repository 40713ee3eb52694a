/** Failure-carrying datatypes shared by the client and the cache layer. */
module Wrappers {

  datatype Option<+T> = None | Some(value: T)

  /** The exceptions the client raises, one constructor per throw site. */
  datatype Error =
    | NoCredentials      // Tumblr_Exception: neither the explicit triple nor the three constants
    | CacheDirUnusable   // Tumblr_Exception: cache directory missing or not writable
    | MissingTransport   // Exception: the RequestCore class is not loaded
    | MalformedResponse  // SimpleXMLElement rejects the response body

  datatype Result<+T> = Ok(value: T) | Err(error: Error)
}
