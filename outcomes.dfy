/** Values shared by every check of sds-grader: Go's `error` results, the
    results of calls into the operating system, the network or a library,
    and HTTP responses. */
module Outcomes {

  /** An element of a Go `[]byte`. */
  type byte = x: int | 0 <= x < 256

  datatype Option<T> = None | Some(value: T)

  /** Every error the modelled code can build, one constructor per
      `fmt.Errorf` site, carrying the values its message formats. A `%v` of
      an error returned by a foreign call is kept as that error's text. */
  datatype Error =
      // common/checks.go (and the activity copies)
    | NetworkListFailed(cause: string)            // failed to list docker networks: %v
    | NetworkMissing(network: string)             // network %s does not exist
    | NetworkLookupFailed(cause: string)          // failed to get network name: %v
    | FirstNetworkUnknown(inner: Error)           // error checking container network: %v
    | NetworkUnknown(inner: Error)                // containers are on different network: %v
    | DifferentNetwork(container: string, current: string, first: string)
    | ComposeListFailed(cause: string)            // failed to run 'docker compose ls': %v
    | NoComposeProjects                           // no docker compose projects found
    | NoRunningComposeProjects                    // no running docker compose projects found
    | ContainerListFailed(cause: string)          // failed to list running containers: %v
    | ContainerMissing(container: string)         // container %s does not exist
    | WebappContentError(inner: Error)            // error checking todo webapp content: %v
    | WebappNotFound                              // todo webapp was not found
    | WebappTitleMissing                          // todo webapp title was not found
    | WebappScriptMissing                         // script not found in todo webapp
    | ScriptUrlError(inner: Error)                // error checking script URL: %v
    | ScriptFetchFailed(cause: string)            // (error prefix) failed to fetch URL: %v
    | ScriptNonOkStatus(code: int)                // (error prefix) received non-200 response code: %d
    | FetchFailed(cause: string)                  // failed to fetch URL: %v
    | NonOkStatus(code: int)                      // received non-200 response code: %d
    | Reported(message: string)                   // the caller's errorMsg, verbatim
    | MarshalFailed(cause: string)                // error marshalling JSON: %v
    | PostFailed(cause: string)                   // error sending POST request: %v
    | PostStatus(code: int)                       // POST request failed with status: %d
    | GetFailed(cause: string)                    // error sending GET request: %v
    | BodyReadFailed(cause: string)               // error reading response body: %v
    | WordNotFound(word: string, url: string)     // word '%s' not found in the response from %s
    | KubectlFailed(cause: string)                // failed to execute kubectl command: %v
    | KubectlAllFailed(cause: string)             // Failed to execute kubectl command: %v
    | NamespaceMissing(shown: string)             // Couldn't find namespace %v.
    | WordMissing(word: string)                   // Missing word: %s
    | NoIngress(namespace: string)                // No ingress found in namespace %s
    | EmptyPath                                   // The file path cannot be empty.
    | MissingSuffix(path: string, suffix: string) // ... does not have the required suffix ...
    | PathNotFound(path: string)                  // The file path '%s' does not exist.
      // common/reporting.go (and the activity copies)
    | BadKeyLength(length: int)                   // invalid encryption key length: %d ...
    | Base64Failed(cause: string)                 // failed to decode base64: %v
    | CipherFailed(cause: string)                 // failed to create cipher: %v
    | GcmFailed(cause: string)                    // failed to create GCM: %v
    | NonceOutOfRange(length: int, nonceSize: int) // Go runtime panic: slice bounds out of range
    | DecryptFailed(cause: string)                // failed to decrypt: %v
    | MessageMarshalFailed(cause: string)         // failed to marshal message: %v
    | PublishFailed(cause: string)                // failed to publish message: %v

  /** Go's `error` result of a check: nil, or a non-nil error. */
  datatype Outcome = Nil | Fail(error: Error)

  /** A value returned together with a Go error: `(v, nil)` or `(zero, err)`. */
  datatype Result<T> = Ok(value: T) | Err(error: Error)

  /** The result of a call the model does not interpret (a subprocess, an
      HTTP request, a library routine): a value, or an error of which only
      the text is kept. */
  datatype Call<T> = Returned(value: T) | Failed(text: string)

  /** An HTTP response in hand: its status code and its body. */
  datatype Response<B> = Response(statusCode: int, body: B)

  const StatusOK: int := 200
  const StatusCreated: int := 201
  const StatusNotFound: int := 404
}
