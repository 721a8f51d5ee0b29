/** Small value wrappers shared by the model: a JavaScript value that may be
    null, and the two ways an HTTP request of the UI can settle. */
module Wrappers {

  /** `T | null`: the selected invoice, or a JSON field that may be absent. */
  datatype Option<+T> = None | Some(value: T)

  /** How an awaited request settles: it throws (transport error, non-2xx
      status), or it resolves with the response body's `data` member. */
  datatype Response<+T> = Failed | Succeeded(data: T)
}
