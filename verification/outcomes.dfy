/** Optional values and the outcome of a request to the back end. */
module Outcomes {

  datatype Option<+T> = None | Some(value: T)

  /** What an awaited API call produced: the response body, or a rejection
      carrying `err.response.data.message` ("" when the server sent none). */
  datatype ApiResult<+T> = Ok(value: T) | Failed(message: string)

  /** `err.response?.data?.message || fallback`: the text a failed call shows. */
  function ErrorText(message: string, fallback: string): (r: string)
    ensures message != "" ==> r == message
    ensures message == "" ==> r == fallback
  {
    if message != "" then message else fallback
  }
}
