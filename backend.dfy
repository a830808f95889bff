/** The backend's answer to one `requests.get`, reduced to what the handlers
    branch on. `D` is what a dict resource carries. */
module Backend {
  import opened Wrappers

  /** One element of `Resources`: a dict, or any other JSON value together
      with its `str()`. */
  datatype Resource<D> = Record(record: D) | Other(repr: string)

  /** The decoded body: a dict with a `Resources` list, or any other JSON
      value together with its `str()`. */
  datatype Payload<D> = Listing(resources: seq<Resource<D>>) | NotListing(repr: string)

  /** `TimedOut`: `requests.Timeout`. `Failed`: any other `RequestException`
      raised by the request itself, with its `str()`. `Received`: an answer with
      its status code, the `str()` of the error `raise_for_status` would raise,
      and its body, `None` when it is not JSON. */
  datatype Response<D> =
    | TimedOut
    | Failed(error: string)
    | Received(status: int, errorText: string, body: Option<Payload<D>>)

  /** `raise_for_status` raises for client and server errors. */
  predicate IsHttpError(status: int) {
    400 <= status < 600
  }
}
