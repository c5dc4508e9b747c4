/** The outbound calls of the provider, as far as its decisions depend on them. */
module Requests {
  import opened Wrappers

  /** One authenticated GET: the URL, and the access token from which the
      authorization header is made (the header format is not modelled). */
  datatype Request = Request(url: string, accessToken: string)

  /** What a remote call yields: the decoded body, or the failure message of
      the request or of the decoding. */
  datatype Response<+T> = Received(body: T) | Failed(msg: string)

  /** A decoded JSON document, down to the detail the provider inspects:
      objects, strings, and everything else lumped together. */
  datatype Json =
    | JObject(fields: map<string, Json>)
    | JString(s: string)
    | JOther

  /** `json.GetPath(key).String()` on a decoded document: the string stored
      under `key` of a top-level object, and an error in every other case. */
  function GetPathString(doc: Json, key: string): (field: Result<string>)
  {
    match doc
    case JObject(fields) =>
      if key in fields && fields[key].JString? then Ok(fields[key].s) else Err(NotAString)
    case _ => Err(NotAString)
  }
}
