/** What a page handler does at the boundary to the REST backend: it either
    does nothing, rejects the input with an alert, or issues one request.
    The backend's answer is an input of the model. */
module Http {
  import opened Domain
  import Text

  datatype Verb = Get | Post | Put | Delete

  /** The backend's answer: success, or failure with the optional
      `error.response.data.error` text. */
  datatype Reply = Success | Failure(serverError: Option<string>)

  /** The backend's answer to a `GET`: the data, or a failure. */
  datatype ListReply<+T> = Loaded(data: T) | LoadFailed

  /** What a handler does with the user's input before any reply. */
  datatype Effect<+B> =
    | NoOp
    | Rejected(message: string)
    | Request(verb: Verb, endpoint: string, body: B)

  /** The path `${path}/${id}` of one record. */
  function WithId(path: string, id: Id): (r: string)
    ensures |r| > |path| + 1 && r[..|path|] == path && r[|path|] == '/'
    ensures forall i :: |path| < i < |r| ==> Text.IsDigit(r[i])
    ensures Text.ParseDigits(r[|path| + 1..]) == id
  {
    Text.NatToStringRoundTrip(id);
    path + "/" + Text.NatToString(id)
  }

  /** A record path names exactly one identifier: it follows from the digits
      after the '/' reading back as the id. */
  lemma WithIdInjective(path: string, a: Id, b: Id)
    ensures WithId(path, a) == WithId(path, b) ==> a == b
  {
  }

  /** `error.response?.data?.error || fallback`: the server's message when it
      sent a non-empty one, otherwise the page's fixed message. */
  function ErrorText(serverError: Option<string>, fallback: string): (msg: string)
    ensures serverError.Some? && serverError.value != "" ==> msg == serverError.value
    ensures (serverError.None? || serverError.value == "") ==> msg == fallback
  {
    if serverError.Some? && serverError.value != "" then serverError.value else fallback
  }
}
