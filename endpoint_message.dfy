/** `EndpointMessage`: what a handler receives — the request's bytes — and the
    reply helpers, each of which sends one response to the request's reply
    subject: raw bytes, plain text or JSON text with a matching content-type
    header, or a NATS standard error with a text and a code. */
module EndpointMessages {
  import opened Common
  import opened Text

  const CONTENT_TYPE: string := "Content-type"
  const OCTET_STREAM: string := "application/octet-stream"
  const TEXT_PLAIN: string := "text/plain"
  const APPLICATION_JSON: string := "application/json"

  /** The error code `ReplyError(text)` sends. */
  const DEFAULT_ERROR_CODE: int := 400

  /** A NATS `ServiceMsg`: the subject it arrived on, the subject to reply to,
      its payload and its headers. */
  datatype ServiceMsg = ServiceMsg(subject: string, replyTo: string, data: seq<byte>, header: Dict)

  /** One response published on the connection: a payload with headers, or a
      standard error. */
  datatype Response =
    | Respond(to: string, payload: seq<byte>, headers: Dict)
    | StandardError(to: string, text: string, code: int)

  /** What a requester can tell from a response it receives. */
  datatype ReplyKind = Binary | PlainText | Json | Unlabelled | ErrorReply(text: string, code: int)

  /** The requester's reading of a response: a standard error by its text and
      code, anything else by its content-type header. */
  function KindOf(r: Response): ReplyKind {
    match r
    case StandardError(_, text, code) => ErrorReply(text, code)
    case Respond(_, _, headers) =>
      match Lookup(headers, CONTENT_TYPE)
      case Some(t) =>
        if t == OCTET_STREAM then Binary
        else if t == TEXT_PLAIN then PlainText
        else if t == APPLICATION_JSON then Json
        else Unlabelled
      case None => Unlabelled
  }

  /** An `EndpointMessage` wraps the inbound message; the connection it replies
      on is the runner's one connection. */
  datatype EndpointMessage = EndpointMessage(msg: ServiceMsg)

  /** `Reply(byte[])`. */
  function ReplyBytes(m: EndpointMessage, response: seq<byte>): (r: Response)
    ensures r.Respond? && r.to == m.msg.replyTo
    ensures KindOf(r) == Binary && r.payload == response
    ensures r.headers.Keys == {CONTENT_TYPE}
  {
    Respond(m.msg.replyTo, response, map[CONTENT_TYPE := OCTET_STREAM])
  }

  /** `Reply(string)`: the text travels UTF-8 encoded. */
  function ReplyText(m: EndpointMessage, response: string): (r: Response)
    ensures r.Respond? && r.to == m.msg.replyTo
    ensures KindOf(r) == PlainText && r.payload == Utf8(response)
    ensures r.headers.Keys == {CONTENT_TYPE}
  {
    Respond(m.msg.replyTo, Utf8(response), map[CONTENT_TYPE := TEXT_PLAIN])
  }

  /** `Reply(object)`, given the indented JSON text the serializer produced for
      the object. */
  function ReplyJson(m: EndpointMessage, serialized: string): (r: Response)
    ensures r.Respond? && r.to == m.msg.replyTo
    ensures KindOf(r) == Json && r.payload == Utf8(serialized)
    ensures r.headers.Keys == {CONTENT_TYPE}
  {
    Respond(m.msg.replyTo, Utf8(serialized), map[CONTENT_TYPE := APPLICATION_JSON])
  }

  /** `ReplyError(errorText, errorCode)`. */
  function ReplyErrorWithCode(m: EndpointMessage, errorText: string, errorCode: int): (r: Response)
    ensures r.to == m.msg.replyTo
    ensures KindOf(r) == ErrorReply(errorText, errorCode)
  {
    StandardError(m.msg.replyTo, errorText, errorCode)
  }

  /** `ReplyError(errorText)`: a standard error with code 400. */
  function ReplyError(m: EndpointMessage, errorText: string): (r: Response)
    ensures r.to == m.msg.replyTo
    ensures KindOf(r) == ErrorReply(errorText, DEFAULT_ERROR_CODE)
  {
    ReplyErrorWithCode(m, errorText, DEFAULT_ERROR_CODE)
  }

  /** `Data`: the request's payload, unchanged. */
  function Data(m: EndpointMessage): (r: seq<byte>)
    ensures |r| == |m.msg.data| && forall i :: 0 <= i < |r| ==> r[i] == m.msg.data[i]
  {
    m.msg.data
  }

  /** The requester tells the reply helpers apart: no two of the four below
      yield the same kind of response, whatever they are given. `ReplyError`
      is covered through `ReplyErrorWithCode`, which it calls. */
  lemma ReplyKindsDistinct(m: EndpointMessage, bytes: seq<byte>, text: string, json: string,
                           errorText: string, errorCode: int)
    ensures var kinds := [KindOf(ReplyBytes(m, bytes)), KindOf(ReplyText(m, text)),
                          KindOf(ReplyJson(m, json)), KindOf(ReplyErrorWithCode(m, errorText, errorCode))];
      forall i, j :: 0 <= i < j < |kinds| ==> kinds[i] != kinds[j]
  {
  }
}
