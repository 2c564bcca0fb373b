/**
 * What a handler writes back. Every handler renders the service's response as
 * JSON with the response's own status; a JSON bind failure is answered with 400
 * before the service is called. The router (src/cmd/main.go) installs no
 * recovery middleware, so a panic in a service ends the request with the
 * connection closed and nothing written.
 */
module Gin {
  import opened Envelope

  const MsgBind: string := "Error occured while binding JSON"

  /** A JSON body: a service response, or the `gin.H{"error", "message"}` of a bind failure. */
  datatype Body = EnvelopeBody(response: Response) | BindErrorBody(error: string, message: string)

  datatype HttpReply = Written(status: int, body: Body) | ConnectionDropped

  /** `c.JSON(response.Status, response)` after a service call, taken the same on both of its paths. */
  function Render(o: Outcome): (r: HttpReply)
    ensures o.Reply? <==> r.Written?
    ensures r.Written? ==> r.status == o.response.status && r.body == EnvelopeBody(o.response)
  {
    match o
    case Reply(response, _) => Written(response.status, EnvelopeBody(response))
    case Panic(_) => ConnectionDropped
  }

  /** The reply to a body that does not bind. */
  function BindFailed(err: string): (r: HttpReply)
    ensures r.Written? && r.status == StatusBadRequest && r.body == BindErrorBody(err, MsgBind)
  {
    Written(StatusBadRequest, BindErrorBody(err, MsgBind))
  }

  /** The status written is the one the body carries: the response's own, or 400 for a bind failure. */
  predicate Mirrored(r: HttpReply)
  {
    r.Written? ==>
      (r.body.EnvelopeBody? && r.status == r.body.response.status) ||
      (r.body.BindErrorBody? && r.status == StatusBadRequest)
  }
}
