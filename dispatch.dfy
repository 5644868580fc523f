/** The decision `rootHandler` takes for one request: answer at once, open a
    connection, or read from a registered one. It depends on the request, on
    what the JSON decoder makes of its body, and on the registry's contents;
    carrying the decision out is Server.Handle's job. */
module Dispatch {
  import opened Protocol

  const StatusFound: nat := 302
  const StatusOK: nat := 200
  const StatusBadParam: nat := 400
  const StatusNotFound: nat := 404

  const InvalidJson := "Invalid JSON in body parameter. "

  datatype Action =
    | Reply(response: Response)
    | Open(host: string, port: uint16)
    | Read(info: ConnectionInfo)

  /** True when the request takes the form-processing path: every verb but
      GET does, whether or not it can carry a PostForm. */
  predicate NotGet(req: Request) {
    req.verb != "GET"
  }

  /** The verbs whose form-encoded body fills the PostForm. */
  predicate HasPostForm(verb: string) {
    verb == "POST" || verb == "PUT" || verb == "PATCH"
  }

  /** A request as the HTTP library hands it over: a verb without a PostForm
      has empty `action` and `body` values. */
  predicate PostFormOnly(req: Request) {
    !HasPostForm(req.verb) ==> req.action == "" && req.body == ""
  }

  function Route(req: Request, decode: Decoder, connections: map<uint32, ConnectionInfo>): (a: Action)
    // Only a non-GET "open" with a decodable body, a host and a non-zero port dials.
    ensures a.Open? <==>
              && NotGet(req) && req.action == "open"
              && decode.open(req.body).Decoded?
              && decode.open(req.body).value.host != ""
              && decode.open(req.body).value.port != 0
    ensures a.Open? ==> a.host == decode.open(req.body).value.host && a.port == decode.open(req.body).value.port
    // Only a non-GET "read" of a registered id reads, and it reads that id's entry.
    ensures a.Read? <==>
              && NotGet(req) && req.action == "read"
              && decode.read(req.body).Decoded?
              && decode.read(req.body).value.connectionId in connections
    ensures a.Read? ==> a.info == connections[decode.read(req.body).value.connectionId]
    // Every immediate answer is a redirect, a bad request or a not-found.
    ensures a.Reply? ==> a.response.status in {StatusFound, StatusBadParam, StatusNotFound}
  {
    if req.verb == "GET" && req.path == "/" then
      Reply(Redirect(StatusFound, "/admin/"))
    else if req.verb == "GET" then
      Reply(Error(StatusNotFound, "404 page not found"))
    else if req.action == "open" then
      match decode.open(req.body)
      case DecodeError(e) => Reply(Error(StatusBadParam, InvalidJson + e))
      case Decoded(o) =>
        if |o.host| == 0 then Reply(Error(StatusBadParam, "host parameter not specified"))
        else if o.port == 0 then Reply(Error(StatusBadParam, "port parameter not specified"))
        else Open(o.host, o.port)
    else if req.action == "read" then
      match decode.read(req.body)
      case DecodeError(e) => Reply(Error(StatusBadParam, InvalidJson + e))
      case Decoded(r) =>
        if r.connectionId !in connections then Reply(Error(StatusNotFound, "Unknown Connection Id."))
        else Read(connections[r.connectionId])
    else
      Reply(Error(StatusBadParam, "Unknown Command"))
  }

  /** GET requests never reach the tunnel: "/" is redirected to the admin
      page and every other path is not found, whatever the form says. */
  lemma GetRouting(req: Request, decode: Decoder, connections: map<uint32, ConnectionInfo>)
    requires req.verb == "GET"
    ensures req.path == "/" ==> Route(req, decode, connections) == Reply(Redirect(302, "/admin/"))
    ensures req.path != "/" ==> Route(req, decode, connections) == Reply(Error(404, "404 page not found"))
  {
  }

  /** The checks of an "open" run in this order, and the first that fails
      decides the 400 answer: the body must decode, then the host must be
      non-empty, then the port must be non-zero. */
  lemma OpenValidationOrder(req: Request, decode: Decoder, connections: map<uint32, ConnectionInfo>)
    requires NotGet(req) && req.action == "open"
    ensures decode.open(req.body).DecodeError? ==>
              Route(req, decode, connections) == Reply(Error(400, InvalidJson + decode.open(req.body).message))
    ensures decode.open(req.body).Decoded? && decode.open(req.body).value.host == "" ==>
              Route(req, decode, connections) == Reply(Error(400, "host parameter not specified"))
    ensures decode.open(req.body).Decoded? && decode.open(req.body).value.host != ""
              && decode.open(req.body).value.port == 0 ==>
              Route(req, decode, connections) == Reply(Error(400, "port parameter not specified"))
  {
  }

  /** A "read" of an id the registry does not hold is answered 404, and one
      whose body does not decode is answered 400. */
  lemma ReadOfUnknownId(req: Request, decode: Decoder, connections: map<uint32, ConnectionInfo>)
    requires NotGet(req) && req.action == "read"
    ensures decode.read(req.body).DecodeError? ==>
              Route(req, decode, connections) == Reply(Error(400, InvalidJson + decode.read(req.body).message))
    ensures decode.read(req.body).Decoded? && decode.read(req.body).value.connectionId !in connections ==>
              Route(req, decode, connections) == Reply(Error(404, "Unknown Connection Id."))
  {
  }

  /** Any action other than "open" and "read" is answered 400 "Unknown Command". */
  lemma UnknownCommand(req: Request, decode: Decoder, connections: map<uint32, ConnectionInfo>)
    requires NotGet(req) && req.action != "open" && req.action != "read"
    ensures Route(req, decode, connections) == Reply(Error(400, "Unknown Command"))
  {
  }

  /** A verb other than GET, POST, PUT or PATCH (DELETE, HEAD, ...) carries no
      PostForm, so even with `action=open` in its query or body it is answered
      400 "Unknown Command" and never dials or reads. */
  lemma NonFormVerbIsUnknownCommand(req: Request, decode: Decoder, connections: map<uint32, ConnectionInfo>)
    requires PostFormOnly(req) && req.verb != "GET" && !HasPostForm(req.verb)
    ensures Route(req, decode, connections) == Reply(Error(400, "Unknown Command"))
  {
  }
}
