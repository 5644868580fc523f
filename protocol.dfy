/** Values exchanged by the tunnel server: the Go structs of server.go, the
    fixed-width integers they are built from, and the abstract results of the
    calls the server makes into the network and JSON libraries. */
module Protocol {

  /** Go's uint32, uint16 and byte. */
  newtype uint32 = x: int | 0 <= x < 0x1_0000_0000
  newtype uint16 = x: int | 0 <= x < 0x1_0000
  newtype byte = x: int | 0 <= x < 0x100

  /** The size of the buffer a read request is served from. */
  const BufferSize: nat := 512

  /** The result of `json.Unmarshal` into a struct of type T: either the
      struct (absent fields keep their zero value) or the decoder's error text. */
  datatype Decoded<T> = Decoded(value: T) | DecodeError(message: string)

  /** An established TCP socket, as an opaque handle. */
  datatype Conn = Conn(handle: nat)

  datatype OpenRequest = OpenRequest(host: string, port: uint16, username: string, password: string)

  datatype OpenResponse = OpenResponse(success: bool, connectionId: uint32, errorDesc: string)

  datatype ReadRequest = ReadRequest(connectionId: uint32)

  /** One registry entry: the id it was registered under and its socket. */
  datatype ConnectionInfo = ConnectionInfo(connectionId: uint32, connection: Conn)

  /** The outcome of `net.Dial("tcp", address)`. */
  datatype DialResult = Dialed(conn: Conn) | DialError(message: string)

  /** What one `Read` into a buffer of BufferSize bytes may hand back: never
      more bytes than the buffer holds. */
  type Chunk = s: seq<byte> | |s| <= 512

  /** The outcome of one `bufio.Reader.Read`: some bytes (n, nil) or an error (0, err). */
  datatype ReadResult = ReadData(data: Chunk) | ReadError(message: string)

  /** The JSON decoders `rootHandler` applies to the `body` form value. */
  datatype Decoder = Decoder(open: string -> Decoded<OpenRequest>, read: string -> Decoded<ReadRequest>)

  /** An inbound HTTP request, reduced to what `rootHandler` looks at: the HTTP
      verb (method), the URL path, and the `action` and `body` values of the
      request's PostForm. Those come only from a form-encoded body of a POST,
      PUT or PATCH request, never from the URL query; for any other request,
      and for an absent value, they are the empty string (see PostFormOnly). */
  datatype Request = Request(verb: string, path: string, action: string, body: string)

  /** The payload of a 200 response. */
  datatype Body = OpenBody(response: OpenResponse) | Bytes(bytes: seq<byte>)

  /** The HTTP response the handler produces. */
  datatype Response =
    | Redirect(status: nat, location: string)
    | Error(status: nat, message: string)
    | Written(status: nat, body: Body)

  /** `n` zero bytes: what `make([]byte, n)` holds. */
  function Zeros(n: nat): (z: seq<byte>)
    ensures |z| == n
    ensures forall i :: 0 <= i < n ==> z[i] == 0
  {
    seq(n, _ => 0)
  }
}
