/** The tunnel server's state and request handling: the `connections`
    registry, the id producer feeding it, `openConnection`, `longRead` and
    `rootHandler`. The network is reached only through two parameters: `dial`
    gives the outcome of dialing an address, and `read` the outcome of one
    read from a socket. */
module Server {
  import opened Protocol
  import opened Address
  import opened IdCounter
  import opened Dispatch

  /** The body `longRead` writes for a read outcome: nothing after an error;
      otherwise the whole 512-byte buffer, i.e. the bytes read followed by the
      zeros the buffer was created with. */
  function Delivered(r: ReadResult): (b: seq<byte>)
    ensures r.ReadError? ==> b == []
    ensures r.ReadData? ==> |b| == BufferSize && b[..|r.data|] == r.data
    ensures r.ReadData? ==> forall i :: |r.data| <= i < BufferSize ==> b[i] == 0
  {
    match r
    case ReadError(_) => []
    case ReadData(d) => d + Zeros(BufferSize - |d|)
  }

  /** The body a read evidently should produce: exactly the bytes read
      (`bytesIn[:bytesRead]`). */
  function DeliveredExact(r: ReadResult): (b: seq<byte>)
    ensures |b| <= BufferSize
  {
    match r
    case ReadError(_) => []
    case ReadData(d) => d
  }

  /** As written, a short read (the "220" an SMTP server greets with) reaches
      the client as 512 bytes instead of the 3 bytes read. */
  lemma {:induction false} DeliveredPadsShortRead()
    ensures var r := ReadData([0x32, 0x32, 0x30]);
            |Delivered(r)| == BufferSize && Delivered(r) != [0x32, 0x32, 0x30]
  {
  }

  /** Every as-written body is the exact body followed by the rest of the
      zeroed buffer, and the two differ exactly when a read returned fewer
      than 512 bytes: the exact body is the as-written one cut at the number
      of bytes read. */
  lemma {:induction false} DeliveredIsExactPadded(r: ReadResult)
    ensures r.ReadData? ==> Delivered(r) == DeliveredExact(r) + Zeros(BufferSize - |r.data|)
    ensures r.ReadData? ==> DeliveredExact(r) == Delivered(r)[..|r.data|]
    ensures Delivered(r) != DeliveredExact(r) <==> r.ReadData? && |r.data| < BufferSize
  {
    match r
    case ReadError(_) =>
    case ReadData(d) =>
      if |d| == BufferSize {
        assert Zeros(0) == [];
      } else {
        assert |Delivered(r)| != |d|;
      }
  }

  /** `longRead`: writes the 200 status, makes exactly one read attempt into
      a fresh 512-byte buffer, and on success writes the whole buffer. The
      registry is not touched, even after a read error. */
  method LongRead(info: ConnectionInfo, read: Conn -> ReadResult) returns (resp: Response)
    ensures resp == Written(StatusOK, Bytes(Delivered(read(info.connection))))
  {
    var bytesIn := new byte[BufferSize](_ => 0);
    // The status goes out before the read, so every outcome is a 200.
    var status := StatusOK;
    match read(info.connection) {
      case ReadError(_) =>
        resp := Written(status, Bytes([]));
      case ReadData(d) =>
        // The reader copies the bytes it got to the front of bytesIn.
        var i := 0;
        while i < |d|
          invariant 0 <= i <= |d|
          invariant bytesIn[..i] == d[..i]
          invariant forall k :: i <= k < BufferSize ==> bytesIn[k] == 0
        {
          bytesIn[i] := d[i];
          i := i + 1;
        }
        assert bytesIn[..] == d + Zeros(BufferSize - |d|);
        resp := Written(status, Bytes(bytesIn[..]));
    }
  }

  /** The process-wide state: the registry and the id producer. */
  class Server {
    var connections: map<uint32, ConnectionInfo>
    const ids: IdGenerator

    /** Every entry is stored under its own id, which is an id the producer
        has handed out; before the producer first wraps, every key is at most
        the last id handed out. */
    ghost predicate Valid()
      reads this, ids
    {
      && ids.Valid()
      && (forall id :: id in connections ==> connections[id].connectionId == id && 1 <= id <= Ceiling)
      && (ids.issued <= Ceiling as int ==> forall id :: id in connections ==> id <= ids.counter)
    }

    constructor ()
      ensures Valid() && fresh(ids)
      ensures connections == map[] && ids.issued == 0
    {
      connections := map[];
      ids := new IdGenerator();
    }

    /** Id 0 is never registered. */
    lemma ZeroNeverRegistered()
      requires Valid()
      ensures 0 !in connections
    {
    }

    /** A read of id 0 is always answered 404. */
    lemma ReadOfZeroIsNotFound(req: Request, decode: Decoder)
      requires Valid()
      requires NotGet(req) && req.action == "read" && decode.read(req.body) == Decoded(ReadRequest(0))
      ensures Route(req, decode, connections) == Reply(Error(StatusNotFound, "Unknown Connection Id."))
    {
      ZeroNeverRegistered();
    }

    /** `openConnection`: dials host:port once. A dial error is reported as
        data and changes nothing. A dialed socket is registered under exactly
        one newly drawn id; no other entry changes. Before the producer first
        wraps, the drawn id is not in use, so the registry grows by one. */
    method OpenConnection(host: string, port: uint16, dial: string -> DialResult) returns (resp: OpenResponse)
      requires Valid()
      modifies this, ids
      ensures Valid()
      ensures dial(DialAddress(host, port)).DialError? ==>
                && resp == OpenResponse(false, 0, dial(DialAddress(host, port)).message)
                && connections == old(connections) && unchanged(ids)
      ensures dial(DialAddress(host, port)).Dialed? ==>
                && resp == OpenResponse(true, Step(old(ids.counter)), "")
                && ids.issued == old(ids.issued) + 1
                && connections == old(connections)[resp.connectionId := ConnectionInfo(resp.connectionId, dial(DialAddress(host, port)).conn)]
      ensures dial(DialAddress(host, port)).Dialed? && old(ids.issued) < Ceiling as int ==>
                resp.connectionId !in old(connections) && |connections| == |old(connections)| + 1
    {
      var address := DialAddress(host, port);
      match dial(address) {
        case DialError(e) =>
          resp := OpenResponse(false, 0, e);
        case Dialed(conn) =>
          ghost var before := ids.issued;
          if before <= Ceiling as int {
            CounterBeforeWrap(before);
          }
          var connId := ids.Next();
          if ids.issued <= Ceiling as int {
            CounterBeforeWrap(ids.issued);
          }
          connections := connections[connId := ConnectionInfo(connId, conn)];
          resp := OpenResponse(true, connId, "");
      }
    }

    /** `rootHandler`: carries out the decision Route takes for the request.
        Immediate answers change nothing; "open" answers 200 with the outcome
        of OpenConnection; "read" answers with LongRead's body and leaves the
        registry and the producer as they were. */
    method Handle(req: Request, decode: Decoder, dial: string -> DialResult, read: Conn -> ReadResult)
      returns (resp: Response)
      requires Valid()
      modifies this, ids
      ensures Valid()
      ensures Route(req, decode, old(connections)).Reply? ==>
                resp == Route(req, decode, old(connections)).response
                && connections == old(connections) && unchanged(ids)
      ensures Route(req, decode, old(connections)).Read? ==>
                resp == Written(StatusOK, Bytes(Delivered(read(Route(req, decode, old(connections)).info.connection))))
                && connections == old(connections) && unchanged(ids)
      ensures var a := Route(req, decode, old(connections));
              a.Open? && dial(DialAddress(a.host, a.port)).DialError? ==>
                resp == Written(StatusOK, OpenBody(OpenResponse(false, 0, dial(DialAddress(a.host, a.port)).message)))
                && connections == old(connections) && unchanged(ids)
      ensures var a := Route(req, decode, old(connections));
              a.Open? && dial(DialAddress(a.host, a.port)).Dialed? ==>
                var id := Step(old(ids.counter));
                resp == Written(StatusOK, OpenBody(OpenResponse(true, id, "")))
                && ids.issued == old(ids.issued) + 1
                && connections == old(connections)[id := ConnectionInfo(id, dial(DialAddress(a.host, a.port)).conn)]
    {
      match Route(req, decode, connections) {
        case Reply(r) =>
          resp := r;
        case Open(host, port) =>
          var openResponse := OpenConnection(host, port, dial);
          resp := Written(StatusOK, OpenBody(openResponse));
        case Read(info) =>
          resp := LongRead(info, read);
      }
    }
  }
}
