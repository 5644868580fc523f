# SOHT tunnel server core, in Dafny

SOHT (Socket over HTTP Tunnel) lets a client that can only speak HTTP reach a
TCP endpoint: the client POSTs an `open` action naming a host and port, the
server dials it and answers with a connection id, and later `read` actions
naming that id drain bytes from the socket. This project models the server's
connection-multiplexing core in `server.go`:

- `protocol.dfy` (module `Protocol`): the request and response structs
  (`OpenRequest`, `OpenResponse`, `ReadRequest`, `ConnectionInfo`), Go's
  `uint32`/`uint16`/`byte` as newtypes, and the abstract outcomes of the
  library calls the server makes: JSON decoding (`Decoded`), dialing
  (`DialResult`) and one buffered read (`ReadResult`, at most 512 bytes).
- `id_counter.dfy` (module `IdCounter`): `connectionIdCounter` as the class
  `IdGenerator` with a `counter` field and a `Next` method (one turn of the
  producer loop), specified by the functions `Step` and `Counter`. Ids run
  1, 2, ..., 4294967200, then start again at 1; the uint32 increment is
  written out with its wrap-around, and the proofs show it is never reached.
- `address.dfy` (module `Address`): the dial address
  `host + ":" + strconv.FormatUint(port, 10)`, with decimal formatting and a
  proof that splitting the address at its last colon gives back the host and
  the port.
- `dispatch.dfy` (module `Dispatch`): the decision `rootHandler` takes for a
  request, as the pure function `Route`: redirect, not found, bad request,
  open, or read of a registered entry.
- `server.dfy` (module `Server`): the global `connections` map and the id
  producer as the class `Server`; `OpenConnection`, `LongRead` (one read into
  a fresh zeroed 512-byte buffer, then the whole buffer is written) and
  `Handle`, which carries out `Route`'s decision.

The network and the JSON decoder are parameters: `dial: string -> DialResult`
is the outcome of dialing an address, `read: Conn -> ReadResult` the outcome
of one read from a socket, and `Decoder` holds what `json.Unmarshal` makes of
a body for each request struct (absent fields keep their zero value, so an
`open` body without `Host` decodes to an empty host).

## Model

| member | source | states |
|---|---|---|
| `IdCounter.Increment` | server.go:161 | Go's uint32 `counter++`: one more below 2^32 - 1, and 0 after it |
| `IdCounter.Step` | server.go:161-165 | from any reachable counter (at most 4294967200) the next id lies in 1..4294967200; it is the counter plus one below the ceiling, and 1 right after 4294967200, so the uint32 increment never wraps |
| `IdCounter.Counter` | server.go:159-166 | the counter after k ids never exceeds 4294967200 and is non-zero once an id has been handed out: id 0 is never emitted |
| `IdCounter.CounterClosedForm` | server.go:159-166 | the k-th id is ((k - 1) mod 4294967200) + 1 |
| `IdCounter.CounterBeforeWrap` | server.go:159-166 | the first id is 1 and the first 4294967200 ids are 1, 2, ... in order |
| `IdCounter.IdsRepeatOnlyAfterFullCycle` | server.go:161-166 | two emitted ids are equal if and only if they are a whole number of 4294967200-id cycles apart: no id repeats within a cycle |
| `IdCounter.IdGenerator.constructor` | server.go:159 | the counter starts at 0 with no ids handed out |
| `IdCounter.IdGenerator.Next` | server.go:160-167 | increments the counter, resets it to 1 past 4294967200, and hands out the new value: an id in 1..4294967200 that follows the previous one by one or wraps to 1 |
| `Address.Decimal` | server.go:125 | the base-10 text of the port is non-empty, all digits, without a leading zero |
| `Address.DecimalRoundTrip` | server.go:125 | the decimal text reads back as the number it was made from |
| `Address.DialAddress` | server.go:125 | the dial address is the host, then a colon, then `Decimal(port)` |
| `Address.AddressRoundTrip` | server.go:125 | splitting the dial address at its last colon yields exactly the requested host and port |
| `Dispatch.Route` | server.go:58-116 | dials only for a non-GET "open" whose body decodes with a non-empty host and non-zero port, and then dials those; reads only for a non-GET "read" whose id is registered, and then reads that id's entry; every other answer is 302, 400 or 404 |
| `Dispatch.GetRouting` | server.go:59-67 | GET "/" redirects to "/admin/" with 302; any other GET is 404 |
| `Dispatch.OpenValidationOrder` | server.go:74-88 | for "open", a decode error gives 400 with the decoder's message; otherwise an empty host gives 400; otherwise port 0 gives 400 |
| `Dispatch.ReadOfUnknownId` | server.go:99-111 | for "read", a decode error gives 400 and an id not in the registry gives 404 "Unknown Connection Id." |
| `Dispatch.UnknownCommand` | server.go:113-116 | any action other than "open" and "read" gives 400 "Unknown Command" |
| `Dispatch.NonFormVerbIsUnknownCommand` | server.go:68-73 | a request whose verb is neither GET nor one with a PostForm (POST, PUT, PATCH) reads an empty action from the PostForm and gets 400 "Unknown Command", whatever its query says |
| `Server.Delivered` | server.go:141-153 | after a read error the body is empty; after a read it is 512 bytes: the bytes read followed by zeros |
| `Server.LongRead` | server.go:138-156 | answers 200 and makes exactly one read attempt on the entry's socket; its body is `Delivered` of that read's outcome |
| `Server.DeliveredPadsShortRead` | server.go:153 | as written, a 3-byte read ("220") reaches the client as 512 bytes, not as the 3 bytes read |
| `Server.DeliveredIsExactPadded` | server.go:141-153 | every as-written body is the body of exactly the bytes read (`bytesIn[:bytesRead]`) followed by zeros up to 512 bytes; the exact body is the as-written one cut at the number of bytes read, and the two differ if and only if a read returned fewer than 512 bytes |
| `Server.Server.constructor` | server.go:19 | the registry starts empty and the producer has handed out no id |
| `Server.Server.ZeroNeverRegistered` | server.go:132-134 | in every reachable state id 0 is not a key of the registry |
| `Server.Server.ReadOfZeroIsNotFound` | server.go:106-110 | a "read" of id 0 is always answered 404 |
| `Server.Server.OpenConnection` | server.go:123-136 | dials `host:port`; on a dial error returns {false, 0, message} and changes nothing; on success draws one id, registers {id, socket} under it, changes no other entry and returns {true, id, ""}; before the first wrap the id is new and the registry grows by one; every entry stays stored under its own id |
| `Server.Server.Handle` | server.go:58-117 | carries out `Route`: immediate answers and reads leave the registry and the producer unchanged (a read error removes nothing); an "open" answers 200 with `OpenConnection`'s outcome and its registry change |

## Left out

- Networking: `net.Dial`, `net.Conn` and `bufio.Reader` are not modelled; their outcomes are the `dial` and `read` parameters. How a socket's stream advances between reads is the environment's business: each `Handle` call receives the outcome of its own read.
- Buffered reading: `longRead` makes a new `bufio.Reader` on every call (server.go:142); its one `Read` may take more bytes from the socket than the 512 it hands back, and the surplus is dropped with the reader. The model sees only the bytes handed back (`ReadResult`), so it does not capture that loss: a peer burst over 512 bytes loses data even with the corrected body.
- Form parsing: `req.ParseForm` and the PostForm rules of net/http are not modelled. A `Request` carries the PostForm's `action` and `body` values directly; `Dispatch.PostFormOnly` states that verbs other than POST, PUT and PATCH carry none. The content type of the body (only a form-encoded body fills the PostForm) is left to whoever builds the `Request`.
- JSON: `json.Unmarshal` is the `Decoder` parameter. `json.Marshal` of the open response is taken to succeed, so the hard-coded fallback body (server.go:93-96) is not modelled: an `OpenResponse` of a bool, a uint32 and a string always marshals.
- Concurrency: the goroutine and one-slot channel that feed ids (server.go:21, 45-47, 158-168) become a sequential `Next` call; the channel only lets the producer compute one id ahead, which does not change the sequence of ids drawn. Races on the unlocked `connections` map are not modelled.
- HTTP plumbing: server setup, `adminHandler` and the HTML templates (server.go:16-17, 49-56, 119-121, 170-171); logging throughout; the text framing the Go library adds to `http.Error`, `http.NotFound` and `http.Redirect` responses (trailing newline, headers, the redirect's HTML body).
- soht.go (flag parsing, mode selection, the no-op log writer) is not part of this model.
- `Address.AddressRoundTrip`: it is about the address text only. The host is not bracketed, so an IPv6 literal host gives an address Go's dialer rejects; in the model that is simply a `DialError` outcome.
- `Server.Server.OpenConnection`: states freshness of the drawn id only before the producer first wraps. After 4294967200 opens the producer reuses ids without consulting the registry, and a reused id overwrites the live entry stored under it; the model keeps that behaviour.
- The code has no write action, no removal of dead connections, no idle timeout and no session lifecycle states; the model has none either: no entry is ever removed.

## Findings

| source | as written | input that shows it | evidently intended | confidence | as-written member | corrected member |
|---|---|---|---|---|---|---|
| server.go:153 | `w.Write(bytesIn)` writes the whole 512-byte buffer after every successful read | a read that returns the 3 bytes "220": the client receives "220" followed by 509 zero bytes | `w.Write(bytesIn[:bytesRead])`: the body is exactly the bytes read | medium, not executed | `Server.DeliveredPadsShortRead` | `Server.DeliveredIsExactPadded` |

`Server.Handle` and `Server.LongRead` keep the behaviour as written, since they
model the server's observable responses; `DeliveredExact` is the corrected
body, and `DeliveredIsExactPadded` proves it is the as-written body cut at the
number of bytes read, differing from it exactly on short reads.
