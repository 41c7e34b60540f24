# Socket utilities of RESTful-API, modelled in Dafny

The repository wraps raw Java TCP sockets in five small utility classes that
never let an exception escape, except a timeout. This project models those
classes and proves what they promise:

- **TimeUtils** converts a duration and a `TimeUnit` to milliseconds. A
  non-positive value gives 0 before the unit is looked at. Milliseconds pass
  through. Seconds are multiplied by 1000 in 32-bit `int` arithmetic, which
  wraps around. Every other unit throws `IllegalArgumentException`, modelled as
  `Err(InvalidUnit)`.
- **ServerSocketUtils** and **ClientSocketUtils** manage listening and
  connected sockets: the port guard `0..65535`, bind, connect, accept, close
  and the timeout setters. Every failure becomes an empty `Option` or `false`.
- **OutputStreamUtils** and **InputStreamUtils** hand out a socket's streams,
  write a string as UTF-8 and read everything up to end of stream. A timeout
  of the underlying read or write is re-thrown (`TimeoutSignal`). Any other
  failure becomes 0 bytes written or no bytes read.

How the model is built (file by file):

- `platform.dfy`: Java's `int` (`int32`) and its wrap-around (`Wrap32`),
  unsigned bytes (`uint8`), `Optional` (`Option`), a thrown exception as a
  value (`Result`, `Completion`). It also holds the outcomes of the underlying
  platform calls the utilities cannot see: `Outcome` for calls that return or
  throw `IOException`, `BlockingOutcome` for `accept`, `read` and `write`, which
  can also time out. Every such call is an explicit parameter of the method that
  makes it. This is the role the Mockito mocks play in the repository's tests.
- `time_utils.dfy`: the converter and its properties.
- `text.dfy`: a Java string is a sequence of Unicode scalar values.
  `IsWhitespace` is the table behind `Character.isWhitespace` (Java 11 and
  later), and `IsBlank` is `String.isBlank`.
- `utf8.dfy`: the UTF-8 encoding of RFC 3629, section 3, which
  `getBytes(StandardCharsets.UTF_8)` produces. A strict decoder is the
  encoder's partner: it rejects overlong forms, surrogates and values above
  U+10FFFF, and `DecodeEncode` proves that decoding inverts encoding.
- `net.dfy`: abstract `java.net` handles.
  - `Network` is the host's TCP layer: the set of bound ports and, per
    listening port, the queue of completed connections waiting for `accept`.
  - A connection is two `Pipe`s, one per direction, shared by its two `Socket`
    ends.
  - `ServerSocket` and `Socket` carry `closed` and `soTimeout`.
  - The streams are views of their socket with no state of their own. Closing
    a stream closes its socket. Once the socket is closed, every later stream
    operation fails gracefully.
- `server_socket_utils.dfy`, `client_socket_utils.dfy`,
  `output_stream_utils.dfy`, `input_stream_utils.dfy`: one method per
  operation. Each `ensures` gives the result and the whole new state in terms
  of the old state and the outcome parameters.
- `scenarios.dfy`: whole lifecycles from the repository's tests, run on a
  fresh `Network`. Examples: binding a port twice; two clients sharing one
  listener; a client writing byte 77 that the accepted socket reads back. The
  results are proved from the utilities' contracts alone. The integration
  tests write with the stream's own `write(int)` and `close()`; the scenarios
  do that through `WriteOutputStreamBytes` and `CloseOutputStream`, which make
  the same change to the connection when the underlying calls succeed.

The code and the design description of this layer differ in places. The model
follows the code:

- The design asks for distinct error kinds (invalid port, bind failed, accept
  timeout, ...). The code returns an empty `Optional` or `false` for all of
  them.
- In particular, `acceptConnection` catches `SocketTimeoutException` as an
  `IOException`. So an accept timeout is not told apart from any other failure.
- The design calls every close idempotent. `ClientSocketUtils.closeConnection`
  and both stream closes always call the underlying close. So a close that
  throws the second time reports `false` the second time. Only
  `ServerSocketUtils.closeConnection` checks `isClosed` first.
- The product `value * 1000` is not guarded against overflow. Beyond 2147483
  seconds the converted timeout is wrong. For example, 536870912 seconds
  become 0 ms, which the timeout setters then refuse.

## Model

| member | source | states |
|---|---|---|
| `Platform.Wrap32` | src/main/java/net/ethandankiw/utils/TimeUtils.java:26 | Java `int` arithmetic: the result is the one `int` congruent to the exact value modulo 2^32 |
| `TimeUtils.ConvertToMilliseconds` | src/main/java/net/ethandankiw/utils/TimeUtils.java:13-32 | the conversion throws exactly when the value is positive and the unit is neither milliseconds nor seconds, and then the error is `InvalidUnit` |
| `TimeUtils.NonPositiveIsZero` | src/main/java/net/ethandankiw/utils/TimeUtils.java:16-18 | a value of at most 0 converts to 0 in every unit, including unsupported ones |
| `TimeUtils.MillisecondsIdentity` | src/main/java/net/ethandankiw/utils/TimeUtils.java:25 | a positive number of milliseconds converts to itself |
| `TimeUtils.SecondsScale` | src/main/java/net/ethandankiw/utils/TimeUtils.java:26 | a positive number of seconds up to 2147483 converts to 1000 times that value |
| `TimeUtils.UnsupportedUnitFails` | src/main/java/net/ethandankiw/utils/TimeUtils.java:27 | a positive value in any other unit throws `InvalidUnit` and gives no value |
| `TimeUtils.ZeroIffNonPositive` | src/main/java/net/ethandankiw/utils/TimeUtils.java:16-31 | in milliseconds for every value, and in seconds up to 2147483, the result is 0 exactly when the value is at most 0 |
| `TimeUtils.SecondsWrapAround` | src/main/java/net/ethandankiw/utils/TimeUtils.java:26 | the unguarded multiplication wraps: 2147484 s gives -2147483296 ms and 536870912 s gives 0 ms |
| `Text.IsWhitespace` | src/main/java/net/ethandankiw/socket/OutputStreamUtils.java:42 | the code points `Character.isWhitespace` accepts (Java 11 and later): the space, line and paragraph separators except the no-break spaces U+00A0, U+2007 and U+202F, plus U+0009 to U+000D and U+001C to U+001F |
| `Text.IsBlank` | src/main/java/net/ethandankiw/socket/OutputStreamUtils.java:42 | `String.isBlank`: the string is empty or every code point of it is whitespace |
| `Utf8.EncodeScalar` | src/main/java/net/ethandankiw/socket/OutputStreamUtils.java:47 | one code point takes the number of bytes RFC 3629 assigns to its range, and every byte after the first is a continuation byte |
| `Utf8.Encode` | src/main/java/net/ethandankiw/socket/OutputStreamUtils.java:47 | a string of n code points encodes to between n and 4n bytes |
| `Utf8.DecodeEncodeScalar` | src/main/java/net/ethandankiw/socket/OutputStreamUtils.java:47 | the strict decoder reads back exactly the code point the encoder wrote, using exactly its bytes, whatever follows them |
| `Utf8.DecodeEncode` | src/main/java/net/ethandankiw/socket/OutputStreamUtils.java:47 | decoding the encoding of a string gives back that string |
| `Utf8.EncodeDecodeScalar` | src/main/java/net/ethandankiw/socket/OutputStreamUtils.java:47 | whatever code point the strict decoder reads, encoding it again gives exactly the bytes it consumed, so no overlong or other non-standard form is accepted |
| `Utf8.EncodeDecode` | src/main/java/net/ethandankiw/socket/OutputStreamUtils.java:47 | every well-formed byte sequence is the encoding of the string it decodes to |
| `Utf8.DecodeIffEncode` | src/main/java/net/ethandankiw/socket/OutputStreamUtils.java:47 | a byte sequence decodes to a string exactly when it is that string's encoding, so the encoding is the unique one the strict decoder accepts |
| `Utf8.EncodeWellFormed` | src/main/java/net/ethandankiw/socket/OutputStreamUtils.java:47 | the encoder only produces well-formed UTF-8 |
| `Utf8.EncodeInjective` | src/main/java/net/ethandankiw/socket/OutputStreamUtils.java:47 | two strings with the same encoding are equal |
| `Utf8.EncodeAppend` | src/main/java/net/ethandankiw/socket/OutputStreamUtils.java:47 | the encoding of a concatenation is the concatenation of the encodings |
| `Utf8.EncodeLength` | src/main/java/net/ethandankiw/socket/OutputStreamUtils.java:47 | the encoded length is the sum, over the code points, of their widths from the RFC 3629 table |
| `Utf8.EncodeAscii` | src/main/java/net/ethandankiw/socket/OutputStreamUtils.java:47 | an ASCII string encodes to one byte per character, equal to its code |
| `Net.ValidPort` | src/main/java/net/ethandankiw/socket/ServerSocketUtils.java:27 | the port range both `createSocket` methods accept, 0 to 65535 inclusive (the same guard is at ClientSocketUtils.java line 33) |
| `ServerSocketUtils.CreateSocket` | src/main/java/net/ethandankiw/socket/ServerSocketUtils.java:25-45 | bind succeeds exactly when the port is in 0..65535, it is not already bound (port 0 takes a free OS-chosen port) and the bind call succeeds; an out-of-range port leaves the bound set unchanged; on success the new listener is open on the requested port and the port is added to the bound set |
| `ServerSocketUtils.AcceptConnection` | src/main/java/net/ethandankiw/socket/ServerSocketUtils.java:48-61 | on an open listener with a queued connection and a completed accept, returns a new open socket: the server end of the oldest queued connection, on the listener's port; a closed listener, a timed-out accept and a failed accept all return nothing and change nothing |
| `ServerSocketUtils.CloseConnection` | src/main/java/net/ethandankiw/socket/ServerSocketUtils.java:64-83 | an already-closed listener gives true without calling close; otherwise the result is true and the listener closed exactly when close succeeds, and that frees the port and drops its queue |
| `ServerSocketUtils.SetTimeout` | src/main/java/net/ethandankiw/socket/ServerSocketUtils.java:96-115 | true exactly when the timeout is positive, the listener is open and `setSoTimeout` succeeds; then `soTimeout` is the new value, otherwise it is unchanged |
| `ServerSocketUtils.SetTimeoutInUnit` | src/main/java/net/ethandankiw/socket/ServerSocketUtils.java:86-93 | a conversion error is thrown before the listener is touched; otherwise the result and new timeout are those of `SetTimeout` on the converted milliseconds |
| `ClientSocketUtils.CreateSocket` | src/main/java/net/ethandankiw/socket/ClientSocketUtils.java:31-51 | connect succeeds exactly when the port is in 0..65535, has a listener and the connect call succeeds (host resolution included); a failure changes nothing; a success returns a fresh open socket with that remote port and empty pipes, and adds the connection to the listener's queue without changing which ports are bound |
| `ClientSocketUtils.CloseConnection` | src/main/java/net/ethandankiw/socket/ClientSocketUtils.java:54-68 | always calls close; true exactly when close succeeds, so a second successful close still gives true; the socket is closed afterwards if it was before or the close succeeded |
| `ClientSocketUtils.SetTimeout` | src/main/java/net/ethandankiw/socket/ClientSocketUtils.java:81-99 | true exactly when the timeout is positive, the socket is open and `setSoTimeout` succeeds; then `soTimeout` is the new value, otherwise it is unchanged |
| `ClientSocketUtils.SetTimeoutInUnit` | src/main/java/net/ethandankiw/socket/ClientSocketUtils.java:71-78 | a conversion error propagates unchanged and leaves the socket untouched; otherwise the result and new timeout are those of `SetTimeout` on the converted milliseconds |
| `OutputStreamUtils.GetOutputStream` | src/main/java/net/ethandankiw/socket/OutputStreamUtils.java:23-36 | a stream of the given socket exactly when the socket is open and the call succeeds, nothing otherwise |
| `OutputStreamUtils.Payload` | src/main/java/net/ethandankiw/socket/OutputStreamUtils.java:42-47 | the bytes to be written are empty exactly for a blank string; otherwise they decode back to the string |
| `OutputStreamUtils.WriteOutputStreamBytes` | src/main/java/net/ethandankiw/socket/OutputStreamUtils.java:70-86 | a completed write on an open socket appends all the data to what the socket has sent and returns its length; a timeout is re-thrown; any other failure, a closed socket included, returns 0; in both failure cases nothing is sent |
| `OutputStreamUtils.WriteOutputStream` | src/main/java/net/ethandankiw/socket/OutputStreamUtils.java:39-51 | a blank string returns 0 and sends nothing; otherwise the result is that of writing its `Payload`, the UTF-8 encoding, in one write; the count returned is always 0 or the encoded length |
| `OutputStreamUtils.CloseOutputStream` | src/main/java/net/ethandankiw/socket/OutputStreamUtils.java:54-67 | true exactly when close succeeds, also on an already-closed stream; a successful close closes the socket |
| `InputStreamUtils.GetInputStream` | src/main/java/net/ethandankiw/socket/InputStreamUtils.java:22-35 | a stream of the given socket exactly when the socket is open and the call succeeds, nothing otherwise |
| `InputStreamUtils.ReadInputStream` | src/main/java/net/ethandankiw/socket/InputStreamUtils.java:38-51 | a completed read on an open socket returns every byte the peer sent that has not yet been read, and consumes them; a timeout is re-thrown; any other failure, a closed socket included, returns no bytes; in both failure cases nothing is consumed |
| `InputStreamUtils.CloseInputStream` | src/main/java/net/ethandankiw/socket/InputStreamUtils.java:54-67 | true exactly when close succeeds; a successful close closes the socket the stream came from |
| `Scenarios.BindTwice` | src/test/java/socket/server/CreateServerSocketTest.java:48-79 | the first bind gives a listener on the requested port, a second bind of that port fails, and the listener then closes with true |
| `Scenarios.RebindAfterClose` | src/main/java/net/ethandankiw/socket/ServerSocketUtils.java:64-83 | after a listener is closed, binding its port again succeeds |
| `Scenarios.CloseListenerTwice` | src/test/java/socket/server/CloseServerSocketTest.java:64-77 | closing a listener twice gives true both times, whatever the second close would have done |
| `Scenarios.CloseSocketTwice` | src/test/java/socket/client/CloseClientSocketTest.java:84-111 | closing a connected socket twice gives true both times exactly when the second close also succeeds |
| `Scenarios.ClientsShareListener` | src/test/java/socket/client/CreateClientSocketTest.java:87-136 | two clients connecting to one listener both succeed, as distinct sockets, and both report the listener's port as remote port |
| `Scenarios.ConnectWithoutListener` | src/test/java/socket/client/CreateClientSocketTest.java:138-146 | connecting to a port without a listener gives nothing |
| `Scenarios.Exchange` | src/test/java/socket/stream/output/WriteOutputStreamTest.java:64-177 | generalises the two write tests to every string and either direction, and adds the peer's read: after connect and accept, `WriteOutputStream` returns the encoded length (0 for a blank string) and the other end reads exactly the `Payload` |
| `Scenarios.WriteHello` | src/test/java/socket/stream/output/WriteOutputStreamTest.java:64-124 | the accepted socket writes "hello" and `WriteOutputStream` returns its UTF-8 length, 5; in addition to the test, the client then reads exactly those 5 bytes |
| `Scenarios.RawExchange` | src/test/java/socket/stream/integration/ReadWriteStreamTest.java:79-269 | generalises both integration tests to any bytes: one end writes them with its stream's own `write` and `close` and closes its socket with true; the other end reads exactly those bytes and closes its socket with true |
| `Scenarios.ClientWritesServerReads` | src/test/java/socket/stream/integration/ReadWriteStreamTest.java:79-170 | the client writes byte 77 with its stream's own write and close, the accepted socket reads exactly `[77]`, and both ends close with true |
| `Scenarios.ServerWritesClientReads` | src/test/java/socket/stream/integration/ReadWriteStreamTest.java:177-269 | the accepted socket writes byte 88 with its stream's own write and close, the client reads exactly `[88]`, and both ends close with true |
| `Scenarios.BlankWriteSendsNothing` | src/test/java/socket/stream/output/WriteOutputStreamTest.java:181-202 | writing three spaces returns 0 and the peer reads no bytes |
| `Scenarios.CloseInputStreamClosesSocket` | src/test/java/socket/stream/input/GetInputStreamTest.java:162-199 | after a socket's input stream is closed, asking for its input stream again gives nothing and reading the old stream gives no bytes |
| `Scenarios.ReadTimesOut` | src/test/java/socket/server/AcceptClientSocketTest.java:158-230 | a one-second timeout set on both the accepted and the client socket is stored as 1000 ms on each, and a read on the client that times out re-throws the timeout |
| `Scenarios.NonPositiveTimeoutRefused` | src/test/java/socket/client/TimeoutClientSocketTest.java:105-164 | a duration of at most 0, in any unit, is refused and leaves the socket's timeout unchanged |
| `Scenarios.OverflowingTimeoutRefused` | src/main/java/net/ethandankiw/utils/TimeUtils.java:26 | 536870912 seconds wrap to 0 ms, so the listener refuses that timeout |

## Left out

- Blocking and timing. Accept and read do not block and no clock runs. Whether
  an accept, read or write completes, times out or fails is the outcome
  parameter. A timeout can occur whatever `soTimeout` says, so the model does
  not tie the timeout to the configured value or its roughly one-second timing.
- Threads. A concurrent close that unblocks a peer's pending read is about
  threads and is not modelled. The scenarios run one call after another.
- `AcceptConnection` with an empty accept queue and a completed outcome returns
  nothing. The real call would wait for a client.
- End of stream is not a separate state. A read returns whatever the peer has
  sent and not yet been read. Closing one end is not visible to the other.
- Partial transfers. A read or write that times out or fails is modelled as
  consuming or sending nothing. The real `readAllBytes` or `write` may have
  moved some bytes first.
- Remote hosts. `Network` is the TCP layer of one host. The `host` argument of
  `ClientSocketUtils.CreateSocket` only matters through the `connect` outcome
  (an unresolvable host is a failed connect).
- OS resets. Closing a listener drops its queued connections, but their client
  sockets are not told.
- Java string details. `JavaString` is a sequence of Unicode scalar values, so
  the lone UTF-16 surrogates that `getBytes` replaces by `?` cannot occur.
  `IsWhitespace` follows the Java 11 table and does not track later Unicode
  versions.
- Byte values are unsigned (`uint8`). Java's `byte` holds the same bit patterns
  as signed values.
- The write count is a `nat`. A Java array length is bounded by the `int`
  range, and strings too long for that are not modelled.
- Logging. Every slf4j call is dropped; it has no functional content.
- `isConnected`, `getInetAddress` and `getLocalPort` of a client socket are not
  modelled beyond the fields the utilities' results are checked against.
- `src/main/java/net/ethandankiw/file/FileReader.java`,
  `src/main/java/net/ethandankiw/parser/file/FileParser.java` and
  `src/main/java/net/ethandankiw/server/ApplicationServer.java` are not part of
  this model. They are file-system wrappers and the bootstrap, with no logic of
  their own beyond calls into the utilities.
