/**
 * Whole lifecycles run through the utilities on a fresh `Network`, with every
 * underlying call succeeding unless a parameter says otherwise. Each result
 * follows from the contracts of the utilities alone.
 */
module Scenarios {
  import opened Platform
  import opened Text
  import opened Net
  import TimeUtils
  import Utf8
  import ServerSocketUtils
  import ClientSocketUtils
  import InputStreamUtils
  import OutputStreamUtils

  const PORT: int32 := 9090

  /** A listener on `PORT`, on a network with nothing else bound. */
  method Listen() returns (net: Network, server: ServerSocket)
    ensures fresh(net) && net.Valid() && net.bound == {PORT} && net.backlog == map[]
    ensures fresh(server) && server.net == net && server.localPort == PORT && !server.closed && server.soTimeout == 0
  {
    net := new Network();
    var r := ServerSocketUtils.CreateSocket(net, PORT, Success, 1);
    server := r.value;
  }

  /**
   * A port is bound once: the first bind gives a listener on that port, a
   * second bind while it is open fails, and the listener then closes.
   */
  method BindTwice() returns (first: Option<ServerSocket>, second: Option<ServerSocket>, closed: bool)
    ensures first.Some? && first.value.localPort == PORT && second.None? && closed
  {
    var net := new Network();
    first := ServerSocketUtils.CreateSocket(net, PORT, Success, 1);
    second := ServerSocketUtils.CreateSocket(net, PORT, Success, 1);
    closed := ServerSocketUtils.CloseConnection(first.value, Success);
  }

  /** Closing a listener frees its port: binding the port again succeeds. */
  method RebindAfterClose() returns (closed: bool, rebound: Option<ServerSocket>)
    ensures closed && rebound.Some? && rebound.value.localPort == PORT
  {
    var net, server := Listen();
    closed := ServerSocketUtils.CloseConnection(server, Success);
    rebound := ServerSocketUtils.CreateSocket(net, PORT, Success, 1);
  }

  /** Closing a listener twice reports success both times, whatever the second close would do. */
  method CloseListenerTwice(second: Outcome) returns (a: bool, b: bool)
    ensures a && b
  {
    var net, server := Listen();
    a := ServerSocketUtils.CloseConnection(server, Success);
    b := ServerSocketUtils.CloseConnection(server, second);
  }

  /**
   * Closing a connected socket twice reports success both times when the
   * underlying close succeeds both times; since the close is always called,
   * a close that throws the second time makes the second report false.
   */
  method CloseSocketTwice(second: Outcome) returns (a: bool, b: bool, closed: bool)
    ensures a && (b <==> second == Success) && closed
  {
    var net, server := Listen();
    var client := ClientSocketUtils.CreateSocket(net, "localhost", PORT, Success, 50000);
    a := ClientSocketUtils.CloseConnection(client.value, Success);
    b := ClientSocketUtils.CloseConnection(client.value, second);
    closed := client.value.closed;
  }

  /** Two clients connect to the same listener; both succeed and report its port as their remote port. */
  method ClientsShareListener() returns (first: Option<Socket>, second: Option<Socket>)
    ensures first.Some? && second.Some? && first.value != second.value
    ensures first.value.remotePort == PORT && second.value.remotePort == PORT
  {
    var net, server := Listen();
    first := ClientSocketUtils.CreateSocket(net, "localhost", PORT, Success, 50000);
    second := ClientSocketUtils.CreateSocket(net, "localhost", PORT, Success, 50001);
  }

  /** Connecting to a port that has no listener fails. */
  method ConnectWithoutListener() returns (r: Option<Socket>)
    ensures r.None?
  {
    var net, server := Listen();
    r := ClientSocketUtils.CreateSocket(net, "localhost", PORT + 1, Success, 50000);
  }

  /**
   * One client connects, the listener accepts it, one end writes `sent`
   * through its output stream and closes, and the other end reads through its
   * input stream. The server end is the reader when `clientWrites` holds.
   */
  method Exchange(sent: JavaString, clientWrites: bool) returns (written: Completion<nat>, received: Completion<seq<uint8>>)
    ensures written == Normal(if IsBlank(sent) then 0 else |Utf8.Encode(sent)|)
    ensures received == Normal(OutputStreamUtils.Payload(sent))
  {
    var net, server := Listen();
    var client := ClientSocketUtils.CreateSocket(net, "localhost", PORT, Success, 50000);
    var accepted := ServerSocketUtils.AcceptConnection(server, Completed);
    var writer, reader := client.value, accepted.value;
    if !clientWrites {
      writer, reader := reader, writer;
    }
    assert writer.output == reader.input && writer != reader;
    var out := OutputStreamUtils.GetOutputStream(writer, Success);
    written := OutputStreamUtils.WriteOutputStream(out.value, sent, Completed);
    var closedOut := OutputStreamUtils.CloseOutputStream(out.value, Success);
    assert reader.input.data == OutputStreamUtils.Payload(sent);
    var input := InputStreamUtils.GetInputStream(reader, Success);
    received := InputStreamUtils.ReadInputStream(input.value, Completed);
  }

  /** The string "hello" is written as its five UTF-8 bytes, which the peer reads. */
  method WriteHello() returns (written: Completion<nat>, received: Completion<seq<uint8>>)
    ensures written == Normal(5) && received == Normal([0x68, 0x65, 0x6C, 0x6C, 0x6F])
  {
    var hello: JavaString := [0x68, 0x65, 0x6C, 0x6C, 0x6F];
    written, received := Exchange(hello, false);
    Utf8.EncodeAscii(hello);
    assert !IsWhitespace(hello[0]);
    assert Utf8.Encode(hello) == [0x68, 0x65, 0x6C, 0x6C, 0x6F];
  }

  /**
   * One client connects and the listener accepts it. One end writes `data`
   * with its output stream's own `write` and `close`, then closes its socket;
   * the other end reads through its input stream and closes its socket. The
   * server end is the reader when `clientWrites` holds.
   */
  method RawExchange(data: seq<uint8>, clientWrites: bool)
    returns (received: Completion<seq<uint8>>, writerClosed: bool, readerClosed: bool)
    ensures received == Normal(data) && writerClosed && readerClosed
  {
    var net, server := Listen();
    var client := ClientSocketUtils.CreateSocket(net, "localhost", PORT, Success, 50000);
    var accepted := ServerSocketUtils.AcceptConnection(server, Completed);
    var writer, reader := client.value, accepted.value;
    if !clientWrites {
      writer, reader := reader, writer;
    }
    assert writer.output == reader.input && writer != reader;
    var out := OutputStreamUtils.GetOutputStream(writer, Success);
    var written := OutputStreamUtils.WriteOutputStreamBytes(out.value, data, Completed);
    var closedOut := OutputStreamUtils.CloseOutputStream(out.value, Success);
    writerClosed := ClientSocketUtils.CloseConnection(writer, Success);
    assert reader.input.data == data;
    var input := InputStreamUtils.GetInputStream(reader, Success);
    received := InputStreamUtils.ReadInputStream(input.value, Completed);
    readerClosed := ClientSocketUtils.CloseConnection(reader, Success);
  }

  /** The client writes the single byte 77 ("M"); the accepted socket reads exactly that byte. */
  method ClientWritesServerReads() returns (received: Completion<seq<uint8>>, writerClosed: bool, readerClosed: bool)
    ensures received == Normal([77]) && writerClosed && readerClosed
  {
    received, writerClosed, readerClosed := RawExchange([77], true);
  }

  /** The accepted socket writes the single byte 88 ("X"); the client reads exactly that byte. */
  method ServerWritesClientReads() returns (received: Completion<seq<uint8>>, writerClosed: bool, readerClosed: bool)
    ensures received == Normal([88]) && writerClosed && readerClosed
  {
    received, writerClosed, readerClosed := RawExchange([88], false);
  }

  /** Writing three spaces writes nothing, and the peer reads no data. */
  method BlankWriteSendsNothing() returns (written: Completion<nat>, received: Completion<seq<uint8>>)
    ensures written == Normal(0) && received == Normal([])
  {
    written, received := Exchange([0x20, 0x20, 0x20], true);
  }

  /**
   * Closing the input stream of a socket closes the socket: asking for its
   * input stream again gives nothing, and reading the old stream gives no
   * bytes instead of an error.
   */
  method CloseInputStreamClosesSocket() returns (firstClose: bool, again: Option<InputStream>, read: Completion<seq<uint8>>)
    ensures firstClose && again.None? && read == Normal([])
  {
    var net, server := Listen();
    var client := ClientSocketUtils.CreateSocket(net, "localhost", PORT, Success, 50000);
    var input := InputStreamUtils.GetInputStream(client.value, Success);
    firstClose := InputStreamUtils.CloseInputStream(input.value, Success);
    again := InputStreamUtils.GetInputStream(client.value, Success);
    read := InputStreamUtils.ReadInputStream(input.value, Completed);
  }

  /**
   * A one-second timeout set on both ends of an accepted connection is
   * stored as 1000 milliseconds; when the client's read then times out, the
   * timeout is re-thrown to the caller rather than reported as no data.
   */
  method ReadTimesOut()
    returns (serverSet: Result<bool, TimeUtils.ConvertError>, clientSet: Result<bool, TimeUtils.ConvertError>,
             serverTimeout: int32, clientTimeout: int32, read: Completion<seq<uint8>>)
    ensures serverSet == Ok(true) && clientSet == Ok(true)
    ensures serverTimeout == 1000 && clientTimeout == 1000 && read == TimeoutSignal
  {
    var net, server := Listen();
    var client := ClientSocketUtils.CreateSocket(net, "localhost", PORT, Success, 50000);
    var accepted := ServerSocketUtils.AcceptConnection(server, Completed);
    serverSet := ClientSocketUtils.SetTimeoutInUnit(accepted.value, 1, TimeUtils.Seconds, Success);
    clientSet := ClientSocketUtils.SetTimeoutInUnit(client.value, 1, TimeUtils.Seconds, Success);
    serverTimeout, clientTimeout := accepted.value.soTimeout, client.value.soTimeout;
    var input := InputStreamUtils.GetInputStream(client.value, Success);
    read := InputStreamUtils.ReadInputStream(input.value, TimedOut);
  }

  /**
   * A duration of zero or less is refused in every unit, even one the
   * converter does not handle, and the socket keeps its timeout.
   */
  method NonPositiveTimeoutRefused(duration: int32, unit: TimeUtils.TimeUnit)
    returns (setResult: Result<bool, TimeUtils.ConvertError>, timeout: int32)
    requires duration <= 0
    ensures setResult == Ok(false) && timeout == 0
  {
    var net, server := Listen();
    var client := ClientSocketUtils.CreateSocket(net, "localhost", PORT, Success, 50000);
    TimeUtils.NonPositiveIsZero(duration, unit);
    setResult := ClientSocketUtils.SetTimeoutInUnit(client.value, duration, unit, Success);
    timeout := client.value.soTimeout;
  }

  /**
   * 536870912 seconds wrap around to 0 milliseconds, so a listener asked for
   * that timeout refuses it as if it were not positive.
   */
  method OverflowingTimeoutRefused() returns (setResult: Result<bool, TimeUtils.ConvertError>, timeout: int32)
    ensures setResult == Ok(false) && timeout == 0
  {
    var net, server := Listen();
    TimeUtils.SecondsWrapAround();
    setResult := ServerSocketUtils.SetTimeoutInUnit(server, 536870912, TimeUtils.Seconds, Success);
    timeout := server.soTimeout;
  }
}
