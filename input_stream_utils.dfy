/**
 * The inbound stream adapter: obtain a socket's input stream, read everything
 * up to end of stream, close the stream. A read timeout is re-thrown; every
 * other read failure is reported as no data.
 */
module InputStreamUtils {
  import opened Platform
  import opened Net

  /**
   * `getInputStream`: the socket's input stream, or nothing when the socket
   * is closed (closing a stream of the socket also counts) or the underlying
   * call throws.
   */
  method GetInputStream(client: Socket, getStream: Outcome) returns (r: Option<InputStream>)
    ensures r.Some? <==> !client.closed && getStream == Success
    ensures r.Some? ==> r.value.socket == client
  {
    if client.closed || getStream == IoErr {
      return None;
    }
    return Some(InputStream(client));
  }

  /**
   * `readInputStream`: on success, every byte the peer has sent and this end
   * has not yet read, which are then consumed; a timeout is re-thrown; any
   * other failure, including a closed socket, yields no bytes and consumes
   * nothing.
   */
  method ReadInputStream(stream: InputStream, read: BlockingOutcome) returns (r: Completion<seq<uint8>>)
    modifies stream.socket.input
    ensures stream.socket.closed || read == Failed ==>
      r == Normal([]) && stream.socket.input.data == old(stream.socket.input.data)
    ensures !stream.socket.closed && read == TimedOut ==>
      r == TimeoutSignal && stream.socket.input.data == old(stream.socket.input.data)
    ensures !stream.socket.closed && read == Completed ==>
      r == Normal(old(stream.socket.input.data)) && stream.socket.input.data == []
  {
    if stream.socket.closed || read == Failed {
      return Normal([]);
    }
    if read == TimedOut {
      return TimeoutSignal;
    }
    var pipe := stream.socket.input;
    var bytes := pipe.data;
    pipe.data := [];
    return Normal(bytes);
  }

  /**
   * `closeInputStream`: true exactly when the stream's close does not throw.
   * Closing the stream closes its socket.
   */
  method CloseInputStream(stream: InputStream, close: Outcome) returns (ok: bool)
    modifies stream.socket`closed
    ensures ok == (close == Success)
    ensures stream.socket.closed == (old(stream.socket.closed) || ok)
  {
    if close == IoErr {
      return false;
    }
    stream.socket.closed := true;
    return true;
  }
}
