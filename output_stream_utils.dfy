/**
 * The outbound stream adapter: obtain a socket's output stream, write text as
 * UTF-8, close the stream. A write timeout is re-thrown; every other write
 * failure is reported as 0 bytes written.
 */
module OutputStreamUtils {
  import opened Platform
  import opened Text
  import opened Net
  import Utf8

  /**
   * `getOutputStream`: the socket's output stream, or nothing when the socket
   * is closed or the underlying call throws.
   */
  method GetOutputStream(client: Socket, getStream: Outcome) returns (r: Option<OutputStream>)
    ensures r.Some? <==> !client.closed && getStream == Success
    ensures r.Some? ==> r.value.socket == client
  {
    if client.closed || getStream == IoErr {
      return None;
    }
    return Some(OutputStream(client));
  }

  /**
   * The bytes `writeOutputStream` hands to the stream: none for a blank
   * string, otherwise the UTF-8 encoding of the string, which decodes back to
   * exactly that string.
   */
  function Payload(str: JavaString): (b: seq<uint8>)
    ensures b == [] <==> IsBlank(str)
    ensures Utf8.Decode(b) == Some(if IsBlank(str) then [] else str)
  {
    if IsBlank(str) then []
    else
      Utf8.DecodeEncode(str);
      Utf8.Encode(str)
  }

  /**
   * `writeOutputStreamBytes`: one write of all of `data`. On success the
   * bytes are appended to what the socket has sent and their number is
   * returned; a timeout is re-thrown; any other failure, including a closed
   * socket, writes nothing and returns 0.
   */
  method WriteOutputStreamBytes(stream: OutputStream, data: seq<uint8>, write: BlockingOutcome)
    returns (r: Completion<nat>)
    modifies stream.socket.output
    ensures stream.socket.closed || write == Failed ==>
      r == Normal(0) && stream.socket.output.data == old(stream.socket.output.data)
    ensures !stream.socket.closed && write == TimedOut ==>
      r == TimeoutSignal && stream.socket.output.data == old(stream.socket.output.data)
    ensures !stream.socket.closed && write == Completed ==>
      r == Normal(|data|) && stream.socket.output.data == old(stream.socket.output.data) + data
  {
    if stream.socket.closed || write == Failed {
      return Normal(0);
    }
    if write == TimedOut {
      return TimeoutSignal;
    }
    var pipe := stream.socket.output;
    pipe.data := pipe.data + data;
    return Normal(|data|);
  }

  /**
   * `writeOutputStream`: a blank string is a no-op returning 0; any other
   * string is written as its UTF-8 encoding, its `Payload`, in one write. The
   * count returned is always 0 or the encoded length.
   */
  method WriteOutputStream(stream: OutputStream, str: JavaString, write: BlockingOutcome)
    returns (r: Completion<nat>)
    modifies stream.socket.output
    ensures IsBlank(str) || stream.socket.closed || write == Failed ==>
      r == Normal(0) && stream.socket.output.data == old(stream.socket.output.data)
    ensures !IsBlank(str) && !stream.socket.closed && write == TimedOut ==>
      r == TimeoutSignal && stream.socket.output.data == old(stream.socket.output.data)
    ensures !IsBlank(str) && !stream.socket.closed && write == Completed ==>
      && r == Normal(|Utf8.Encode(str)|)
      && stream.socket.output.data == old(stream.socket.output.data) + Payload(str)
    ensures r.Normal? ==> r.value == 0 || r.value == |Utf8.Encode(str)|
  {
    if IsBlank(str) {
      return Normal(0);
    }
    r := WriteOutputStreamBytes(stream, Payload(str), write);
  }

  /**
   * `closeOutputStream`: always calls the stream's close, which closes the
   * socket; true unless that close throws. Closing again is a no-op that
   * succeeds.
   */
  method CloseOutputStream(stream: OutputStream, close: Outcome) returns (ok: bool)
    modifies stream.socket`closed
    ensures ok == (close == Success)
    ensures stream.socket.closed == (old(stream.socket.closed) || ok)
  {
    if close == IoErr {
      return false;
    }
    stream.socket.closed := true;
    return true;
  }
}
