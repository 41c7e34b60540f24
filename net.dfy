/**
 * Abstract handles for the `java.net` objects the utilities manage. The
 * host's TCP layer is a `Network` object: the ports that have a listener and,
 * per listening port, the queue of connections the layer has completed and
 * that wait for `accept`. A connection is two `Pipe`s, one per direction,
 * shared by its two `Socket` ends, so that what one end writes is what the
 * other end reads.
 */
module Net {
  import opened Platform

  /** The port-range guard of both `createSocket` methods. */
  predicate ValidPort(port: int32) {
    0 <= port <= 65535
  }

  /** One direction of a connection: bytes sent by one end and not yet read by the other. */
  class Pipe {
    var data: seq<uint8>

    constructor ()
      ensures data == []
    {
      data := [];
    }
  }

  /** A connection completed by the TCP layer and queued on a listening port until it is accepted. */
  datatype PendingConnection = PendingConnection(clientPort: int32, toServer: Pipe, toClient: Pipe)

  class Network {
    /** The local ports that have a listening socket. */
    var bound: set<int32>
    /** The accept queue of each listening port. */
    var backlog: map<int32, seq<PendingConnection>>

    /** Only a port with a listener has an accept queue. */
    ghost predicate Valid()
      reads this
    {
      backlog.Keys <= bound
    }

    /** The connections waiting on `port`, oldest first. */
    function Pending(port: int32): seq<PendingConnection>
      reads this
    {
      if port in backlog then backlog[port] else []
    }

    constructor ()
      ensures Valid() && bound == {} && backlog == map[]
    {
      bound := {};
      backlog := map[];
    }
  }

  /** `java.net.ServerSocket`: a listener bound to `localPort`. */
  class ServerSocket {
    const net: Network
    const localPort: int32
    var closed: bool
    /** The accept timeout in milliseconds; 0 means accept waits without limit. */
    var soTimeout: int32

    constructor (net: Network, localPort: int32)
      ensures this.net == net && this.localPort == localPort
      ensures !closed && soTimeout == 0
    {
      this.net := net;
      this.localPort := localPort;
      closed := false;
      soTimeout := 0;
    }
  }

  /** `java.net.Socket`: one end of a connection. */
  class Socket {
    const localPort: int32
    const remotePort: int32
    /** The bytes the peer has sent to this end. */
    const input: Pipe
    /** The bytes this end has sent to the peer. */
    const output: Pipe
    var closed: bool
    /** The read timeout in milliseconds; 0 means a read waits without limit. */
    var soTimeout: int32

    constructor (localPort: int32, remotePort: int32, input: Pipe, output: Pipe)
      ensures this.localPort == localPort && this.remotePort == remotePort
      ensures this.input == input && this.output == output
      ensures !closed && soTimeout == 0
    {
      this.localPort := localPort;
      this.remotePort := remotePort;
      this.input := input;
      this.output := output;
      closed := false;
      soTimeout := 0;
    }
  }

  /**
   * The stream a socket hands out for reading. It has no state of its own:
   * it reads the socket's input pipe, and closing it closes the socket.
   */
  datatype InputStream = InputStream(socket: Socket)

  /** The stream a socket hands out for writing: it appends to the socket's output pipe. */
  datatype OutputStream = OutputStream(socket: Socket)
}
