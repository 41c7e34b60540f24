/**
 * The listening-socket manager: bind, accept, close and the accept timeout.
 * Every failure collapses into an empty `Option` or `false`; the conversion
 * error of the unit-taking timeout setter is the one thing thrown.
 */
module ServerSocketUtils {
  import opened Platform
  import opened Net
  import TimeUtils

  /**
   * `createSocket`: an out-of-range port is refused before any bind attempt.
   * Otherwise the bind succeeds unless the port already has a listener or the
   * bind itself fails (`bind`); port 0 lets the OS pick the free port
   * `ephemeral`.
   */
  method CreateSocket(net: Network, port: int32, bind: Outcome, ephemeral: int32) returns (r: Option<ServerSocket>)
    requires net.Valid()
    requires port == 0 && bind == Success ==> 0 < ephemeral <= 65535 && ephemeral !in net.bound
    modifies net
    ensures net.Valid()
    ensures r.Some? <==> ValidPort(port) && bind == Success && (port == 0 || port !in old(net.bound))
    ensures r.Some? ==>
      && fresh(r.value) && r.value.net == net
      && !r.value.closed && r.value.soTimeout == 0
      && r.value.localPort == (if port == 0 then ephemeral else port)
      && net.bound == old(net.bound) + {r.value.localPort}
    ensures r.None? ==> net.bound == old(net.bound)
    ensures net.backlog == old(net.backlog)
  {
    if port < 0 || port > 65535 {
      return None;
    }
    var local := if port == 0 then ephemeral else port;
    if bind == IoErr || local in net.bound {
      return None;
    }
    var socket := new ServerSocket(net, local);
    net.bound := net.bound + {local};
    return Some(socket);
  }

  /**
   * `acceptConnection`: takes the oldest queued connection and returns the
   * server's end of it. A closed listener, an elapsed accept timeout and any
   * other I/O failure all give an empty result alike.
   */
  method AcceptConnection(server: ServerSocket, accept: BlockingOutcome) returns (r: Option<Socket>)
    requires server.net.Valid()
    modifies server.net
    ensures server.net.Valid()
    ensures r.Some? <==> !server.closed && accept == Completed && old(server.net.Pending(server.localPort)) != []
    ensures r.Some? ==>
      var c := old(server.net.Pending(server.localPort))[0];
      && fresh(r.value) && !r.value.closed && r.value.soTimeout == 0
      && r.value.localPort == server.localPort && r.value.remotePort == c.clientPort
      && r.value.input == c.toServer && r.value.output == c.toClient
      && server.net.bound == old(server.net.bound)
      && server.net.backlog == old(server.net.backlog)[server.localPort := old(server.net.Pending(server.localPort))[1..]]
    ensures r.None? ==> unchanged(server.net)
  {
    var net := server.net;
    var queue := net.Pending(server.localPort);
    if server.closed || accept != Completed || queue == [] {
      return None;
    }
    var c := queue[0];
    var client := new Socket(server.localPort, c.clientPort, c.toServer, c.toClient);
    net.backlog := net.backlog[server.localPort := queue[1..]];
    return Some(client);
  }

  /**
   * `closeConnection`: a listener that is already closed reports success
   * without calling close. Otherwise the result is the closed state after the
   * underlying close, or false when that close throws; a successful close
   * frees the port and drops its accept queue.
   */
  method CloseConnection(server: ServerSocket, close: Outcome) returns (ok: bool)
    requires server.net.Valid()
    modifies server`closed, server.net
    ensures server.net.Valid()
    ensures old(server.closed) ==> ok && server.closed && unchanged(server.net)
    ensures !old(server.closed) ==> ok == (close == Success) && server.closed == ok
    ensures !old(server.closed) && ok ==>
      && server.net.bound == old(server.net.bound) - {server.localPort}
      && server.net.backlog == old(server.net.backlog) - {server.localPort}
    ensures !ok ==> unchanged(server.net)
  {
    if server.closed {
      return true;
    }
    if close == IoErr {
      return false;
    }
    server.closed := true;
    var net := server.net;
    net.bound := net.bound - {server.localPort};
    net.backlog := net.backlog - {server.localPort};
    return server.closed;
  }

  /**
   * `setTimeout(server, timeout)`: a non-positive timeout is refused without
   * touching the listener; otherwise the timeout is set unless the listener
   * is closed or `setSoTimeout` throws.
   */
  method SetTimeout(server: ServerSocket, timeout: int32, setSoTimeout: Outcome) returns (ok: bool)
    modifies server`soTimeout
    ensures ok <==> timeout > 0 && !server.closed && setSoTimeout == Success
    ensures server.soTimeout == if ok then timeout else old(server.soTimeout)
  {
    if timeout <= 0 {
      return false;
    }
    if server.closed || setSoTimeout == IoErr {
      return false;
    }
    server.soTimeout := timeout;
    return true;
  }

  /**
   * `setTimeout(server, duration, unit)`: the duration is converted first; a
   * conversion error is thrown before the listener is touched, and a
   * converted value is handed to `SetTimeout`.
   */
  method SetTimeoutInUnit(server: ServerSocket, duration: int32, unit: TimeUtils.TimeUnit, setSoTimeout: Outcome)
    returns (r: Result<bool, TimeUtils.ConvertError>)
    modifies server`soTimeout
    ensures TimeUtils.ConvertToMilliseconds(duration, unit).Err? ==>
      r == Err(TimeUtils.InvalidUnit) && server.soTimeout == old(server.soTimeout)
    ensures TimeUtils.ConvertToMilliseconds(duration, unit).Ok? ==>
      var timeout := TimeUtils.ConvertToMilliseconds(duration, unit).value;
      && r.Ok? && (r.value <==> timeout > 0 && !server.closed && setSoTimeout == Success)
      && server.soTimeout == if r.value then timeout else old(server.soTimeout)
  {
    var converted := TimeUtils.ConvertToMilliseconds(duration, unit);
    if converted.Err? {
      return Err(converted.error);
    }
    var ok := SetTimeout(server, converted.value, setSoTimeout);
    return Ok(ok);
  }
}
