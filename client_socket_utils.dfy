/**
 * The connected-socket manager: connect, close and the read timeout. Used
 * both for sockets a client opens and for the server ends `accept` returns.
 */
module ClientSocketUtils {
  import opened Platform
  import opened Net
  import TimeUtils

  /**
   * `createSocket(host, port)`: an out-of-range port is refused before any
   * connection attempt. Otherwise the connection is made exactly when the
   * port has a listener and the connect itself succeeds (`connect` stands for
   * everything else that can fail, such as an unresolvable `host`). Unlike
   * bind, connecting does not exclude other connections to the same port: the
   * new connection joins the listener's accept queue, with `ephemeral` as the
   * client's local port.
   */
  method CreateSocket(net: Network, host: string, port: int32, connect: Outcome, ephemeral: int32)
    returns (r: Option<Socket>)
    requires net.Valid()
    modifies net
    ensures net.Valid()
    ensures r.Some? <==> ValidPort(port) && connect == Success && port in old(net.bound)
    ensures r.Some? ==>
      && fresh(r.value) && fresh(r.value.input) && fresh(r.value.output)
      && r.value.input != r.value.output
      && !r.value.closed && r.value.soTimeout == 0
      && r.value.remotePort == port && r.value.localPort == ephemeral
      && r.value.input.data == [] && r.value.output.data == []
      && net.bound == old(net.bound)
      && net.backlog == old(net.backlog)[port := old(net.Pending(port)) + [PendingConnection(ephemeral, r.value.output, r.value.input)]]
    ensures r.None? ==> unchanged(net)
  {
    if port < 0 || port > 65535 {
      return None;
    }
    if connect == IoErr || port !in net.bound {
      return None;
    }
    var toServer := new Pipe();
    var toClient := new Pipe();
    var client := new Socket(ephemeral, port, toClient, toServer);
    net.backlog := net.backlog[port := net.Pending(port) + [PendingConnection(ephemeral, toServer, toClient)]];
    return Some(client);
  }

  /**
   * `closeConnection`: always calls the underlying close, with no check of
   * the closed state first, and reports the closed state afterwards; false
   * when that close throws. Closing a closed socket is a no-op that succeeds.
   */
  method CloseConnection(client: Socket, close: Outcome) returns (ok: bool)
    modifies client`closed
    ensures ok == (close == Success)
    ensures client.closed == (old(client.closed) || ok)
  {
    if close == IoErr {
      return false;
    }
    client.closed := true;
    return client.closed;
  }

  /**
   * `setTimeout(client, timeout)`: a non-positive timeout is refused without
   * touching the socket; otherwise the timeout is set unless the socket is
   * closed or `setSoTimeout` throws.
   */
  method SetTimeout(client: Socket, timeout: int32, setSoTimeout: Outcome) returns (ok: bool)
    modifies client`soTimeout
    ensures ok <==> timeout > 0 && !client.closed && setSoTimeout == Success
    ensures client.soTimeout == if ok then timeout else old(client.soTimeout)
  {
    if timeout <= 0 {
      return false;
    }
    if client.closed || setSoTimeout == IoErr {
      return false;
    }
    client.soTimeout := timeout;
    return true;
  }

  /**
   * `setTimeout(client, duration, unit)`: converts first, throwing the
   * conversion error unchanged, then hands the milliseconds to `SetTimeout`.
   */
  method SetTimeoutInUnit(client: Socket, duration: int32, unit: TimeUtils.TimeUnit, setSoTimeout: Outcome)
    returns (r: Result<bool, TimeUtils.ConvertError>)
    modifies client`soTimeout
    ensures TimeUtils.ConvertToMilliseconds(duration, unit).Err? ==>
      r == Err(TimeUtils.InvalidUnit) && client.soTimeout == old(client.soTimeout)
    ensures TimeUtils.ConvertToMilliseconds(duration, unit).Ok? ==>
      var timeout := TimeUtils.ConvertToMilliseconds(duration, unit).value;
      && r.Ok? && (r.value <==> timeout > 0 && !client.closed && setSoTimeout == Success)
      && client.soTimeout == if r.value then timeout else old(client.soTimeout)
  {
    var converted := TimeUtils.ConvertToMilliseconds(duration, unit);
    if converted.Err? {
      return Err(converted.error);
    }
    var ok := SetTimeout(client, converted.value, setSoTimeout);
    return Ok(ok);
  }
}
