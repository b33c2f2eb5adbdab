/**
 * `PortManager` (src/web/portManager.ts): the two optional fields `port`
 * and `transport` and the operations that set, keep or clear them. The
 * user's grant, the authorized-port list and the success or failure of
 * every foreign call are parameters; the calls the manager makes are
 * recorded in a ghost log.
 */
module PortManagement {
  import opened Wrappers
  import opened Host
  import opened PortMatching

  const RequestFailedMessage: string := "Could not request serial port"
  const PortNotFoundMessage: string := "Could not find selected port"
  const PortInitPrefix: string := "Port initialization failed: "
  const ClosePortErrorPrefix: string := "Error closing port: "
  const ConnectErrorPrefix: string := "Transport connection error: "
  const DisconnectErrorPrefix: string := "Error disconnecting transport: "
  /** How long `connect` lets an existing transport wait for its lock (the wait is not awaited). */
  const ConnectUnlockWait: nat := 10000

  /** A call the manager makes on the host, the port or the transport. */
  datatype PortEffect =
    | Prompt(call: PortPrompt)                      // one of `getPort`'s two calls
    | PortClose(port: SerialPort)                   // `port.close()`
    | WaitForUnlock(transport: Transport, ms: nat)  // `transport.waitForUnlock(ms)`
    | DisconnectTransport(transport: Transport)     // `transport.disconnect()`
    | ShowError(message: string)                    // `window.showErrorMessage(...)`

  /** The calls `getPort` makes when it has no cached port. */
  function PromptEffects(grant: Option<PortInfo>): seq<PortEffect>
  {
    if grant.None? then [Prompt(RequestSerialPort)] else [Prompt(RequestSerialPort), Prompt(GetAuthorizedPorts)]
  }

  /** The calls `closePort` makes on a port it holds (`port`), and the error it shows when the close fails. */
  function CloseEffects(port: Option<SerialPort>, close: Outcome<Thrown>): seq<PortEffect>
  {
    if port.None? then []
    else [PortClose(port.value)] + (if close.Fail? then [ShowError(ClosePortErrorPrefix + MessageOf(close.error))] else [])
  }

  /** The error `getPort` throws: its own message behind the fixed prefix. */
  function GetPortError(grant: Option<PortInfo>): (e: Thrown)
    ensures e.ErrorObject? && |e.message| > |PortInitPrefix| && e.message[..|PortInitPrefix|] == PortInitPrefix
  {
    ErrorObject(PortInitPrefix + (if grant.None? then RequestFailedMessage else PortNotFoundMessage))
  }

  class PortManager {
    var port: Option<SerialPort>
    var transport: Transport?
    /** Every call made, in order. */
    ghost var log: seq<PortEffect>

    constructor ()
      ensures port.None? && transport == null && log == []
    {
      port := None;
      transport := null;
      log := [];
    }

    /** `isConnected()`: a transport is held, whether or not a port is cached. */
    function IsConnected(): (b: bool)
      reads this
      ensures b <==> transport != null
    {
      transport != null
    }

    /**
     * `getPort()`: the cached port without prompting; otherwise prompt, store
     * and return the first matching authorized port, or throw with the
     * port left unset.
     */
    method GetPort(grant: Option<PortInfo>, authorized: seq<SerialPort>) returns (r: Result<SerialPort, Thrown>)
      modifies this`port, this`log
      ensures old(port).Some? ==> r == Success(old(port).value) && port == old(port) && log == old(log)
      ensures old(port).None? ==> log == old(log) + PromptEffects(grant)
      ensures old(port).None? && ResolveGrant(grant, authorized).Some? ==>
        port == ResolveGrant(grant, authorized) && r == Success(port.value)
      ensures old(port).None? && ResolveGrant(grant, authorized).None? ==>
        port.None? && r == Failure(GetPortError(grant))
    {
      if port.Some? {
        return Success(port.value);
      }
      log := log + [Prompt(RequestSerialPort)];
      if grant.None? {
        return Failure(GetPortError(grant));
      }
      log := log + [Prompt(GetAuthorizedPorts)];
      var found := FindPort(authorized, grant.value);
      if found.None? {
        return Failure(GetPortError(grant));
      }
      port := found;
      r := Success(found.value);
    }

    /**
     * `closePort()`: a successful close clears `port`; a failed close is
     * reported and swallowed, and `port` stays set. `transport` is never touched.
     */
    method ClosePort(close: Outcome<Thrown>)
      modifies this`port, this`log
      ensures transport == old(transport)
      ensures old(port).None? ==> port.None? && log == old(log)
      ensures old(port).Some? && close.Pass? ==> port.None? && log == old(log) + [PortClose(old(port).value)]
      ensures old(port).Some? && close.Fail? ==>
        port == old(port) &&
        log == old(log) + [PortClose(old(port).value), ShowError(ClosePortErrorPrefix + MessageOf(close.error))]
    {
      if port.Some? {
        log := log + [PortClose(port.value)];
        if close.Fail? {
          log := log + [ShowError(ClosePortErrorPrefix + MessageOf(close.error))];
          return;
        }
        port := None;
      }
    }

    /** `changePort()`: close, then get; a failed close leaves the old port cached, so it is returned without prompting. */
    method ChangePort(close: Outcome<Thrown>, grant: Option<PortInfo>, authorized: seq<SerialPort>)
      returns (r: Result<SerialPort, Thrown>)
      modifies this`port, this`log
      ensures transport == old(transport)
      ensures old(log) <= log
      ensures old(port).Some? && close.Fail? ==>
        r == Success(old(port).value) && port == old(port) && Prompt(RequestSerialPort) !in log[|old(log)|..]
      ensures log == old(log) + CloseEffects(old(port), close) + (if old(port).Some? && close.Fail? then [] else PromptEffects(grant))
      ensures old(port).None? || close.Pass? ==>
        && Prompt(RequestSerialPort) in log[|old(log)|..]
        && port == ResolveGrant(grant, authorized)
        && r == (if port.Some? then Success(port.value) else Failure(GetPortError(grant)))
    {
      ClosePort(close);
      ghost var mid := log;
      r := GetPort(grant, authorized);
      if old(port).None? || close.Pass? {
        assert log[|old(log)|..] == mid[|old(log)|..] + PromptEffects(grant);
      }
    }

    /**
     * `connect()`: ensure a port (prompting if none is cached), then build a
     * transport only if none exists; an existing transport is returned as it
     * is, even when it was built over an earlier port. A `getPort` failure is
     * reported and re-thrown.
     */
    method Connect(grant: Option<PortInfo>, authorized: seq<SerialPort>) returns (r: Result<Transport, Thrown>)
      modifies this
      ensures old(port).Some? ==> port == old(port)
      ensures old(port).None? ==> port == ResolveGrant(grant, authorized)
      ensures r.Success? <==> port.Some?
      ensures r.Failure? ==>
        && transport == old(transport)
        && r.error == GetPortError(grant)
        && log == old(log) + PromptEffects(grant) + [ShowError(ConnectErrorPrefix + MessageOf(r.error))]
      ensures r.Success? ==> transport == r.value && IsConnected()
      ensures r.Success? && old(transport) != null ==>
        r.value == old(transport) && log == old(log) + (if old(port).None? then PromptEffects(grant) else []) + [WaitForUnlock(r.value, ConnectUnlockWait)]
      ensures r.Success? && old(transport) == null ==>
        fresh(r.value) && r.value.device == port.value && log == old(log) + (if old(port).None? then PromptEffects(grant) else [])
    {
      if port.None? {
        var got := GetPort(grant, authorized);
        if got.Failure? {
          log := log + [ShowError(ConnectErrorPrefix + MessageOf(got.error))];
          return Failure(got.error);
        }
      }
      if transport == null {
        transport := new Transport(port.value);
        return Success(transport);
      }
      log := log + [WaitForUnlock(transport, ConnectUnlockWait)];
      r := Success(transport);
    }

    /** `disconnect()`: a successful disconnect clears `transport`; a failure is reported and re-thrown with `transport` kept. `port` is never touched. */
    method Disconnect(disconnect: Outcome<Thrown>) returns (r: Outcome<Thrown>)
      modifies this`transport, this`log
      ensures port == old(port)
      ensures r.Pass? <==> !IsConnected()
      ensures old(transport) == null ==> r == Pass && transport == null && log == old(log)
      ensures old(transport) != null && disconnect.Pass? ==>
        r == Pass && transport == null && log == old(log) + [DisconnectTransport(old(transport))]
      ensures old(transport) != null && disconnect.Fail? ==>
        && r == disconnect && transport == old(transport)
        && log == old(log) + [DisconnectTransport(old(transport)), ShowError(DisconnectErrorPrefix + MessageOf(disconnect.error))]
    {
      if transport != null {
        log := log + [DisconnectTransport(transport)];
        if disconnect.Fail? {
          log := log + [ShowError(DisconnectErrorPrefix + MessageOf(disconnect.error))];
          return disconnect;
        }
        transport := null;
      }
      r := Pass;
    }

    /** `reset()`: disconnect, close, clear both. A disconnect failure escapes before anything is cleared. */
    method Reset(disconnect: Outcome<Thrown>, close: Outcome<Thrown>) returns (r: Outcome<Thrown>)
      modifies this`port, this`transport, this`log
      ensures r == (if old(transport) != null then disconnect else Pass)
      ensures r.Pass? ==> port.None? && transport == null && !IsConnected()
      ensures r.Fail? ==> port == old(port) && transport == old(transport)
      ensures old(transport) == null ==> log == old(log) + CloseEffects(old(port), close)
      ensures old(transport) != null && disconnect.Pass? ==>
        log == old(log) + [DisconnectTransport(old(transport))] + CloseEffects(old(port), close)
      ensures old(transport) != null && disconnect.Fail? ==>
        log == old(log) + [DisconnectTransport(old(transport)), ShowError(DisconnectErrorPrefix + MessageOf(disconnect.error))]
    {
      r := Disconnect(disconnect);
      if r.Fail? {
        return;
      }
      ClosePort(close);
      transport := null;
      port := None;
    }
  }

  /** Two `connect()` calls with no `disconnect()` between them return the same transport. */
  method ConnectTwice(manager: PortManager, grant1: Option<PortInfo>, authorized1: seq<SerialPort>,
                      grant2: Option<PortInfo>, authorized2: seq<SerialPort>)
    returns (r1: Result<Transport, Thrown>, r2: Result<Transport, Thrown>)
    modifies manager
    ensures r1.Success? ==> r2.Success? && r2.value == r1.value
  {
    r1 := manager.Connect(grant1, authorized1);
    r2 := manager.Connect(grant2, authorized2);
  }
}
