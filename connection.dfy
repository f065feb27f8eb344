/** How `check_connection` and `connect` decide about the client handle. */
module Connection {

  import opened Optional
  import opened Settings

  /** The arguments `connect` passes to the status-server client. */
  datatype ClientParams = ClientParams(host: string, port: int, login: Option<string>, password: Option<string>)

  /** `connect`: credentials are omitted when authentication is off or the field is empty. */
  function ConnectParams(host: string, port: int, auth: bool, username: string, password: string): (p: ClientParams)
    ensures p.host == host && p.port == port
    ensures p.login.None? <==> !auth || username == ""
    ensures p.password.None? <==> !auth || password == ""
    ensures p.login.Some? ==> p.login.value == username
    ensures p.password.Some? ==> p.password.value == password
  {
    ClientParams(host, port,
      if !auth || username == "" then None else Some(username),
      if !auth || password == "" then None else Some(password))
  }

  /** The client `check_connection` opens from the stored configuration. */
  function ParamsFor(config: Config): ClientParams
  {
    ConnectParams(config.host, config.port, config.auth, config.username, config.password)
  }

  /** What the liveness probe `ver()` on an existing handle does. */
  datatype Probe =
    | ProbeOk
    | NameOrAttributeError  // caught and ignored: falls through to a reconnect
    | Broken                // EOFError, BrokenPipeError, ConnectionAbortedError
    | OtherError            // any other exception: not caught

  /** What the reconnect attempt does: `connect` raises, or it succeeds and the new handle's `ver()` fails or succeeds. */
  datatype Reconnect = ConnectFails | ConnectOkProbeFails | ConnectOkProbeOk

  datatype ConnLog = LogConnecting | LogConnectionLost | LogConnected | LogUnableToConnect

  /** What happens to `self.ups`. */
  datatype HandleChange = Keep | Replace(params: ClientParams)

  /** `check_connection` returns a boolean or lets the probe's exception escape. */
  datatype CheckOutcome = Returned(connected: bool) | Raised

  datatype Check = Check(change: HandleChange, outcome: CheckOutcome, log: seq<ConnLog>)

  /** The probe on an existing handle asks for a reconnect. */
  predicate ProbeFallsThrough(probe: Probe)
  {
    probe == NameOrAttributeError || probe == Broken
  }

  /** `check_connection`, given whether a handle exists and the outcomes of the calls it makes. */
  function ConnectionCheck(hasHandle: bool, probe: Probe, reconnect: Reconnect, config: Config): (c: Check)
    // a live handle is kept and no reconnect is tried
    ensures hasHandle && probe == ProbeOk ==> c == Check(Keep, Returned(true), [])
    // an unexpected probe error escapes and leaves the handle alone
    ensures hasHandle && probe == OtherError ==> c == Check(Keep, Raised, [])
    // the reconnect path
    ensures !hasHandle || ProbeFallsThrough(probe) ==>
      c.outcome == Returned(reconnect == ConnectOkProbeOk) &&
      (reconnect == ConnectFails <==> c.change == Keep) &&
      (c.change.Replace? ==> c.change.params == ParamsFor(config))
    // connected means the existing or the new handle answered the probe
    ensures c.outcome == Returned(true) <==>
      (hasHandle && probe == ProbeOk) || ((!hasHandle || ProbeFallsThrough(probe)) && reconnect == ConnectOkProbeOk)
  {
    if hasHandle && probe == ProbeOk then Check(Keep, Returned(true), [])
    else if hasHandle && probe == OtherError then Check(Keep, Raised, [])
    else
      var lead := if !hasHandle then [LogConnecting] else if probe == Broken then [LogConnectionLost] else [];
      match reconnect
      case ConnectFails => Check(Keep, Returned(false), lead + [LogUnableToConnect])
      case ConnectOkProbeFails => Check(Replace(ParamsFor(config)), Returned(false), lead + [LogUnableToConnect])
      case ConnectOkProbeOk => Check(Replace(ParamsFor(config)), Returned(true), lead + [LogConnected])
  }

  /** The messages a reconnect logs: "Connected!" exactly once when it succeeds, "Unable to connect" otherwise. */
  lemma ConnectionLog(hasHandle: bool, probe: Probe, reconnect: Reconnect, config: Config)
    requires !hasHandle || ProbeFallsThrough(probe)
    ensures var log := ConnectionCheck(hasHandle, probe, reconnect, config).log;
      multiset(log)[LogConnected] == (if reconnect == ConnectOkProbeOk then 1 else 0) &&
      (LogUnableToConnect in log <==> reconnect != ConnectOkProbeOk) &&
      (LogConnecting in log <==> !hasHandle) &&
      (LogConnectionLost in log <==> hasHandle && probe == Broken)
  {
  }
}
