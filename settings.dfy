/** The plugin's configuration and the test in `on_settings_save` that drops the connection. */
module Settings {

  import opened Optional

  /** The settings the monitoring loop reads (`self.config`). */
  datatype Config = Config(
    host: string,
    port: int,
    auth: bool,
    username: string,
    password: string,
    ups: string,
    pause: bool,
    pauseThreshold: int)

  /** The settings a save submits; a key the client did not send is `None`. */
  datatype SettingsData = SettingsData(
    host: Option<string>,
    port: Option<int>,
    auth: Option<bool>,
    username: Option<string>,
    password: Option<string>,
    ups: Option<string>,
    pause: Option<bool>,
    pauseThreshold: Option<int>)

  /** Python truthiness of `data.get(k)` for the three value types. */
  predicate TruthyStr(v: Option<string>) { v.Some? && v.value != "" }
  predicate TruthyInt(v: Option<int>) { v.Some? && v.value != 0 }
  predicate TruthyBool(v: Option<bool>) { v == Some(true) }

  /** A key whose new value is truthy and differs from the stored one. */
  predicate NewStr(v: Option<string>, stored: string) { TruthyStr(v) && v.value != stored }
  predicate NewBool(v: Option<bool>, stored: bool) { TruthyBool(v) && v.value != stored }

  /**
   * The condition of `on_settings_save`, evaluated left to right as Python's `or` does.
   * `None` is the `KeyError` raised when `port` is truthy and no `host` was sent:
   * the port clause reads `data['host']`.
   */
  function ConnectionInfoChanged(data: SettingsData, stored: Config): (r: Option<bool>)
    ensures r.None? <==> TruthyInt(data.port) && data.host.None?
    ensures r.Some? ==> (r.value <==>
      NewStr(data.host, stored.host) ||
      (TruthyInt(data.port) && data.host.Some? && data.host.value != stored.host) ||
      NewBool(data.auth, stored.auth) ||
      NewStr(data.username, stored.username) ||
      NewStr(data.password, stored.password) ||
      NewStr(data.ups, stored.ups))
    // The port clause compares `host`: a new port never makes the result true by itself.
    ensures r == Some(true) && !TruthyStr(data.host) ==> (
      (data.host == Some("") && stored.host != "") ||
      NewBool(data.auth, stored.auth) || NewStr(data.username, stored.username) ||
      NewStr(data.password, stored.password) || NewStr(data.ups, stored.ups))
  {
    if TruthyStr(data.host) && data.host.value != stored.host then Some(true)
    else if TruthyInt(data.port) && data.host.None? then None
    else if TruthyInt(data.port) && data.host.value != stored.host then Some(true)
    else if TruthyBool(data.auth) && data.auth.value != stored.auth then Some(true)
    else if TruthyStr(data.username) && data.username.value != stored.username then Some(true)
    else if TruthyStr(data.password) && data.password.value != stored.password then Some(true)
    else if TruthyStr(data.ups) && data.ups.value != stored.ups then Some(true)
    else Some(false)
  }

  /** Storing the submitted values and re-reading the settings: each key sent replaces the stored one. */
  function Merge(stored: Config, data: SettingsData): (c: Config)
    ensures data.host.Some? ==> c.host == data.host.value
    ensures data.host.None? ==> c.host == stored.host
    ensures data.port.Some? ==> c.port == data.port.value
    ensures data.port.None? ==> c.port == stored.port
    ensures data.auth.Some? ==> c.auth == data.auth.value
    ensures data.auth.None? ==> c.auth == stored.auth
    ensures data.username.Some? ==> c.username == data.username.value
    ensures data.username.None? ==> c.username == stored.username
    ensures data.password.Some? ==> c.password == data.password.value
    ensures data.password.None? ==> c.password == stored.password
    ensures data.ups.Some? ==> c.ups == data.ups.value
    ensures data.ups.None? ==> c.ups == stored.ups
    ensures data.pause.Some? ==> c.pause == data.pause.value
    ensures data.pause.None? ==> c.pause == stored.pause
    ensures data.pauseThreshold.Some? ==> c.pauseThreshold == data.pauseThreshold.value
    ensures data.pauseThreshold.None? ==> c.pauseThreshold == stored.pauseThreshold
  {
    Config(
      if data.host.Some? then data.host.value else stored.host,
      if data.port.Some? then data.port.value else stored.port,
      if data.auth.Some? then data.auth.value else stored.auth,
      if data.username.Some? then data.username.value else stored.username,
      if data.password.Some? then data.password.value else stored.password,
      if data.ups.Some? then data.ups.value else stored.ups,
      if data.pause.Some? then data.pause.value else stored.pause,
      if data.pauseThreshold.Some? then data.pauseThreshold.value else stored.pauseThreshold)
  }

  /** Saving the same settings twice stores what saving them once does. */
  lemma MergeIdempotent(stored: Config, data: SettingsData)
    ensures Merge(Merge(stored, data), data) == Merge(stored, data)
  {
  }

  /** A save that submits no key keeps the stored settings. */
  lemma MergeNothing(stored: Config)
    ensures Merge(stored, SettingsData(None, None, None, None, None, None, None, None)) == stored
  {
  }

  /** The settings as the client sends them after editing only the port. */
  function WithPort(stored: Config, port: int): SettingsData
  {
    SettingsData(Some(stored.host), Some(port), Some(stored.auth), Some(stored.username),
                 Some(stored.password), Some(stored.ups), Some(stored.pause), Some(stored.pauseThreshold))
  }

  /** Changing only the port keeps the connection, because the port clause compares the host. */
  lemma PortAloneKeepsConnection(stored: Config, port: int)
    ensures ConnectionInfoChanged(WithPort(stored, port), stored) == Some(false)
  {
  }

  /** Turning authentication off keeps the connection: `False` is never truthy. */
  lemma AuthOffKeepsConnection(stored: Config)
    requires stored.auth
    ensures ConnectionInfoChanged(SettingsData(Some(stored.host), Some(stored.port), Some(false), Some(stored.username),
      Some(stored.password), Some(stored.ups), Some(stored.pause), Some(stored.pauseThreshold)), stored) == Some(false)
  {
  }
}
