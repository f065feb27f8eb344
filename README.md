# OctoPrint-UPS monitoring core in Dafny

This project models the monitoring logic of the OctoPrint-UPS plugin (`octoprint_ups/__init__.py`). The plugin
polls a Network UPS Tools (NUT) status server about once a second. From each snapshot of UPS variables it finds
two transitions: mains to battery, and battery back to mains. It logs those transitions and the remaining charge.
When the charge drops below a threshold during a print, it pauses the print. It publishes every snapshot to the
browser and fires a status-changed event when `ups.status` changes. A script hook lets the printer's
paused and resumed scripts find out whether the plugin started the pause.

Layout:

- `optional.dfy`: the `Option` datatype.
- `status_flags.dfy`: snapshots and `d.get(k)`. It also holds Python's `s.split(" ")`, with `Join` as its inverse,
  and the on-battery test `"OB" in ups.status.split(" ")`. A lemma proves that this test means `"OB"` occurs as a
  whole space-delimited token.
- `settings.dfy`: the configuration and the settings a save submits. It also holds the condition of
  `on_settings_save` that drops the connection, with Python truthiness and left-to-right `or`.
- `connection.dfy`: the credential rule of `connect`, and `check_connection` as a pure decision. It takes whether a
  handle exists, what the probe `ver()` does and what the reconnect does. It decides the handle change, the result
  and the log.
- `monitor.dfy`: one iteration of `_loop` as a function from the loop state to its new state and trace, plus
  whether the loop goes on. It also holds the battery section, the script hook as a function, and the lemmas
  about all of these.
- `plugin.dfy`: the class `UpsPlugin`. It has the plugin's fields (`config`, `ups`, `vars`, `pauseFlag`) and the
  poll loop's locals (`loopVars`, `loggedNotConnected`, `firstRun`). It also has `running`, which turns false once
  an exception has ended the loop's thread. Each method of the loop and of `check_connection` is proved against
  the function of `monitor.dfy` or `connection.dfy` that specifies it. `OnSettingsSave` is proved against
  `ConnectionInfoChanged` and `Merge` of `settings.dfy`. `GetUpsVars` and `OnEvent` state their result directly
  in terms of `vars`. The connection handle is an object of class `NutClient`, so the model tracks
  handle replacement by object identity: a replaced handle is `fresh`.

Behaviour of the code that the model keeps as written:

- A probe raising `NameError` or `AttributeError` falls through to a reconnect (the `pass` at line 83).
- A probe exception outside the caught classes escapes `check_connection` (lines 79-85), and from there `_loop`.
  So do the `KeyError` of `vars['battery.charge']` at line 165 and a failing `float()` at line 169. Each ends the
  loop's thread, which the model records as `StepEnd.Died`.
- A `PyNUTError` other than stale data or a stopped driver is logged, and the pass goes on (line 146 has no
  `continue`). It compares and publishes the previous snapshot again.
- The not-connected flag is set and cleared (lines 122-129), but nothing is logged under it.
- The port clause of the connection test in `on_settings_save` compares `host` (line 246). A change of port alone
  never drops the connection. A truthy port sent without any `host` key makes `data['host']` raise `KeyError`, so
  the save fails and stores nothing. A truthy port sent with an empty host drops the connection whenever the
  stored host is not empty.

The charge is the value `float(vars.get('battery.charge'))` produces, taken as a Dafny `real`. When that call
raises, the charge is `None`. `config.pauseThreshold` is the integer `get_int` reads.

## Model

| member | source | states |
|---|---|---|
| StatusFlags.Lookup | octoprint_ups/__init__.py:153-154 | `d.get(k)` returns a value exactly when `k` is a key, and that value is the one stored under `k` |
| StatusFlags.Flags | octoprint_ups/__init__.py:153 | a snapshot without `ups.status` has the single empty flag, as `"".split(" ")` gives `[""]` |
| StatusFlags.PiecesHaveNoSpace | octoprint_ups/__init__.py:153 | no piece of `s.split(" ")` contains a space |
| StatusFlags.JoinSplit | octoprint_ups/__init__.py:153 | joining the split pieces with single spaces gives the original status string back (nothing is lost or merged) |
| StatusFlags.InSplitIffTokenAt | octoprint_ups/__init__.py:153-156 | a space-free token is among the split pieces exactly when it occurs as a whole space-delimited token of the string |
| StatusFlags.HasPieceIffInSplit | octoprint_ups/__init__.py:156-157 | the piece-by-piece test agrees with membership in `s.split(" ")`, both ways |
| StatusFlags.OnBatteryIffInFlags | octoprint_ups/__init__.py:153-157 | `ob` is `"OB" in vars.get('ups.status', "").split(" ")`, with a missing status giving false |
| StatusFlags.OnBatteryIffWholeToken | octoprint_ups/__init__.py:153-157 | on battery exactly when `ups.status` exists and holds `OB` as a whole token, never as part of a longer token |
| Settings.ConnectionInfoChanged | octoprint_ups/__init__.py:245-250 | the save raises `KeyError` exactly when a truthy port comes without a host key; otherwise the connection drops exactly when a truthy new host, auth, username, password or unit differs from the stored one, or a truthy port comes with a host differing from the stored host; a changed port alone never causes the drop |
| Settings.Merge | octoprint_ups/__init__.py:254-255 | after a save, each of the eight settings that was submitted replaces the stored one, and each absent one keeps it |
| Settings.MergeIdempotent | octoprint_ups/__init__.py:254-255 | saving the same settings a second time changes nothing more |
| Settings.MergeNothing | octoprint_ups/__init__.py:254-255 | a save that submits no key keeps the stored settings |
| Settings.PortAloneKeepsConnection | octoprint_ups/__init__.py:246 | a save that changes only the port keeps the connection |
| Settings.AuthOffKeepsConnection | octoprint_ups/__init__.py:247 | turning authentication off keeps the connection, since `False` is never truthy |
| Connection.ConnectParams | octoprint_ups/__init__.py:97-104 | host and port pass through unchanged; login (and password) is omitted exactly when auth is off or the field is empty, and is passed as given otherwise |
| Connection.ConnectionCheck | octoprint_ups/__init__.py:75-94 | a live handle is kept and gives true; any other probe error escapes and the handle is kept; with no handle, or after a NameError/AttributeError or broken-connection probe, it reconnects: the result is true exactly when the new handle answers, the handle is kept exactly when `connect` raises, and the new handle carries the connect parameters of the stored settings |
| Connection.ConnectionLog | octoprint_ups/__init__.py:75-94 | on the reconnect path, "Connected!" is logged once when the reconnect succeeds, "Unable to connect" exactly when it fails, "Connecting..." exactly when there was no handle, and "Connection lost" exactly after a broken-connection probe |
| Monitor.BatteryEdgeLogs | octoprint_ups/__init__.py:159-179 | "power lost" is logged iff on battery now and not before; "power restored" iff on battery before and not now; the charge iff on battery and (just switched or the charge string changed) and the charge key exists; with neither snapshot on battery the section does nothing |
| Monitor.BatteryOutcome | octoprint_ups/__init__.py:163-170 | a missing charge key while the charge is due raises `KeyError`; an unparsable charge raises only when pausing is enabled and the printer prints; a pause is requested iff the charge is due and parsed, pausing is enabled, the printer prints, charge < threshold strictly, and the job is neither paused nor pausing; a pause excludes an exception |
| Monitor.BatteryPauses | octoprint_ups/__init__.py:167-177 | at most one pause per pass; it carries the tags `source:plugin` and `plugin:ups`, finds the pause flag already set, and comes right after the charge message |
| Monitor.BatteryOnlyLogsAndPauses | octoprint_ups/__init__.py:159-179 | the battery section neither publishes nor fires the status event |
| Monitor.ChargeOnlyChange | octoprint_ups/__init__.py:159-177 | staying on battery with a changed charge gives only the charge message, then the pause if one is due |
| Monitor.ProceedingPass | octoprint_ups/__init__.py:131-151 | once the fetch gives variables or some other status-server error, the pass goes on with the fresh snapshot, or with the previous one after that error |
| Monitor.FaultyProbePass | octoprint_ups/__init__.py:121 | a probe exception that escapes `check_connection` ends the loop before anything is published, and changes nothing else |
| Monitor.OfflinePass | octoprint_ups/__init__.py:121-144 | when not connected, or on stale data or a stopped driver, the only output is `Publish({ups.status: OFFLINE})`; both snapshots and the pause flag are unchanged, and the not-connected flag follows the check |
| Monitor.AbandonedPass | octoprint_ups/__init__.py:147-149 | a fetch raising a non-NUT exception outputs nothing and changes nothing |
| Monitor.CompletedPass | octoprint_ups/__init__.py:131-186 | a pass that gets past the fetch and continues stores its snapshot in `self.vars` and ends with publishing it; it fires the status event exactly when `ups.status` differs from the stored snapshot's; a pass that dies in the battery section stores nothing and leaves the flag alone |
| Monitor.OtherNutErrorPass | octoprint_ups/__init__.py:145-186 | a status-server error other than stale or no driver re-runs the comparison on the unchanged snapshot: no logs, no event, no pause, and the same snapshot published again |
| Monitor.PassInvariants | octoprint_ups/__init__.py:114-186 | every pass requests at most one pause, sets the pause flag exactly when it does, and keeps the loop's snapshot equal to `self.vars` when it goes on |
| Monitor.EvaluateFacts | octoprint_ups/__init__.py:153-186 | the end of a pass: at most one pause and the flag set exactly then; on success the snapshot is stored and published last, with the status event iff the status changed; on an exception nothing is stored |
| Monitor.CompletedTrace | octoprint_ups/__init__.py:181-186 | the status event and the publish add no pause, the publish is last, and the event is present iff the status changed |
| Monitor.ScenarioFlags | octoprint_ups/__init__.py:153-157 | `OL` is not on battery and `OB` is |
| Monitor.ScenarioPass1 | octoprint_ups/__init__.py:107-186 | the first pass on mains publishes, fires the status event, and logs nothing |
| Monitor.ScenarioPass2 | octoprint_ups/__init__.py:159-186 | the next pass, on battery at 80% with a 50% threshold, logs power lost and the charge, fires the event, and does not pause |
| Monitor.ScenarioPass3 | octoprint_ups/__init__.py:159-186 | the next pass at 40% while printing logs the charge, sets the flag, pauses once, fires no event, and publishes |
| Monitor.ScriptHook | octoprint_ups/__init__.py:189-201 | data is contributed exactly for G-code scripts named `afterPrintPaused` or `beforePrintResumed`; it is the flag's value before any clearing; the flag is never set by the hook and changes exactly when a set flag meets `beforePrintResumed` |
| Monitor.RepeatedResume | octoprint_ups/__init__.py:198-199 | after one `beforePrintResumed`, every later one reports that the plugin did not pause |
| Monitor.PauseIntentProtocol | octoprint_ups/__init__.py:174-201 | after a pass that paused, the paused script and the next resume script both see the plugin as the initiator, and the resume clears the flag |
| Plugin.UpsPlugin.constructor | octoprint_ups/__init__.py:27-32 | a new plugin has no handle, no snapshot and a clear pause flag, and its loop is at its first pass |
| Plugin.UpsPlugin.CheckConnection | octoprint_ups/__init__.py:75-94 | returns what `ConnectionCheck` decides and logs its messages; keeps `self.ups` or replaces it with a fresh client opened with the connect parameters |
| Plugin.UpsPlugin.Step | octoprint_ups/__init__.py:113-186 | one loop iteration: the new state, the trace and whether the loop goes on are those of `Iterate` applied to the check's outcome; the handle is kept or freshly replaced as the check decides; the loop's snapshot stays equal to `self.vars` while it runs |
| Plugin.UpsPlugin.AfterCheck | octoprint_ups/__init__.py:121-186 | the rest of the iteration after `check_connection` follows `Iterate` |
| Plugin.UpsPlugin.FetchAndFinish | octoprint_ups/__init__.py:131-186 | the fetch and what follows it follow `FetchPass` |
| Plugin.UpsPlugin.FinishPass | octoprint_ups/__init__.py:153-186 | the battery section, the event and the publish follow `Evaluate` |
| Plugin.UpsPlugin.BatterySection | octoprint_ups/__init__.py:153-179 | logs, pauses and raises as `BatteryEdges` says, and sets the pause flag exactly when it pauses |
| Plugin.UpsPlugin.PublishPass | octoprint_ups/__init__.py:181-186 | fires the event, publishes and stores the snapshot as `Conclude` says; an exception from the battery section ends the loop instead |
| Plugin.UpsPlugin.HookCommProtocolScripts | octoprint_ups/__init__.py:189-201 | returns `initiated_pause` and updates the pause flag as `ScriptHook` says |
| Plugin.UpsPlugin.OnSettingsSave | octoprint_ups/__init__.py:242-255 | drops the handle exactly when `ConnectionInfoChanged` is true; stores the merged settings unless the test raised, in which case nothing changes |
| Plugin.UpsPlugin.GetUpsVars | octoprint_ups/__init__.py:230-231 | the `getUPSVars` command returns the last snapshot a pass completed |
| Plugin.UpsPlugin.OnEvent | octoprint_ups/__init__.py:204-207 | a newly opened client gets the last completed snapshot and other events send nothing |

## Left out

- The background thread, the one-second `time.sleep` and the first-pass skip of it (lines 54-57, 115-119). Timing and concurrency are not modelled: a pass is one `Step` call, and `firstRun` is only recorded.
- The `nut2.PyNUTClient` calls `ver`, `list_vars` and `list_ups` are network I/O. Their outcomes are inputs to the model (`Probe`, `Reconnect`, `Fetch`), and the NUT protocol is not modelled.
- The printer's answers (`is_printing`, `is_paused`, `is_pausing`) are inputs. `pause_print`, the plugin message and the event bus are recorded as trace entries.
- Parsing `battery.charge` with `float()` is left out. The charge is supplied already parsed, as an exact real, and floating-point rounding is not modelled.
- Plugin.UpsPlugin.Step: its trace does not include the messages `check_connection` logs. They are returned by `CheckConnection` and specified by `ConnectionLog`.
- Diagnostic logging (the debug dumps, the warnings after a stale or driver error, the exception logs) and the "Battery below threshold" message are left out, because they have no effect on the state.
- Log message texts are represented by constructors, not strings.
- The Flask responses, the permission checks with their fallback (lines 15-18, 222-228), `on_api_get` and the throw-away `listUPS` connection (lines 232-239) are left out. They are host framework glue and foreign calls.
- `reload_settings`, `get_settings_defaults` typing, settings migration, templates, assets and event registration are framework plumbing. Saving through OctoPrint's settings store is abstracted as `Merge`.
- A key sent as JSON `null` is not told apart from a missing key.
- `battery_high` and `battery_low` only colour the browser's battery bar, so `Config` leaves them out.
- The browser UI `octoprint_ups/static/js/ups.js` is not part of this model.
- Thread-safety of `self.vars`, `self.ups` and the pause event between the loop and request handlers is not modelled.
