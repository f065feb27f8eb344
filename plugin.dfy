/** The plugin object: its fields, its connection handle, and the operations that change them. */
module Plugin {

  import opened Optional
  import opened StatusFlags
  import opened Settings
  import opened Connection
  import opened Monitor

  /** The event name of OctoPrint's `Events.CLIENT_OPENED`. */
  const ClientOpened: string := "ClientOpened"

  /** A `nut2.PyNUTClient`: one session with the status server, opened with these arguments. */
  class NutClient {
    const params: ClientParams

    constructor (params: ClientParams)
      ensures this.params == params
    {
      this.params := params;
    }
  }

  /** The `UPS` plugin, with the polling loop's locals kept as fields. */
  class UpsPlugin {
    var config: Config
    var ups: NutClient?
    var vars: Snapshot            // the last snapshot the loop completed, served to clients
    var pauseFlag: bool           // `_pause_event`: the last pause was requested by this plugin
    var loopVars: Snapshot        // the loop's local `vars`
    var loggedNotConnected: bool
    var firstRun: bool
    var running: bool             // the loop's thread has not ended with an exception

    /** While the loop runs, its local snapshot is the one last stored in `self.vars`. */
    ghost predicate Valid()
      reads this
    {
      running ==> loopVars == vars
    }

    /** The part of the object one pass of the loop reads and writes. */
    function State(): LoopState
      reads this
    {
      LoopState(loopVars, vars, pauseFlag, loggedNotConnected, firstRun)
    }

    /** The plugin after its settings are loaded and the loop has started, before its first pass. */
    constructor (config: Config)
      ensures Valid() && running
      ensures this.config == config && ups == null && State() == Initial
    {
      this.config := config;
      ups := null;
      vars := map[];
      pauseFlag := false;
      loopVars := map[];
      loggedNotConnected := false;
      firstRun := true;
      running := true;
    }

    /**
     * `check_connection`: the probe of the current handle and the reconnect attempt are inputs.
     * `Raised` stands for the probe's exception escaping.
     */
    method CheckConnection(probe: Probe, reconnect: Reconnect) returns (outcome: CheckOutcome, log: seq<ConnLog>)
      modifies this`ups
      ensures var c := ConnectionCheck(old(ups) != null, probe, reconnect, config);
        outcome == c.outcome && log == c.log &&
        (c.change == Keep ==> ups == old(ups)) &&
        (c.change.Replace? ==> ups != null && fresh(ups) && ups.params == c.change.params)
    {
      log := [];
      if ups == null {
        log := [LogConnecting];
      } else {
        match probe
        case ProbeOk =>
          return Returned(true), log;
        case NameOrAttributeError =>
        case Broken =>
          log := [LogConnectionLost];
        case OtherError =>
          return Raised, log;
      }
      if reconnect == ConnectFails {
        return Returned(false), log + [LogUnableToConnect];
      }
      ups := new NutClient(ConnectParams(config.host, config.port, config.auth, config.username, config.password));
      if reconnect == ConnectOkProbeFails {
        return Returned(false), log + [LogUnableToConnect];
      }
      return Returned(true), log + [LogConnected];
    }

    /**
     * One iteration of `_loop`. The check_connection calls, the fetch, the printer's answers and the parsed
     * charge are inputs; the result is what the pass did, in order, and whether the loop goes on.
     */
    method Step(probe: Probe, reconnect: Reconnect, fetch: Fetch, printer: Printer, charge: Option<real>)
      returns (trace: seq<Action>, end: StepEnd)
      requires Valid() && running
      modifies this`ups, this`vars, this`pauseFlag, this`loopVars, this`loggedNotConnected, this`firstRun, this`running
      ensures Valid()
      ensures var check := ConnectionCheck(old(ups) != null, probe, reconnect, config);
        Cycle(State(), trace, end) == Iterate(old(State()), check.outcome, fetch, printer, charge, config) &&
        running == (end == Continue) &&
        (check.change == Keep ==> ups == old(ups)) &&
        (check.change.Replace? ==> ups != null && fresh(ups) && ups.params == check.change.params)
    {
      ghost var s0 := State();
      firstRun := false;  // the first pass skips the one-second sleep, which is not modelled
      var outcome, _ := CheckConnection(probe, reconnect);
      trace, end := AfterCheck(s0, outcome, fetch, printer, charge);
    }

    /** Lines 121-186 of `_loop`, once check_connection has returned or raised. */
    method AfterCheck(ghost s: LoopState, outcome: CheckOutcome, fetch: Fetch, printer: Printer, charge: Option<real>)
      returns (trace: seq<Action>, end: StepEnd)
      requires Valid() && running && State() == s.(firstRun := false)
      modifies this`vars, this`pauseFlag, this`loopVars, this`loggedNotConnected, this`running
      ensures Valid()
      ensures Cycle(State(), trace, end) == Iterate(s, outcome, fetch, printer, charge, config)
      ensures running == (end == Continue)
    {
      if outcome == Raised {
        running := false;
        return [], Died(ProbeFault);
      }
      if !outcome.connected {
        loggedNotConnected := true;
        return [Publish(OfflineSnapshot)], Continue;
      }
      loggedNotConnected := false;
      trace, end := FetchAndFinish(s.(firstRun := false).(loggedNotConnected := false), fetch, printer, charge);
    }

    /** Lines 131-186 of `_loop`, after a successful connection check. */
    method FetchAndFinish(ghost s: LoopState, fetch: Fetch, printer: Printer, charge: Option<real>)
      returns (trace: seq<Action>, end: StepEnd)
      requires Valid() && running && s == State()
      modifies this`vars, this`pauseFlag, this`loopVars, this`running
      ensures Valid()
      ensures Cycle(State(), trace, end) == FetchPass(s, fetch, printer, charge, config)
      ensures running == (end == Continue)
    {
      var varsPrev := loopVars;
      match fetch {
        case Vars(m) =>
          loopVars := m;
        case DataStale =>
          return [Publish(OfflineSnapshot)], Continue;
        case DriverNotConnected =>
          return [Publish(OfflineSnapshot)], Continue;
        case OtherNutError =>
        case OtherException =>
          return [], Continue;
      }
      ghost var s1 := s.(loopVars := Fetched(s.loopVars, fetch));
      ProceedingPass(s, fetch, printer, charge, config);
      trace, end := FinishPass(s1, varsPrev, printer, charge);
    }

    /** Lines 151-186 of `_loop`: the battery section, the status event, and publishing the snapshot. */
    method FinishPass(ghost s: LoopState, varsPrev: Snapshot, printer: Printer, charge: Option<real>)
      returns (trace: seq<Action>, end: StepEnd)
      requires running && s == State()
      modifies this`vars, this`pauseFlag, this`running
      ensures Valid()
      ensures Cycle(State(), trace, end) == Evaluate(s, varsPrev, charge, config, printer)
      ensures running == (end == Continue)
    {
      ghost var b := BatteryEdges(loopVars, varsPrev, charge, config, printer);
      var fault;
      trace, fault := BatterySection(varsPrev, printer, charge);
      BatteryOutcome(s.loopVars, varsPrev, charge, config, printer);
      trace, end := PublishPass(s, b, trace, fault);
    }

    /** Lines 181-186 of `_loop`, after the battery section gave `b`: fire the status event and publish. */
    method PublishPass(ghost s: LoopState, ghost b: Battery, batteryTrace: seq<Action>, fault: Option<Fault>)
      returns (trace: seq<Action>, end: StepEnd)
      requires running && State() == s.(pauseFlag := s.pauseFlag || b.pause)
      requires batteryTrace == b.trace && fault == b.fault && (b.pause ==> fault.None?)
      modifies this`vars, this`running
      ensures Valid()
      ensures Cycle(State(), trace, end) == Conclude(s, b)
      ensures running == (end == Continue)
    {
      trace := batteryTrace;
      if fault.Some? {
        running := false;
        return trace, Died(fault.value);
      }
      if Lookup(loopVars, StatusKey) != Lookup(vars, StatusKey) {
        trace := trace + [FireStatusChanged(loopVars)];
      }
      trace := trace + [Publish(loopVars)];
      vars := loopVars;
      end := Continue;
    }

    /** Lines 153-179 of `_loop`: compare the fresh snapshot `loopVars` with `varsPrev`, log, and pause. */
    method BatterySection(varsPrev: Snapshot, printer: Printer, charge: Option<real>)
      returns (trace: seq<Action>, fault: Option<Fault>)
      modifies this`pauseFlag
      ensures var b := BatteryEdges(loopVars, varsPrev, charge, config, printer);
        trace == b.trace && fault == b.fault && pauseFlag == (old(pauseFlag) || b.pause)
    {
      var ob, obPrev := OnBattery(loopVars), OnBattery(varsPrev);
      trace, fault := [], None;
      if ob {
        if !obPrev {
          trace := trace + [LogPowerLost];
        }
        if !obPrev || Lookup(loopVars, ChargeKey) != Lookup(varsPrev, ChargeKey) {
          if ChargeKey !in loopVars {
            return trace, Some(MissingCharge);
          }
          trace := trace + [LogCharge(loopVars[ChargeKey])];
          if config.pause && printer.printing {
            if charge.None? {
              return trace, Some(BadCharge);
            }
            if charge.value < config.pauseThreshold as real && !(printer.paused || printer.pausing) {
              pauseFlag := true;
              trace := trace + [PausePrint(PauseTags, pauseFlag)];
            }
          }
        }
      } else if obPrev {
        trace := trace + [LogPowerRestored];
      }
    }

    /** `_hook_comm_protocol_scripts`: `initiated_pause` for the paused and resumed scripts, `None` otherwise. */
    method HookCommProtocolScripts(scriptType: string, scriptName: string) returns (initiatedPause: Option<bool>)
      requires Valid()
      modifies this`pauseFlag
      ensures Valid()
      ensures var h := ScriptHook(old(pauseFlag), scriptType, scriptName);
        initiatedPause == h.initiatedPause && pauseFlag == h.pauseFlag
    {
      if scriptType != "gcode" {
        return None;
      }
      if scriptName == AfterPrintPaused || scriptName == BeforePrintResumed {
        initiatedPause := Some(pauseFlag);
      } else {
        return None;
      }
      if scriptName == BeforePrintResumed {
        pauseFlag := false;
      }
    }

    /**
     * `on_settings_save`: drops the handle when the connection information changed, then stores the
     * new settings. `keyError` is the exception raised when a port but no host was submitted.
     */
    method OnSettingsSave(data: SettingsData) returns (keyError: bool)
      requires Valid()
      modifies this`ups, this`config
      ensures Valid()
      ensures var r := ConnectionInfoChanged(data, old(config));
        keyError == r.None? &&
        (if r == Some(true) then ups == null else ups == old(ups)) &&
        config == (if r.None? then old(config) else Merge(old(config), data))
    {
      var storedConfig := config;
      var changed := ConnectionInfoChanged(data, storedConfig);
      if changed.None? {
        return true;
      }
      if changed.value {
        ups := null;
      }
      config := Merge(storedConfig, data);
      keyError := false;
    }

    /** The `getUPSVars` command: the last snapshot a pass completed. */
    method GetUpsVars() returns (r: Snapshot)
      ensures r == vars
    {
      r := vars;
    }

    /** `on_event`: a newly opened client is sent the last completed snapshot. */
    method OnEvent(event: string) returns (sent: seq<Action>)
      ensures event == ClientOpened ==> sent == [Publish(vars)]
      ensures event != ClientOpened ==> sent == []
    {
      sent := [];
      if event == ClientOpened {
        sent := [Publish(vars)];
      }
    }
  }
}
