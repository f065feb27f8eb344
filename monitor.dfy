/** One pass of the polling loop `_loop`, and the script hook that reads the pause flag. */
module Monitor {

  import opened Optional
  import opened StatusFlags
  import opened Settings
  import opened Connection

  /** The tags attached to a pause this plugin requests. */
  const PauseTags: set<string> := {"source:plugin", "plugin:ups"}

  /** What is pushed to the browser while the server cannot be read. */
  const OfflineSnapshot: Snapshot := map[StatusKey := "OFFLINE"]

  /** The outcome of `self.ups.list_vars(ups=...)`. */
  datatype Fetch =
    | Vars(vars: Snapshot)
    | DataStale           // PyNUTError "ERR DATA-STALE"
    | DriverNotConnected  // PyNUTError "ERR DRIVER-NOT-CONNECTED"
    | OtherNutError       // any other PyNUTError: logged, and the pass goes on
    | OtherException      // any other exception: logged, and the pass is abandoned

  /** The answers of `is_printing()`, `is_paused()` and `is_pausing()`. */
  datatype Printer = Printer(printing: bool, paused: bool, pausing: bool)

  /** The observable effects of a pass, in order. */
  datatype Action =
    | Publish(vars: Snapshot)            // plugin message to the browser
    | LogPowerLost                       // "Power lost. Running on battery."
    | LogCharge(charge: string)          // "Battery remaining {}%"
    | LogPowerRestored                   // "Power restored."
    | FireStatusChanged(vars: Snapshot)  // PLUGIN_UPS_STATUS_CHANGED on the event bus
    | PausePrint(tags: set<string>, intentSet: bool)  // pause_print, with the pause flag's value at the call

  /** An exception that escapes `_loop` and ends the loop's thread. */
  datatype Fault =
    | ProbeFault     // the probe in check_connection raised an error it does not catch
    | MissingCharge  // KeyError: vars['battery.charge'] while on battery
    | BadCharge      // float(vars.get('battery.charge')) raised

  datatype StepEnd = Continue | Died(fault: Fault)

  /** The state a pass reads and writes: the loop's locals and the plugin fields it touches. */
  datatype LoopState = LoopState(
    loopVars: Snapshot,       // the loop's local `vars`
    vars: Snapshot,           // `self.vars`, the last published snapshot
    pauseFlag: bool,          // `_pause_event`
    loggedNotConnected: bool,
    firstRun: bool)

  /** The state when the loop starts. */
  const Initial: LoopState := LoopState(map[], map[], false, false, true)

  datatype Cycle = Cycle(state: LoopState, trace: seq<Action>, end: StepEnd)

  /** The effects of the battery section, whether it asked for a pause, and the exception it raised, if any. */
  datatype Battery = Battery(trace: seq<Action>, pause: bool, fault: Option<Fault>)

  /** The battery charge string differs from the previous snapshot's (a missing key is `None`). */
  predicate ChargeChanged(vars: Snapshot, prev: Snapshot)
  {
    Lookup(vars, ChargeKey) != Lookup(prev, ChargeKey)
  }

  /** The condition under which the charge is reported and a pause considered. */
  predicate ChargeCheck(vars: Snapshot, prev: Snapshot)
  {
    OnBattery(vars) && (!OnBattery(prev) || ChargeChanged(vars, prev))
  }

  /** The pause condition on the settings, the printer and the parsed charge. */
  predicate PauseWanted(config: Config, printer: Printer, charge: real)
  {
    config.pause && printer.printing && charge < config.pauseThreshold as real &&
    !(printer.paused || printer.pausing)
  }

  predicate LogsCharge(trace: seq<Action>)
  {
    exists i :: 0 <= i < |trace| && trace[i].LogCharge?
  }

  /** The number of pause requests in a trace. */
  function Pauses(trace: seq<Action>): nat
  {
    if trace == [] then 0
    else (if trace[0].PausePrint? then 1 else 0) + Pauses(trace[1..])
  }

  lemma {:induction false} PausesAppend(a: seq<Action>, b: seq<Action>)
    ensures Pauses(a + b) == Pauses(a) + Pauses(b)
  {
    if a == [] {
      assert a + b == b;
    } else {
      assert (a + b)[1..] == a[1..] + b;
      PausesAppend(a[1..], b);
    }
  }

  lemma PausesOfNone(a: seq<Action>)
    requires forall i :: 0 <= i < |a| ==> !a[i].PausePrint?
    ensures Pauses(a) == 0
  {
    if a != [] {
      PausesOfNone(a[1..]);
    }
  }

  /**
   * The battery section of `_loop`: `vars` is the fresh snapshot, `prev` the one before it,
   * `charge` the value of `float(vars.get('battery.charge'))`, `None` when that raises.
   */
  function BatteryEdges(vars: Snapshot, prev: Snapshot, charge: Option<real>, config: Config, printer: Printer): (b: Battery)
  {
    var ob, obPrev := OnBattery(vars), OnBattery(prev);
    if ob then
      var lost := if !obPrev then [LogPowerLost] else [];
      if !obPrev || ChargeChanged(vars, prev) then
        if ChargeKey !in vars then
          Battery(lost, false, Some(MissingCharge))
        else
          var logged := lost + [LogCharge(vars[ChargeKey])];
          if config.pause && printer.printing then
            if charge.None? then
              Battery(logged, false, Some(BadCharge))
            else if charge.value < config.pauseThreshold as real && !(printer.paused || printer.pausing) then
              Battery(logged + [PausePrint(PauseTags, true)], true, None)
            else
              Battery(logged, false, None)
          else
            Battery(logged, false, None)
      else
        Battery(lost, false, None)
    else if obPrev then
      Battery([LogPowerRestored], false, None)
    else
      Battery([], false, None)
  }

  /** The power-lost, power-restored and charge messages of the battery section, as edges of the on-battery state. */
  lemma BatteryEdgeLogs(vars: Snapshot, prev: Snapshot, charge: Option<real>, config: Config, printer: Printer)
    ensures var b := BatteryEdges(vars, prev, charge, config, printer);
      (LogPowerLost in b.trace <==> OnBattery(vars) && !OnBattery(prev)) &&
      (LogPowerRestored in b.trace <==> !OnBattery(vars) && OnBattery(prev)) &&
      (LogsCharge(b.trace) <==> ChargeCheck(vars, prev) && ChargeKey in vars) &&
      (!OnBattery(vars) && !OnBattery(prev) ==> b == Battery([], false, None))
  {
    var b := BatteryEdges(vars, prev, charge, config, printer);
    if ChargeCheck(vars, prev) && ChargeKey in vars {
      var lost := if !OnBattery(prev) then [LogPowerLost] else [];
      assert b.trace[|lost|] == LogCharge(vars[ChargeKey]);
    }
  }

  /** When the battery section raises, and when it asks for a pause. */
  lemma BatteryOutcome(vars: Snapshot, prev: Snapshot, charge: Option<real>, config: Config, printer: Printer)
    ensures var b := BatteryEdges(vars, prev, charge, config, printer);
      (b.fault == Some(MissingCharge) <==> ChargeCheck(vars, prev) && ChargeKey !in vars) &&
      (b.fault == Some(BadCharge) <==>
        ChargeCheck(vars, prev) && ChargeKey in vars && config.pause && printer.printing && charge.None?) &&
      (b.fault.Some? ==> b.fault == Some(MissingCharge) || b.fault == Some(BadCharge)) &&
      (b.pause <==>
        ChargeCheck(vars, prev) && ChargeKey in vars && charge.Some? && PauseWanted(config, printer, charge.value)) &&
      (b.pause ==> b.fault.None?)
  {
  }

  /** The battery section requests at most one pause, right after the charge report, with the flag already set. */
  lemma BatteryPauses(vars: Snapshot, prev: Snapshot, charge: Option<real>, config: Config, printer: Printer)
    ensures var b := BatteryEdges(vars, prev, charge, config, printer);
      Pauses(b.trace) == (if b.pause then 1 else 0) &&
      (forall i :: 0 <= i < |b.trace| && b.trace[i].PausePrint? ==>
        b.trace[i] == PausePrint(PauseTags, true) && i > 0 &&
        ChargeKey in vars && b.trace[i - 1] == LogCharge(vars[ChargeKey]))
  {
    var ob, obPrev := OnBattery(vars), OnBattery(prev);
    var lost := if !obPrev then [LogPowerLost] else [];
    PausesOfNone(lost);
    if ob && ChargeCheck(vars, prev) && ChargeKey in vars {
      var logged := lost + [LogCharge(vars[ChargeKey])];
      PausesOfNone(logged);
      PausesAppend(logged, [PausePrint(PauseTags, true)]);
    }
  }

  /** The battery section only logs and pauses: it neither publishes nor fires the status event. */
  lemma BatteryOnlyLogsAndPauses(vars: Snapshot, prev: Snapshot, charge: Option<real>, config: Config, printer: Printer)
    ensures var b := BatteryEdges(vars, prev, charge, config, printer);
      forall i :: 0 <= i < |b.trace| ==> !b.trace[i].FireStatusChanged? && !b.trace[i].Publish?
  {
  }

  /** The snapshot the pass works on: the fresh one, or the previous one when the fetch failed but the pass goes on. */
  function Fetched(prev: Snapshot, fetch: Fetch): Snapshot
  {
    if fetch.Vars? then fetch.vars else prev
  }

  /** The fetch outcomes after which the pass goes on to the comparison. */
  predicate Proceeds(fetch: Fetch)
  {
    fetch.Vars? || fetch == OtherNutError
  }

  /** The end of a pass (lines 153-186): battery section, status event, publish. */
  function Evaluate(s: LoopState, prev: Snapshot, charge: Option<real>, config: Config, printer: Printer): (c: Cycle)
  {
    Conclude(s, BatteryEdges(s.loopVars, prev, charge, config, printer))
  }

  /** Lines 181-186, after the battery section `b`: the status event and the publish, unless `b` raised. */
  function Conclude(s: LoopState, b: Battery): Cycle
  {
    if b.fault.Some? then
      Cycle(s, b.trace, Died(b.fault.value))
    else
      var event := if Lookup(s.loopVars, StatusKey) != Lookup(s.vars, StatusKey)
                   then [FireStatusChanged(s.loopVars)] else [];
      Cycle(s.(pauseFlag := s.pauseFlag || b.pause, vars := s.loopVars),
            b.trace + event + [Publish(s.loopVars)], Continue)
  }

  /** One iteration of `_loop`, given what check_connection returned and what the calls it makes answer. */
  function Iterate(s: LoopState, conn: CheckOutcome, fetch: Fetch, printer: Printer, charge: Option<real>, config: Config): Cycle
  {
    var s1 := s.(firstRun := false);
    match conn
    case Raised => Cycle(s1, [], Died(ProbeFault))
    case Returned(connected) =>
      if !connected then
        Cycle(s1.(loggedNotConnected := true), [Publish(OfflineSnapshot)], Continue)
      else
        FetchPass(s1.(loggedNotConnected := false), fetch, printer, charge, config)
  }

  /** The rest of a pass once the server answered the probe: fetch, then compare and publish. */
  function FetchPass(s: LoopState, fetch: Fetch, printer: Printer, charge: Option<real>, config: Config): Cycle
  {
    match fetch
    case DataStale => Cycle(s, [Publish(OfflineSnapshot)], Continue)
    case DriverNotConnected => Cycle(s, [Publish(OfflineSnapshot)], Continue)
    case OtherException => Cycle(s, [], Continue)
    case OtherNutError => Evaluate(s, s.loopVars, charge, config, printer)
    case Vars(m) => Evaluate(s.(loopVars := m), s.loopVars, charge, config, printer)
  }

  /** A pass that gets past the fetch is the end-of-pass section run on the snapshot fetched (or kept). */
  lemma ProceedingPass(s: LoopState, fetch: Fetch, printer: Printer, charge: Option<real>, config: Config)
    requires Proceeds(fetch)
    ensures FetchPass(s, fetch, printer, charge, config) ==
      Evaluate(s.(loopVars := Fetched(s.loopVars, fetch)), s.loopVars, charge, config, printer)
  {
  }

  /** An uncaught probe error ends the loop before anything is published. */
  lemma FaultyProbePass(s: LoopState, fetch: Fetch, printer: Printer, charge: Option<real>, config: Config)
    ensures Iterate(s, Raised, fetch, printer, charge, config) == Cycle(s.(firstRun := false), [], Died(ProbeFault))
  {
  }

  /**
   * A pass without a connection, or whose fetch reports stale data or a stopped driver, publishes OFFLINE
   * and leaves both snapshots and the pause flag as they were; only the not-connected flag follows the check.
   */
  lemma OfflinePass(s: LoopState, conn: CheckOutcome, fetch: Fetch, printer: Printer, charge: Option<real>, config: Config)
    requires conn == Returned(false) || (conn == Returned(true) && (fetch == DataStale || fetch == DriverNotConnected))
    ensures Iterate(s, conn, fetch, printer, charge, config) ==
      Cycle(s.(firstRun := false, loggedNotConnected := !conn.connected), [Publish(OfflineSnapshot)], Continue)
  {
  }

  /** A pass whose fetch raised something other than a status-server error does nothing visible. */
  lemma AbandonedPass(s: LoopState, printer: Printer, charge: Option<real>, config: Config)
    ensures Iterate(s, Returned(true), OtherException, printer, charge, config) ==
      Cycle(s.(firstRun := false, loggedNotConnected := false), [], Continue)
  {
  }

  /**
   * A pass that gets past the fetch ends by publishing the snapshot it worked on and storing it in `self.vars`,
   * and fires the status event exactly when `ups.status` differs from the stored snapshot's;
   * or it ends with an exception from the battery section and stores nothing.
   */
  lemma CompletedPass(s: LoopState, fetch: Fetch, printer: Printer, charge: Option<real>, config: Config)
    requires Proceeds(fetch)
    ensures var c := Iterate(s, Returned(true), fetch, printer, charge, config);
      var v := Fetched(s.loopVars, fetch);
      c.state.loopVars == v && !c.state.firstRun && !c.state.loggedNotConnected &&
      (c.end == Continue ==>
        c.state.vars == v && |c.trace| > 0 && c.trace[|c.trace| - 1] == Publish(v) &&
        (FireStatusChanged(v) in c.trace <==> Lookup(v, StatusKey) != Lookup(s.vars, StatusKey))) &&
      (c.end.Died? ==> c.end.fault != ProbeFault && c.state.vars == s.vars && c.state.pauseFlag == s.pauseFlag)
  {
    var s2 := s.(firstRun := false, loggedNotConnected := false);
    EvaluateFacts(s2.(loopVars := Fetched(s.loopVars, fetch)), s.loopVars, charge, config, printer);
  }

  /**
   * A status-server error other than stale data or a stopped driver does not abandon the pass: it runs on the
   * unchanged snapshot, so it logs nothing, fires no event, and publishes the stored snapshot again.
   */
  lemma OtherNutErrorPass(s: LoopState, printer: Printer, charge: Option<real>, config: Config)
    requires s.loopVars == s.vars
    ensures Iterate(s, Returned(true), OtherNutError, printer, charge, config) ==
      Cycle(s.(firstRun := false, loggedNotConnected := false), [Publish(s.vars)], Continue)
  {
    BatteryEdgeLogs(s.vars, s.vars, charge, config, printer);
    BatteryOutcome(s.vars, s.vars, charge, config, printer);
  }

  /**
   * Every pass requests at most one pause and sets the pause flag exactly when it does, and a pass that
   * goes on keeps the loop's snapshot equal to the stored one.
   */
  lemma PassInvariants(s: LoopState, conn: CheckOutcome, fetch: Fetch, printer: Printer, charge: Option<real>, config: Config)
    ensures var c := Iterate(s, conn, fetch, printer, charge, config);
      Pauses(c.trace) <= 1 &&
      c.state.pauseFlag == (s.pauseFlag || Pauses(c.trace) == 1) &&
      (s.loopVars == s.vars && c.end == Continue ==> c.state.loopVars == c.state.vars)
  {
    if conn == Returned(true) && Proceeds(fetch) {
      var s2 := s.(firstRun := false, loggedNotConnected := false);
      EvaluateFacts(s2.(loopVars := Fetched(s.loopVars, fetch)), s.loopVars, charge, config, printer);
    }
  }

  lemma EvaluateFacts(s: LoopState, prev: Snapshot, charge: Option<real>, config: Config, printer: Printer)
    ensures var c := Evaluate(s, prev, charge, config, printer);
      c.state.loopVars == s.loopVars && c.state.firstRun == s.firstRun &&
      c.state.loggedNotConnected == s.loggedNotConnected &&
      Pauses(c.trace) <= 1 && c.state.pauseFlag == (s.pauseFlag || Pauses(c.trace) == 1) &&
      (c.end.Died? ==> c.state.vars == s.vars && c.state.pauseFlag == s.pauseFlag) &&
      (c.end == Continue ==>
        c.state.vars == s.loopVars && |c.trace| > 0 && c.trace[|c.trace| - 1] == Publish(s.loopVars) &&
        (FireStatusChanged(s.loopVars) in c.trace <==> Lookup(s.loopVars, StatusKey) != Lookup(s.vars, StatusKey)))
  {
    var b := BatteryEdges(s.loopVars, prev, charge, config, printer);
    BatteryOutcome(s.loopVars, prev, charge, config, printer);
    BatteryPauses(s.loopVars, prev, charge, config, printer);
    BatteryOnlyLogsAndPauses(s.loopVars, prev, charge, config, printer);
    CompletedTrace(s, b);
  }

  /** The trace of a pass whose battery section raised nothing. */
  lemma CompletedTrace(s: LoopState, b: Battery)
    requires Pauses(b.trace) == if b.pause then 1 else 0
    requires forall i :: 0 <= i < |b.trace| ==> !b.trace[i].FireStatusChanged? && !b.trace[i].Publish?
    ensures var event := if Lookup(s.loopVars, StatusKey) != Lookup(s.vars, StatusKey)
                         then [FireStatusChanged(s.loopVars)] else [];
      var trace := b.trace + event + [Publish(s.loopVars)];
      Pauses(trace) == Pauses(b.trace) &&
      trace[|trace| - 1] == Publish(s.loopVars) &&
      (FireStatusChanged(s.loopVars) in trace <==> Lookup(s.loopVars, StatusKey) != Lookup(s.vars, StatusKey))
  {
    var changed := Lookup(s.loopVars, StatusKey) != Lookup(s.vars, StatusKey);
    var event := if changed then [FireStatusChanged(s.loopVars)] else [];
    var tail := event + [Publish(s.loopVars)];
    PausesOfNone(tail);
    PausesAppend(b.trace, tail);
    assert b.trace + event + [Publish(s.loopVars)] == b.trace + tail;
    TailEvent(b.trace, tail, FireStatusChanged(s.loopVars));
  }

  /** An action that none of `a` is occurs in `a + t` exactly when it occurs in `t`. */
  lemma TailEvent(a: seq<Action>, t: seq<Action>, x: Action)
    requires forall i :: 0 <= i < |a| ==> a[i] != x
    ensures x in a + t <==> x in t
  {
  }

  /** Two snapshots on battery that differ in the charge: one charge report, no power-lost or power-restored message. */
  lemma ChargeOnlyChange(vars: Snapshot, prev: Snapshot, charge: Option<real>, config: Config, printer: Printer)
    requires OnBattery(vars) && OnBattery(prev) && ChargeKey in vars && ChargeChanged(vars, prev)
    requires !(config.pause && printer.printing) || charge.Some?
    ensures var b := BatteryEdges(vars, prev, charge, config, printer);
      b.fault.None? &&
      b.trace == [LogCharge(vars[ChargeKey])] + (if b.pause then [PausePrint(PauseTags, true)] else [])
  {
  }

  const OnLine: Snapshot := map[StatusKey := "OL"]
  const OnBattery80: Snapshot := map[StatusKey := "OB", ChargeKey := "80"]
  const OnBattery40: Snapshot := map[StatusKey := "OB", ChargeKey := "40"]

  lemma ScenarioFlags()
    ensures !OnBattery(OnLine) && OnBattery(OnBattery80) && OnBattery(OnBattery40)
  {
    OnBatteryIffInFlags(OnLine);
    OnBatteryIffInFlags(OnBattery80);
    OnBatteryIffInFlags(OnBattery40);
    assert Flags(OnLine) == ["OL"];
    assert Flags(OnBattery80) == ["OB"];
    assert Flags(OnBattery40) == ["OB"];
  }

  /*
   * Mains, then battery at 80%, then battery at 40%, with pausing below 50% while printing. The three
   * passes chain: each starts in the state the previous one ends in. Together they give one power-lost
   * message, two charge reports and a single pause, on the last pass.
   */

  lemma ScenarioPass1(config: Config)
    ensures Iterate(Initial, Returned(true), Vars(OnLine), Printer(true, false, false), None, config) ==
      Cycle(LoopState(OnLine, OnLine, false, false, false), [FireStatusChanged(OnLine), Publish(OnLine)], Continue)
  {
    ScenarioFlags();
  }

  lemma ScenarioPass2(config: Config)
    requires config.pauseThreshold == 50
    ensures Iterate(LoopState(OnLine, OnLine, false, false, false), Returned(true), Vars(OnBattery80),
                    Printer(true, false, false), Some(80.0), config) ==
      Cycle(LoopState(OnBattery80, OnBattery80, false, false, false),
            [LogPowerLost, LogCharge("80"), FireStatusChanged(OnBattery80), Publish(OnBattery80)], Continue)
  {
    ScenarioFlags();
  }

  lemma ScenarioPass3(config: Config)
    requires config.pause && config.pauseThreshold == 50
    ensures Iterate(LoopState(OnBattery80, OnBattery80, false, false, false), Returned(true), Vars(OnBattery40),
                    Printer(true, false, false), Some(40.0), config) ==
      Cycle(LoopState(OnBattery40, OnBattery40, true, false, false),
            [LogCharge("40"), PausePrint(PauseTags, true), Publish(OnBattery40)], Continue)
  {
    ScenarioFlags();
    assert Lookup(OnBattery80, ChargeKey) != Lookup(OnBattery40, ChargeKey);
  }

  /** Script names of the hook. */
  const AfterPrintPaused: string := "afterPrintPaused"
  const BeforePrintResumed: string := "beforePrintResumed"

  /** What `_hook_comm_protocol_scripts` contributes (`initiated_pause`, or nothing) and the pause flag after it. */
  datatype Hook = Hook(initiatedPause: Option<bool>, pauseFlag: bool)

  /** `_hook_comm_protocol_scripts` over the pause flag. */
  function ScriptHook(pauseFlag: bool, scriptType: string, scriptName: string): (h: Hook)
    ensures h.initiatedPause.Some? <==>
      scriptType == "gcode" && (scriptName == AfterPrintPaused || scriptName == BeforePrintResumed)
    ensures h.initiatedPause.Some? ==> h.initiatedPause.value == pauseFlag
    ensures h.pauseFlag ==> pauseFlag
    ensures h.pauseFlag != pauseFlag <==> pauseFlag && scriptType == "gcode" && scriptName == BeforePrintResumed
  {
    if scriptType != "gcode" then Hook(None, pauseFlag)
    else if scriptName == AfterPrintPaused || scriptName == BeforePrintResumed then
      Hook(Some(pauseFlag), if scriptName == BeforePrintResumed then false else pauseFlag)
    else Hook(None, pauseFlag)
  }

  /** Once a resume has been reported, every later resume reports that the plugin did not pause. */
  lemma {:induction false} RepeatedResume(pauseFlag: bool, n: nat)
    ensures ScriptHook(ResumeN(pauseFlag, n + 1), "gcode", BeforePrintResumed).initiatedPause == Some(false)
  {
    if n > 0 {
      RepeatedResume(pauseFlag, n - 1);
    }
  }

  /** The pause flag after `n` resume scripts. */
  function ResumeN(pauseFlag: bool, n: nat): bool
  {
    if n == 0 then pauseFlag else ScriptHook(ResumeN(pauseFlag, n - 1), "gcode", BeforePrintResumed).pauseFlag
  }

  /**
   * A pass that pauses the print leaves the flag set, so the printer's paused script sees the plugin as the
   * initiator, and so does the next resume script, which clears it for the next pause.
   */
  lemma PauseIntentProtocol(s: LoopState, conn: CheckOutcome, fetch: Fetch, printer: Printer, charge: Option<real>, config: Config)
    requires Pauses(Iterate(s, conn, fetch, printer, charge, config).trace) == 1
    ensures var flag := Iterate(s, conn, fetch, printer, charge, config).state.pauseFlag;
      var paused := ScriptHook(flag, "gcode", AfterPrintPaused);
      var resumed := ScriptHook(paused.pauseFlag, "gcode", BeforePrintResumed);
      paused.initiatedPause == Some(true) && resumed.initiatedPause == Some(true) && !resumed.pauseFlag
  {
    PassInvariants(s, conn, fetch, printer, charge, config);
  }
}
