/**
  Sequences of events reaching the launcher window, and what holds along
  every such sequence.  A click on a disabled control never reaches its
  handler, a worker exit is only reported for a running worker, and nothing
  reaches the window once the application has quit.
 */
module Lifecycle {

  import opened Optional
  import opened Storage
  import opened Config
  import opened Launcher

  /** An event, with the inputs its handler needs. */
  datatype Event =
    | RunButton(disk: Disk, systemEnvironment: map<string, string>, atMs: int, launched: bool)
    | StopButton(exit: Option<ExitReport>)
    | WorkerExited(report: ExitReport)
    | XrayPathTyped(text: string)
    | DataPathTyped(text: string)
    | ConfigPathTyped(text: string)
    | TrayIcon(reason: ActivationReason)
    | TrayShowAction
    | TrayExitAction(disk: Disk, exit: Option<ExitReport>)
    | WindowCloseButton(disk: Disk, exit: Option<ExitReport>)

  /** Whether `e` reaches its handler in state `s`. */
  predicate Deliverable(s: WindowState, e: Event) {
    !s.quit &&
    match e
    case RunButton(_, _, _, _) => s.controls.runBtn
    case StopButton(_) => s.controls.stopBtn
    case WorkerExited(_) => WorkerRunning(s)
    case XrayPathTyped(_) => s.controls.xrayPathEdit
    case DataPathTyped(_) => s.controls.dataPathEdit
    case ConfigPathTyped(_) => s.controls.configPathEdit
    case _ => true
  }

  /** The handler's effect; `configFile` is where closes save to. */
  function Apply(s: WindowState, e: Event, configFile: string): WindowState {
    match e
    case RunButton(disk, env, atMs, launched) => RunClicked(s, disk, env, atMs, launched)
    case StopButton(exit) => Killed(s, exit)
    case WorkerExited(report) => Finished(s, report)
    case XrayPathTyped(text) => XrayPathChanged(s, text)
    case DataPathTyped(text) => DataPathChanged(s, text)
    case ConfigPathTyped(text) => ConfigPathChanged(s, text)
    case TrayIcon(reason) => TrayActivated(s, reason)
    case TrayShowAction => s.(window := ShowMainWindow(s.window))
    case TrayExitAction(disk, exit) => ExitApp(s, configFile, disk, exit).state
    case WindowCloseButton(disk, exit) => CloseRequested(s, configFile, disk, exit).state
  }

  function Step(s: WindowState, e: Event, configFile: string): WindowState {
    if Deliverable(s, e) then Apply(s, e, configFile) else s
  }

  /** The state after `events`, in order. */
  function Run(s: WindowState, events: seq<Event>, configFile: string): WindowState
    decreases |events|
  {
    if |events| == 0 then s else Run(Step(s, events[0], configFile), events[1..], configFile)
  }

  /** The controls show the running layout exactly when there is a worker
      handle. */
  predicate ControlsFollowWorker(s: WindowState) {
    s.controls == RunningControls(s.xrayProcess.Some?)
  }

  lemma StepKeepsControlsFollowWorker(s: WindowState, e: Event, configFile: string)
    requires ControlsFollowWorker(s)
    ensures ControlsFollowWorker(Step(s, e, configFile))
  {
  }

  /** Every event sequence keeps the controls in step with the worker. */
  lemma {:induction false} RunKeepsControlsFollowWorker(s: WindowState, events: seq<Event>, configFile: string)
    requires ControlsFollowWorker(s)
    ensures ControlsFollowWorker(Run(s, events, configFile))
    decreases |events|
  {
    if |events| > 0 {
      StepKeepsControlsFollowWorker(s, events[0], configFile);
      RunKeepsControlsFollowWorker(Step(s, events[0], configFile), events[1..], configFile);
    }
  }

  /** From startup on, whether the window is shown or the worker is started
      silently, run and stop are never enabled together, and the run button is
      enabled only when there is no worker handle. */
  lemma RunAndStopNeverBothEnabled(paths: Paths, silentMode: bool, disk: Disk,
                                   env: map<string, string>, nowMs: int, launched: bool,
                                   events: seq<Event>, configFile: string)
    ensures var s := Run(RunMainOutcome(Initial(paths), silentMode, disk, env, nowMs, launched), events, configFile);
      !(s.controls.runBtn && s.controls.stopBtn) &&
      (s.controls.runBtn ==> s.xrayProcess.None?)
  {
    var start := RunMainOutcome(Initial(paths), silentMode, disk, env, nowMs, launched);
    assert ControlsFollowWorker(start);
    RunKeepsControlsFollowWorker(start, events, configFile);
  }

  /** A worker handle is only ever created where there was none: the run
      handler does not check, but with the controls in step with the worker
      a click on run cannot reach it while a handle exists. */
  lemma NewWorkerOnlyWhenNoneExists(s: WindowState, e: Event, configFile: string)
    requires ControlsFollowWorker(s)
    ensures var t := Step(s, e, configFile);
      t.xrayProcess.Some? && t.xrayProcess != s.xrayProcess ==> s.xrayProcess.None?
  {
  }

  /** Without the disabled run button nothing would stop a second start:
      the run handler itself, called while a worker runs, replaces the live
      worker's handle and start time with new ones. */
  lemma RunHandlerDoesNotRefuseSecondStart(s: WindowState, disk: Disk, env: map<string, string>,
                                           atMs: int, launched: bool)
    requires WorkerRunning(s)
    requires StartCheck(s.config, disk, env).Launch?
    ensures var t := RunClicked(s, disk, env, atMs, launched);
      t.xrayStartedTime == atMs &&
      t.xrayProcess == Some(Process(LaunchPlanFor(s.config, disk, env), if launched then Running else NotRunning))
  {
  }

  /** A start whose program could not be launched leaves a handle that never
      reports an exit and that the stop handler ignores: from then on the
      run button and the path controls stay disabled whatever happens. */
  lemma {:induction false} FailedLaunchKeepsRunDisabled(s: WindowState, events: seq<Event>, configFile: string)
    requires ControlsFollowWorker(s)
    requires s.xrayProcess.Some? && s.xrayProcess.value.state == NotRunning
    ensures var t := Run(s, events, configFile);
      t.xrayProcess == s.xrayProcess && t.controls == RunningControls(true)
    decreases |events|
  {
    if |events| > 0 {
      var t := Step(s, events[0], configFile);
      assert t.xrayProcess == s.xrayProcess;
      StepKeepsControlsFollowWorker(s, events[0], configFile);
      FailedLaunchKeepsRunDisabled(t, events[1..], configFile);
    }
  }

  /** The tray-close flag is never cleared once set. */
  lemma {:induction false} TrayCloseFlagIsNeverReset(s: WindowState, events: seq<Event>, configFile: string)
    requires s.isSystemTrayClose
    ensures Run(s, events, configFile).isSystemTrayClose
    decreases |events|
  {
    if |events| > 0 {
      TrayCloseFlagIsNeverReset(Step(s, events[0], configFile), events[1..], configFile);
    }
  }

  /** The flag is only ever set on the way out: in every state reached from
      one where it implies quitting, a set flag means the application has
      quit. */
  lemma {:induction false} TrayCloseFlagMeansQuit(s: WindowState, events: seq<Event>, configFile: string)
    requires s.isSystemTrayClose ==> s.quit
    ensures var t := Run(s, events, configFile); t.isSystemTrayClose ==> t.quit
    decreases |events|
  {
    if |events| > 0 {
      var e := events[0];
      if Deliverable(s, e) && e.TrayExitAction? {
        ExitAppQuits(s, configFile, e.disk, e.exit);
      }
      TrayCloseFlagMeansQuit(Step(s, e, configFile), events[1..], configFile);
    }
  }

  /** Leaving the flag set is harmless: by TrayCloseFlagMeansQuit it is set
      only once the application has quit, and after that nothing reaches the
      window. */
  lemma {:induction false} NothingHappensAfterQuit(s: WindowState, events: seq<Event>, configFile: string)
    requires s.quit
    ensures Run(s, events, configFile) == s
    decreases |events|
  {
    if |events| > 0 {
      NothingHappensAfterQuit(Step(s, events[0], configFile), events[1..], configFile);
    }
  }

  /** Only the tray's exit action sets the tray-close flag. */
  lemma OnlyTrayExitSetsCloseFlag(s: WindowState, e: Event, configFile: string)
    requires !s.isSystemTrayClose
    ensures Step(s, e, configFile).isSystemTrayClose ==> e.TrayExitAction? && Deliverable(s, e)
  {
  }

  /** Only the path edits change the configuration. */
  lemma OnlyEditsChangeConfig(s: WindowState, e: Event, configFile: string)
    requires !(e.XrayPathTyped? || e.DataPathTyped? || e.ConfigPathTyped?)
    ensures Step(s, e, configFile).config == s.config
  {
  }
}
