/**
  The launcher window: it validates the configured paths and starts one xray
  worker process, stops it, reacts to its exit, and decides between hiding
  to the tray and quitting when the window is closed.

  The widgets are reduced to the state the window's code reads and writes:
  the enable flags of its eight controls and whether the window is hidden,
  minimized and active.  Dialogs are recorded as notices in the order they
  are shown.  The worker is a handle carrying its launch parameters and a
  Running / NotRunning state; its exit, the clock (milliseconds of UTC time),
  the system environment and the file system are inputs of the handlers.

  The pure functions below give each handler's effect on a `WindowState`
  value; the class `MainWindow` holds the same state in fields and its
  methods are proved to have exactly that effect.
 */
module Launcher {

  import opened Optional
  import opened Storage
  import opened Config

  /** The resource files that must exist directly under the data folder, in
      the order they are checked. */
  const DataFiles: seq<string> := ["geosite.dat", "geoip.dat"]

  /** The environment variable through which the worker finds its resources. */
  const AssetLocationVariable: string := "XRAY_LOCATION_ASSET"

  /** The configuration file, next to the executable. */
  const ConfigFileName: string := "launcher_config.json"

  /** An exit within this many whole seconds of the start shows the output. */
  const DiagnosticWindowSecs: int := 5

  // ---------------------------------------------------------------------
  // Values

  datatype ProcessState = NotRunning | Running

  /** How the worker is started: program, arguments, working directory and
      full environment. */
  datatype LaunchPlan = LaunchPlan(
    program: string,
    arguments: seq<string>,
    workingDirectory: string,
    environment: map<string, string>)

  /** The worker handle. */
  datatype Process = Process(plan: LaunchPlan, state: ProcessState)

  datatype ExitStatus = NormalExit | CrashExit

  /** A worker exit as reported by finished(): when it happened, the exit
      code and status, and everything the worker wrote to its merged
      standard output and error. */
  datatype ExitReport = ExitReport(atMs: int, exitCode: int, exitStatus: ExitStatus, output: string)

  /** What killXrayProcess asks of the worker: kill on Windows, where a
      console program ignores a close request, terminate elsewhere. */
  datatype Termination = KillRequest | TerminateRequest

  /** Why the tray icon was activated; `Context` is the context-menu click. */
  datatype ActivationReason = Unknown | Context | DoubleClick | Trigger | MiddleClick

  /** Why a start was refused; each shows its own message. */
  datatype StartError = EmptyXrayPath | EmptyDataPath | MissingDataFile(name: string) | EmptyConfigPath

  /** The enable flags of the three path edits, the three pick buttons, the
      run button and the stop button. */
  datatype Controls = Controls(
    xrayPathEdit: bool, selectXrayPathBtn: bool,
    dataPathEdit: bool, selectDataPathBtn: bool,
    configPathEdit: bool, selectConfigPathBtn: bool,
    runBtn: bool, stopBtn: bool)

  datatype Visibility = Visibility(hidden: bool, minimized: bool, active: bool)

  /** A dialog shown to the user: the error box of a refused start, or the
      error-log dialog with a worker's output. */
  datatype Notice = ErrorMessage(reason: StartError) | ErrorLog(text: string)

  /** Everything the window's handlers read or write. */
  datatype WindowState = WindowState(
    config: Paths,
    xrayProcess: Option<Process>,
    xrayStartedTime: int,
    isSystemTrayClose: bool,
    window: Visibility,
    controls: Controls,
    notices: seq<Notice>,
    quit: bool)

  predicate WorkerRunning(s: WindowState) {
    s.xrayProcess.Some? && s.xrayProcess.value.state == Running
  }

  // ---------------------------------------------------------------------
  // Time

  /** QDateTime::secsTo: the difference in milliseconds divided by 1000,
      truncated toward zero as C++ integer division is. */
  function SecsTo(fromMs: int, toMs: int): int {
    var d := toMs - fromMs;
    if d >= 0 then d / 1000 else -((-d) / 1000)
  }

  /** The five-second rule in milliseconds: an exit counts as within the
      window exactly when it comes less than 6000 ms after the start (any
      exit stamped before the start included). */
  lemma DiagnosticWindowInMilliseconds(fromMs: int, toMs: int)
    ensures SecsTo(fromMs, toMs) <= DiagnosticWindowSecs <==> toMs - fromMs < 6000
  {
  }

  // ---------------------------------------------------------------------
  // Paths

  /** The position of the last '/' in `p`, if there is one. */
  function LastSeparator(p: string): (r: Option<nat>)
    ensures r.Some? ==> (r.value < |p| && p[r.value] == '/' &&
                         forall j :: r.value < j < |p| ==> p[j] != '/')
    ensures r.None? ==> forall j :: 0 <= j < |p| ==> p[j] != '/'
  {
    if |p| == 0 then None
    else if p[|p| - 1] == '/' then Some(|p| - 1)
    else LastSeparator(p[..|p| - 1])
  }

  /** The directory one level above `p`: the text before the last separator,
      "/" for a top-level directory, "." for a bare relative name, and none
      for the root itself. */
  function ParentDirectory(p: string): Option<string> {
    match LastSeparator(p)
    case None => Some(".")
    case Some(i) =>
      if i > 0 then Some(p[..i])
      else if |p| > 1 then Some("/")
      else None
  }

  /** QDir(dataPath).cdUp(): the directory moves up only when the parent
      exists; otherwise it stays at `dataPath`. */
  function WorkingDirectory(dataPath: string, disk: Disk): string {
    match ParentDirectory(dataPath)
    case Some(parent) => if Exists(disk, parent) then parent else dataPath
    case None => dataPath
  }

  /** Where a resource file is looked for. */
  function DataFilePath(dataPath: string, name: string): string {
    dataPath + "/" + name
  }

  // ---------------------------------------------------------------------
  // Starting the worker

  /** The first of `names` missing from the data folder, if any. */
  function FirstMissing(dataPath: string, names: seq<string>, disk: Disk): (r: Option<string>)
    ensures r.Some? ==> (exists i :: 0 <= i < |names| && names[i] == r.value &&
                           !Exists(disk, DataFilePath(dataPath, names[i])) &&
                           forall j :: 0 <= j < i ==> Exists(disk, DataFilePath(dataPath, names[j])))
    ensures r.None? ==> forall i :: 0 <= i < |names| ==> Exists(disk, DataFilePath(dataPath, names[i]))
  {
    if |names| == 0 then None
    else if !Exists(disk, DataFilePath(dataPath, names[0])) then Some(names[0])
    else
      var rest := FirstMissing(dataPath, names[1..], disk);
      assert forall i :: 1 <= i < |names| ==> names[i] == names[1..][i - 1];
      rest
  }

  /** The launch parameters for a configuration that passed every check. */
  function LaunchPlanFor(cfg: Paths, disk: Disk, systemEnvironment: map<string, string>): LaunchPlan {
    LaunchPlan(cfg.xrayPath, ["-confdir", cfg.configPath],
               WorkingDirectory(cfg.dataPath, disk),
               systemEnvironment[AssetLocationVariable := cfg.dataPath])
  }

  datatype StartDecision = Rejected(reason: StartError) | Launch(plan: LaunchPlan)

  /** The run handler's validation chain.  A start goes ahead exactly when the
      three paths are non-empty and both resource files exist. */
  function StartCheck(cfg: Paths, disk: Disk, systemEnvironment: map<string, string>): (r: StartDecision)
    ensures r.Launch? <==>
      cfg.xrayPath != "" && cfg.dataPath != "" && cfg.configPath != "" &&
      forall i :: 0 <= i < |DataFiles| ==> Exists(disk, DataFilePath(cfg.dataPath, DataFiles[i]))
  {
    if cfg.xrayPath == "" then Rejected(EmptyXrayPath)
    else if cfg.dataPath == "" then Rejected(EmptyDataPath)
    else match FirstMissing(cfg.dataPath, DataFiles, disk)
      case Some(name) => Rejected(MissingDataFile(name))
      case None =>
        if cfg.configPath == "" then Rejected(EmptyConfigPath)
        else Launch(LaunchPlanFor(cfg, disk, systemEnvironment))
  }

  // ---------------------------------------------------------------------
  // Handler effects

  /** changeRunningState(isRunning): the path controls and the run button are
      enabled exactly when not running, the stop button exactly when running. */
  function RunningControls(isRunning: bool): Controls {
    Controls(!isRunning, !isRunning, !isRunning, !isRunning, !isRunning, !isRunning, !isRunning, isRunning)
  }

  function Show(v: Visibility): Visibility { v.(hidden := false) }
  function ShowNormal(v: Visibility): Visibility { v.(hidden := false, minimized := false) }
  function ActivateWindow(v: Visibility): Visibility { v.(active := true) }
  /** Hiding a window also takes the focus from it. */
  function Hide(v: Visibility): Visibility { v.(hidden := true, active := false) }

  /** onXrayPathChanged and its two siblings: the edit's text becomes the field. */
  function XrayPathChanged(s: WindowState, text: string): WindowState {
    s.(config := s.config.(xrayPath := text))
  }
  function DataPathChanged(s: WindowState, text: string): WindowState {
    s.(config := s.config.(dataPath := text))
  }
  function ConfigPathChanged(s: WindowState, text: string): WindowState {
    s.(config := s.config.(configPath := text))
  }

  /** onRunBtnClicked.  `launched` says whether QProcess::start got the
      worker running; the window enters the running state either way. */
  function RunClicked(s: WindowState, disk: Disk, systemEnvironment: map<string, string>,
                      nowMs: int, launched: bool): WindowState
  {
    match StartCheck(s.config, disk, systemEnvironment)
    case Rejected(e) => s.(notices := s.notices + [ErrorMessage(e)])
    case Launch(plan) =>
      s.(xrayProcess := Some(Process(plan, if launched then Running else NotRunning)),
         xrayStartedTime := nowMs,
         controls := RunningControls(true))
  }

  /** The error-log dialog an exit shows, if any: the worker's output, when
      the exit came within the diagnostic window and there was output (an
      empty read gives a null string, which shows nothing). */
  function ExitDiagnostics(startedMs: int, report: ExitReport): seq<Notice> {
    if SecsTo(startedMs, report.atMs) <= DiagnosticWindowSecs && report.output != ""
    then [ErrorLog(report.output)]
    else []
  }

  /** onProcessFinished: the handle is dropped, the window leaves the
      running state, and the output may be shown.  Exit code and status are
      only logged. */
  function Finished(s: WindowState, report: ExitReport): WindowState {
    s.(xrayProcess := None,
       controls := RunningControls(false),
       notices := s.notices + ExitDiagnostics(s.xrayStartedTime, report))
  }

  /** The request killXrayProcess sends, if any. */
  function TerminationFor(s: WindowState, onWindows: bool): Option<Termination> {
    if WorkerRunning(s) then Some(if onWindows then KillRequest else TerminateRequest) else None
  }

  /** killXrayProcess.  `exit` is how the worker ends while waitForFinished
      waits (finished() is delivered during the wait), or None when it
      outlives the wait's 30-second limit and is still running afterwards. */
  function Killed(s: WindowState, exit: Option<ExitReport>): WindowState {
    if WorkerRunning(s) && exit.Some? then Finished(s, exit.value) else s
  }

  /** onShowMainWindow: show a hidden window, else restore a minimized one,
      else activate an inactive one. */
  function ShowMainWindow(v: Visibility): Visibility {
    if v.hidden then Show(v)
    else if v.minimized then ShowNormal(v)
    else if !v.active then ActivateWindow(v)
    else v
  }

  /** onSystemTrayActivated: every activation but the context click brings
      the window forward. */
  function TrayActivated(s: WindowState, reason: ActivationReason): WindowState {
    if reason == Context then s else s.(window := ShowMainWindow(s.window))
  }

  /** What a close leaves behind: the window state, the disk after the
      configuration was saved, and whether the close was accepted. */
  datatype CloseOutcome = CloseOutcome(state: WindowState, disk: Disk, accepted: bool)

  /** closeEvent: save the configuration, then either stop the worker and
      accept (a close from the tray's exit action) or hide and ignore. */
  function CloseEventOutcome(s: WindowState, configFile: string, disk: Disk, exit: Option<ExitReport>): CloseOutcome {
    var saved := Save(s.config, configFile, disk).disk;
    if s.isSystemTrayClose then CloseOutcome(Killed(s, exit), saved, true)
    else CloseOutcome(s.(window := if !s.window.hidden then Hide(s.window) else s.window), saved, false)
  }

  /** A close request as the window system delivers it: closeEvent runs,
      and an accepted close hides the last visible window, which quits the
      application. */
  function CloseRequested(s: WindowState, configFile: string, disk: Disk, exit: Option<ExitReport>): CloseOutcome {
    var o := CloseEventOutcome(s, configFile, disk, exit);
    if o.accepted then o.(state := o.state.(window := Hide(o.state.window), quit := true)) else o
  }

  /** onExitApp: mark the close as coming from the tray, show a hidden
      window (a hidden one cannot be closed), and close. */
  function ExitApp(s: WindowState, configFile: string, disk: Disk, exit: Option<ExitReport>): CloseOutcome {
    var flagged := s.(isSystemTrayClose := true);
    var shown := if flagged.window.hidden then flagged.(window := Show(flagged.window)) else flagged;
    CloseRequested(shown, configFile, disk, exit)
  }

  /** runMain: silent mode starts the worker without showing the window. */
  function RunMainOutcome(s: WindowState, silentMode: bool, disk: Disk, systemEnvironment: map<string, string>,
                   nowMs: int, launched: bool): WindowState
  {
    if silentMode then RunClicked(s, disk, systemEnvironment, nowMs, launched)
    else s.(window := Show(s.window))
  }

  /** The paths the window starts with: whatever loading the configuration
      file into an empty configuration leaves. */
  function StartupPaths(configFile: string, disk: Disk): Paths {
    Load(EmptyPaths, configFile, disk).paths
  }

  /** The window as constructed: not yet shown, no worker, the controls in
      their not-running layout. */
  function Initial(paths: Paths): WindowState {
    WindowState(paths, None, 0, false, Visibility(true, false, false), RunningControls(false), [], false)
  }

  // ---------------------------------------------------------------------
  // Properties of the handlers

  /** The start checks as an ordered list, written independently of the run
      handler: each check, whether it passes, and what it reports. */
  datatype Check = XrayPathGiven | DataPathGiven | DataFilePresent(name: string) | ConfigPathGiven

  const StartChecks: seq<Check> :=
    [XrayPathGiven, DataPathGiven, DataFilePresent("geosite.dat"), DataFilePresent("geoip.dat"), ConfigPathGiven]

  predicate Passes(c: Check, cfg: Paths, disk: Disk) {
    match c
    case XrayPathGiven => cfg.xrayPath != ""
    case DataPathGiven => cfg.dataPath != ""
    case DataFilePresent(name) => Exists(disk, DataFilePath(cfg.dataPath, name))
    case ConfigPathGiven => cfg.configPath != ""
  }

  function Complaint(c: Check): StartError {
    match c
    case XrayPathGiven => EmptyXrayPath
    case DataPathGiven => EmptyDataPath
    case DataFilePresent(name) => MissingDataFile(name)
    case ConfigPathGiven => EmptyConfigPath
  }

  /** The first check in `checks` that fails, if any. */
  function FirstFailing(checks: seq<Check>, cfg: Paths, disk: Disk): Option<Check> {
    if |checks| == 0 then None
    else if !Passes(checks[0], cfg, disk) then Some(checks[0])
    else FirstFailing(checks[1..], cfg, disk)
  }

  /** The run handler reports the first failing check, in the fixed order
      xray path, data path, geosite.dat, geoip.dat, config path, and
      launches only when none fails. */
  lemma StartCheckReportsFirstFailing(cfg: Paths, disk: Disk, systemEnvironment: map<string, string>)
    ensures StartCheck(cfg, disk, systemEnvironment) ==
      match FirstFailing(StartChecks, cfg, disk)
      case Some(c) => Rejected(Complaint(c))
      case None => Launch(LaunchPlanFor(cfg, disk, systemEnvironment))
  {
    var rest := StartChecks[1..];
    assert rest == [DataPathGiven, DataFilePresent("geosite.dat"), DataFilePresent("geoip.dat"), ConfigPathGiven];
    assert rest[1..] == [DataFilePresent("geosite.dat"), DataFilePresent("geoip.dat"), ConfigPathGiven];
    assert rest[1..][1..] == [DataFilePresent("geoip.dat"), ConfigPathGiven];
    assert rest[1..][1..][1..] == [ConfigPathGiven];
    assert rest[1..][1..][1..][1..] == [];
    assert DataFiles[1..] == ["geoip.dat"];
    assert DataFiles[1..][1..] == [];
    var f0 := FirstFailing(StartChecks, cfg, disk);
    var f1 := FirstFailing(rest, cfg, disk);
    var f2 := FirstFailing(rest[1..], cfg, disk);
    var f3 := FirstFailing(rest[1..][1..], cfg, disk);
    var f4 := FirstFailing(rest[1..][1..][1..], cfg, disk);
    assert f0 == if cfg.xrayPath == "" then Some(XrayPathGiven) else f1;
    assert f1 == if cfg.dataPath == "" then Some(DataPathGiven) else f2;
    assert f2 == if !Exists(disk, DataFilePath(cfg.dataPath, "geosite.dat")) then Some(DataFilePresent("geosite.dat")) else f3;
    assert f3 == if !Exists(disk, DataFilePath(cfg.dataPath, "geoip.dat")) then Some(DataFilePresent("geoip.dat")) else f4;
    assert FirstFailing(rest[1..][1..][1..][1..], cfg, disk) == None;
    assert f4 == if cfg.configPath == "" then Some(ConfigPathGiven) else None;
    var m := FirstMissing(cfg.dataPath, DataFiles, disk);
    assert FirstMissing(cfg.dataPath, DataFiles[1..][1..], disk) == None;
    assert FirstMissing(cfg.dataPath, DataFiles[1..], disk) ==
      if !Exists(disk, DataFilePath(cfg.dataPath, "geoip.dat")) then Some("geoip.dat") else None;
    assert m == if !Exists(disk, DataFilePath(cfg.dataPath, "geosite.dat")) then Some("geosite.dat")
                else if !Exists(disk, DataFilePath(cfg.dataPath, "geoip.dat")) then Some("geoip.dat")
                else None;
  }

  /** Every check has its own message. */
  lemma ComplaintsAreDistinct()
    ensures forall i, j :: 0 <= i < j < |StartChecks| ==> Complaint(StartChecks[i]) != Complaint(StartChecks[j])
  {
  }

  /** A refused start only shows its message: no process is created, and the
      start time, the controls and the configuration are as they were. */
  lemma RejectedStartOnlyShowsMessage(s: WindowState, disk: Disk, systemEnvironment: map<string, string>,
                                      nowMs: int, launched: bool)
    requires StartCheck(s.config, disk, systemEnvironment).Rejected?
    ensures var r := RunClicked(s, disk, systemEnvironment, nowMs, launched);
      r.xrayProcess == s.xrayProcess && r.xrayStartedTime == s.xrayStartedTime &&
      r.controls == s.controls && r.config == s.config && r.window == s.window &&
      r.notices == s.notices + [ErrorMessage(StartCheck(s.config, disk, systemEnvironment).reason)]
  {
  }

  /** An accepted start launches the configured program with exactly the
      arguments -confdir and the config path, from the data folder's parent
      when that exists, with XRAY_LOCATION_ASSET set to the data folder and
      the rest of the environment inherited; it records the start time and
      enters the running state whether or not the program could be started. */
  lemma AcceptedStartLaunches(s: WindowState, disk: Disk, systemEnvironment: map<string, string>,
                              nowMs: int, launched: bool)
    requires StartCheck(s.config, disk, systemEnvironment).Launch?
    ensures forall name :: name in DataFiles ==> Exists(disk, s.config.dataPath + "/" + name)
    ensures var r := RunClicked(s, disk, systemEnvironment, nowMs, launched);
      r.xrayProcess.Some? && r.xrayStartedTime == nowMs && r.controls == RunningControls(true) &&
      (r.xrayProcess.value.state == Running <==> launched) &&
      r.notices == s.notices && r.config == s.config
    ensures var plan := RunClicked(s, disk, systemEnvironment, nowMs, launched).xrayProcess.value.plan;
      plan.program == s.config.xrayPath &&
      plan.arguments == ["-confdir", s.config.configPath] &&
      plan.workingDirectory == WorkingDirectory(s.config.dataPath, disk) &&
      plan.environment.Keys == systemEnvironment.Keys + {AssetLocationVariable} &&
      plan.environment[AssetLocationVariable] == s.config.dataPath &&
      forall k :: k in systemEnvironment && k != AssetLocationVariable ==>
        plan.environment[k] == systemEnvironment[k]
  {
    var cfg := s.config;
    assert forall i :: 0 <= i < |DataFiles| ==> Exists(disk, DataFilePath(cfg.dataPath, DataFiles[i]));
    forall name | name in DataFiles
      ensures Exists(disk, cfg.dataPath + "/" + name)
    {
      var i :| 0 <= i < |DataFiles| && DataFiles[i] == name;
    }
  }

  /** The working directory is the data folder's parent when that exists:
      the parent, a separator and a last name without separators spell the
      data folder again.  Otherwise it is the data folder itself. */
  lemma WorkingDirectoryIsExistingParent(dataPath: string, disk: Disk)
    ensures var w := WorkingDirectory(dataPath, disk);
      w == dataPath || (Exists(disk, w) && ParentDirectory(dataPath) == Some(w))
    ensures match ParentDirectory(dataPath)
      case Some(parent) =>
        parent != "." && parent != "/" ==>
          |parent| < |dataPath| && dataPath == parent + "/" + dataPath[|parent| + 1..] &&
          forall j :: |parent| < j < |dataPath| ==> dataPath[j] != '/'
      case None => dataPath == "/"
  {
    match LastSeparator(dataPath)
    case None =>
    case Some(i) =>
      if i > 0 {
        assert dataPath == dataPath[..i] + "/" + dataPath[i + 1..];
      }
  }

  /** changeRunningState never enables run and stop together, and always
      enables exactly one of them. */
  lemma RunAndStopExclusive(isRunning: bool)
    ensures RunningControls(isRunning).runBtn != RunningControls(isRunning).stopBtn
    ensures RunningControls(isRunning).stopBtn == isRunning
  {
  }

  /** On exit the handle is dropped and the window leaves the running state;
      the output is shown exactly when there is some and the exit came less
      than 6000 ms (at most five whole seconds) after the start. */
  lemma FinishedShowsOutputOnlyEarly(s: WindowState, report: ExitReport)
    ensures var r := Finished(s, report);
      r.xrayProcess.None? && r.controls == RunningControls(false) &&
      r.config == s.config && r.window == s.window && r.isSystemTrayClose == s.isSystemTrayClose &&
      r.notices == s.notices +
        (if report.atMs - s.xrayStartedTime < 6000 && report.output != "" then [ErrorLog(report.output)] else [])
  {
    DiagnosticWindowInMilliseconds(s.xrayStartedTime, report.atMs);
  }

  /** Exit code and exit status change nothing but the log. */
  lemma FinishedIgnoresExitCodeAndStatus(s: WindowState, r1: ExitReport, r2: ExitReport)
    requires r1.atMs == r2.atMs && r1.output == r2.output
    ensures Finished(s, r1) == Finished(s, r2)
  {
  }

  /** Three exits with output: after 3 s with code 0 the output is shown,
      after 10 s with code 0 it is not, after 1 s by a crash it is. */
  lemma ExitWindowExamples(s: WindowState, output: string)
    requires output != ""
    ensures Finished(s, ExitReport(s.xrayStartedTime + 3000, 0, NormalExit, output)).notices
      == s.notices + [ErrorLog(output)]
    ensures Finished(s, ExitReport(s.xrayStartedTime + 10000, 0, NormalExit, output)).notices == s.notices
    ensures Finished(s, ExitReport(s.xrayStartedTime + 1000, 0, CrashExit, output)).notices
      == s.notices + [ErrorLog(output)]
  {
  }

  /** killXrayProcess leaves a missing or not-running worker alone and sends
      nothing; a running one gets kill on Windows and terminate elsewhere,
      and is gone once it exits during the wait. */
  lemma KillOnlyStopsRunningWorker(s: WindowState, exit: Option<ExitReport>, onWindows: bool)
    ensures !WorkerRunning(s) ==> Killed(s, exit) == s && TerminationFor(s, onWindows).None?
    ensures WorkerRunning(s) ==> TerminationFor(s, onWindows) == Some(if onWindows then KillRequest else TerminateRequest)
    ensures WorkerRunning(s) && exit.Some? ==> Killed(s, exit).xrayProcess.None? && !Killed(s, exit).controls.stopBtn
    ensures WorkerRunning(s) && exit.None? ==> Killed(s, exit) == s
  {
  }

  /** Every close saves the configuration first, as it was at the close. */
  lemma CloseSavesConfig(s: WindowState, configFile: string, disk: Disk, exit: Option<ExitReport>)
    ensures CloseEventOutcome(s, configFile, disk, exit).disk == Save(s.config, configFile, disk).disk
    ensures CloseRequested(s, configFile, disk, exit).disk == Save(s.config, configFile, disk).disk
  {
  }

  /** A close from the window's own button hides the window and is ignored:
      the worker, the controls and the configuration are left as they were. */
  lemma WindowCloseHidesAndKeepsWorker(s: WindowState, configFile: string, disk: Disk, exit: Option<ExitReport>)
    requires !s.isSystemTrayClose
    ensures var o := CloseRequested(s, configFile, disk, exit);
      !o.accepted && o.state.window.hidden &&
      o.state == s.(window := o.state.window)
  {
  }

  /** A close from the tray's exit action stops the worker and is accepted,
      and the application quits. */
  lemma TrayCloseStopsWorkerAndQuits(s: WindowState, configFile: string, disk: Disk, exit: Option<ExitReport>)
    requires s.isSystemTrayClose
    ensures var o := CloseRequested(s, configFile, disk, exit);
      o.accepted && o.state.quit &&
      o.state.xrayProcess == Killed(s, exit).xrayProcess &&
      (WorkerRunning(s) && exit.Some? ==> o.state.xrayProcess.None?)
  {
  }

  /** The tray's exit action always quits: it sets the flag, saves the
      configuration once, and stops a running worker that exits in time. */
  lemma ExitAppQuits(s: WindowState, configFile: string, disk: Disk, exit: Option<ExitReport>)
    ensures var o := ExitApp(s, configFile, disk, exit);
      o.accepted && o.state.quit && o.state.isSystemTrayClose &&
      o.disk == Save(s.config, configFile, disk).disk &&
      o.state.config == s.config &&
      o.state.xrayProcess == Killed(s, exit).xrayProcess
  {
  }

  /** onShowMainWindow changes at most one flag, in priority order: a hidden
      window is shown, a visible minimized one restored, a visible normal one
      activated; a visible, normal, active window is left alone. */
  lemma ShowMainWindowPriority(v: Visibility)
    ensures var w := ShowMainWindow(v);
      !w.hidden &&
      (v.hidden ==> w.minimized == v.minimized && w.active == v.active) &&
      (!v.hidden ==> !w.minimized && w.hidden == v.hidden) &&
      (!v.hidden && v.minimized ==> w.active == v.active) &&
      (!v.hidden && !v.minimized ==> w.active) &&
      (w == v <==> !v.hidden && !v.minimized && v.active)
  {
  }

  /** Three activations in a row always leave the window shown, restored and
      active. */
  lemma ShowMainWindowThreeTimesForegrounds(v: Visibility)
    ensures ShowMainWindow(ShowMainWindow(ShowMainWindow(v))) == Visibility(false, false, true)
  {
  }

  /** The context click on the tray icon changes nothing; every other
      activation changes only the window's visibility, as onShowMainWindow. */
  lemma TrayActivationShowsUnlessContext(s: WindowState, reason: ActivationReason)
    ensures reason == Context ==> TrayActivated(s, reason) == s
    ensures reason != Context ==> TrayActivated(s, reason) == s.(window := ShowMainWindow(s.window))
  {
  }

  /** The window starts with the paths of the configuration file, or empty
      paths when the file is missing or fails to load. */
  lemma StartupPathsFallBackToEmpty(configFile: string, disk: Disk)
    ensures !Load(EmptyPaths, configFile, disk).ok ==> StartupPaths(configFile, disk) == EmptyPaths
    ensures !Exists(disk, configFile) ==> StartupPaths(configFile, disk) == EmptyPaths
    ensures Exists(disk, configFile) && configFile !in disk.unreadable &&
            disk.entries[configFile].ObjectDocument? ==>
      StartupPaths(configFile, disk) == ReadPaths(disk.entries[configFile].members, EmptyPaths)
  {
  }

  /** Silent mode starts the worker without showing the window; otherwise
      the window is shown and nothing is started. */
  lemma SilentModeStartsWithoutShowing(s: WindowState, disk: Disk, systemEnvironment: map<string, string>,
                                       nowMs: int, launched: bool)
    ensures RunMainOutcome(s, true, disk, systemEnvironment, nowMs, launched).window == s.window
    ensures RunMainOutcome(s, true, disk, systemEnvironment, nowMs, launched)
      == RunClicked(s, disk, systemEnvironment, nowMs, launched)
    ensures RunMainOutcome(s, false, disk, systemEnvironment, nowMs, launched)
      == s.(window := s.window.(hidden := false))
  {
  }

  // ---------------------------------------------------------------------
  // The window object

  class MainWindow {
    /** Whether the build targets Windows (Q_OS_WIN). */
    const onWindows: bool
    const launcherConfigPath: string
    const launcherConfig: LauncherConfig
    var xrayProcess: Option<Process>
    var xrayStartedTime: int
    var isSystemTrayClose: bool
    var window: Visibility
    var controls: Controls
    var notices: seq<Notice>
    var quit: bool

    function State(): WindowState
      reads this, launcherConfig
    {
      WindowState(launcherConfig.Value(), xrayProcess, xrayStartedTime, isSystemTrayClose,
                  window, controls, notices, quit)
    }

    /** The window is built with the configuration read from
        `launcher_config.json` in the application directory; a file that
        fails to load leaves the configuration empty. */
    constructor (applicationDirPath: string, disk: Disk, onWindows: bool)
      ensures this.onWindows == onWindows
      ensures launcherConfigPath == applicationDirPath + "/" + ConfigFileName
      ensures fresh(launcherConfig)
      ensures State() == Initial(StartupPaths(launcherConfigPath, disk))
    {
      this.onWindows := onWindows;
      launcherConfigPath := applicationDirPath + "/" + ConfigFileName;
      launcherConfig := new LauncherConfig();
      xrayProcess := None;
      xrayStartedTime := 0;
      isSystemTrayClose := false;
      window := Visibility(true, false, false);
      controls := RunningControls(false);
      notices := [];
      quit := false;
      new;
      LoadLauncherConfig(disk);
    }

    /** loadLauncherConfig: read the file into a fresh configuration and, if
        that succeeded, put its paths into the edits, whose change handlers
        copy them into the window's configuration. */
    method LoadLauncherConfig(disk: Disk)
      modifies launcherConfig
      ensures var r := Load(EmptyPaths, launcherConfigPath, disk);
        launcherConfig.Value() == if r.ok then r.paths else old(launcherConfig.Value())
    {
      var config := new LauncherConfig();
      var ok, _ := config.LoadFromDisk(launcherConfigPath, disk, []);
      if !ok {
        return;
      }
      OnXrayPathChanged(config.xrayPath);
      OnDataPathChanged(config.dataPath);
      OnConfigPathChanged(config.configPath);
    }

    /** saveLauncherConfig: a failure is only logged. */
    method SaveLauncherConfig(disk: Disk) returns (diskOut: Disk)
      ensures diskOut == Save(launcherConfig.Value(), launcherConfigPath, disk).disk
    {
      var ok, errorOut;
      ok, diskOut, errorOut := launcherConfig.SaveToDisk(launcherConfigPath, disk, []);
    }

    method OnXrayPathChanged(text: string)
      modifies launcherConfig
      ensures State() == XrayPathChanged(old(State()), text)
    {
      launcherConfig.xrayPath := text;
    }

    method OnDataPathChanged(text: string)
      modifies launcherConfig
      ensures State() == DataPathChanged(old(State()), text)
    {
      launcherConfig.dataPath := text;
    }

    method OnConfigPathChanged(text: string)
      modifies launcherConfig
      ensures State() == ConfigPathChanged(old(State()), text)
    {
      launcherConfig.configPath := text;
    }

    method ChangeRunningState(isRunning: bool)
      modifies this
      ensures State() == old(State()).(controls := RunningControls(isRunning))
    {
      controls := controls.(xrayPathEdit := !isRunning);
      controls := controls.(selectXrayPathBtn := !isRunning);
      controls := controls.(dataPathEdit := !isRunning);
      controls := controls.(selectDataPathBtn := !isRunning);
      controls := controls.(configPathEdit := !isRunning);
      controls := controls.(selectConfigPathBtn := !isRunning);
      controls := controls.(runBtn := !isRunning);
      controls := controls.(stopBtn := isRunning);
    }

    /** The checks of onRunBtnClicked, in order, with the loop over the
        resource files; on success, the launch parameters. */
    method ValidateStart(disk: Disk, systemEnvironment: map<string, string>) returns (decision: StartDecision)
      ensures decision == StartCheck(launcherConfig.Value(), disk, systemEnvironment)
    {
      var xrayPath := launcherConfig.xrayPath;
      if xrayPath == "" {
        return Rejected(EmptyXrayPath);
      }
      var dataPath := launcherConfig.dataPath;
      if dataPath == "" {
        return Rejected(EmptyDataPath);
      }
      var i := 0;
      while i < |DataFiles|
        invariant 0 <= i <= |DataFiles|
        invariant FirstMissing(dataPath, DataFiles, disk) == FirstMissing(dataPath, DataFiles[i..], disk)
      {
        var geoFilePath := DataFilePath(dataPath, DataFiles[i]);
        if !Exists(disk, geoFilePath) {
          return Rejected(MissingDataFile(DataFiles[i]));
        }
        i := i + 1;
      }
      var configPath := launcherConfig.configPath;
      if configPath == "" {
        return Rejected(EmptyConfigPath);
      }
      var workingDir := WorkingDirectory(dataPath, disk);
      var env := systemEnvironment[AssetLocationVariable := dataPath];
      var arguments := ["-confdir", configPath];
      return Launch(LaunchPlan(xrayPath, arguments, workingDir, env));
    }

    /** onRunBtnClicked.  Nothing here refuses a second start; only the
        disabled run button keeps it from being clicked while a worker is
        up. */
    method OnRunBtnClicked(disk: Disk, systemEnvironment: map<string, string>, nowMs: int, launched: bool)
      modifies this
      ensures State() == RunClicked(old(State()), disk, systemEnvironment, nowMs, launched)
    {
      var decision := ValidateStart(disk, systemEnvironment);
      if decision.Rejected? {
        notices := notices + [ErrorMessage(decision.reason)];
        return;
      }
      xrayStartedTime := nowMs;
      xrayProcess := Some(Process(decision.plan, if launched then Running else NotRunning));
      ChangeRunningState(true);
    }

    method OnStopBtnClicked(exit: Option<ExitReport>) returns (sent: Option<Termination>)
      modifies this
      ensures sent == TerminationFor(old(State()), onWindows)
      ensures State() == Killed(old(State()), exit)
    {
      sent := KillXrayProcess(exit);
    }

    /** onProcessFinished; it is only connected to an existing worker. */
    method OnProcessFinished(report: ExitReport)
      requires xrayProcess.Some?
      modifies this
      ensures State() == Finished(old(State()), report)
    {
      var errorMessage := ExitDiagnostics(xrayStartedTime, report);
      xrayProcess := None;
      ChangeRunningState(false);
      notices := notices + errorMessage;
    }

    /** killXrayProcess: only a running worker is asked to stop, and then
        waited for. */
    method KillXrayProcess(exit: Option<ExitReport>) returns (sent: Option<Termination>)
      modifies this
      ensures sent == TerminationFor(old(State()), onWindows)
      ensures State() == Killed(old(State()), exit)
    {
      sent := None;
      if xrayProcess.Some? {
        if xrayProcess.value.state == Running {
          sent := Some(if onWindows then KillRequest else TerminateRequest);
          if exit.Some? {
            OnProcessFinished(exit.value);
          }
        }
      }
    }

    method OnShowMainWindow()
      modifies this
      ensures State() == old(State()).(window := ShowMainWindow(old(window)))
    {
      if window.hidden {
        window := Show(window);
      } else if window.minimized {
        window := ShowNormal(window);
      } else if !window.active {
        window := ActivateWindow(window);
      }
    }

    method OnSystemTrayActivated(reason: ActivationReason)
      modifies this
      ensures State() == TrayActivated(old(State()), reason)
    {
      if reason != Context {
        OnShowMainWindow();
      }
    }

    method CloseEvent(disk: Disk, exit: Option<ExitReport>) returns (accepted: bool, diskOut: Disk)
      modifies this
      ensures var o := CloseEventOutcome(old(State()), launcherConfigPath, disk, exit);
        State() == o.state && diskOut == o.disk && accepted == o.accepted
    {
      diskOut := SaveLauncherConfig(disk);
      if isSystemTrayClose {
        var _ := KillXrayProcess(exit);
        accepted := true;
      } else {
        if !window.hidden {
          window := Hide(window);
        }
        accepted := false;
      }
    }

    /** QWidget::close, the path every close request takes. */
    method Close(disk: Disk, exit: Option<ExitReport>) returns (accepted: bool, diskOut: Disk)
      modifies this
      ensures var o := CloseRequested(old(State()), launcherConfigPath, disk, exit);
        State() == o.state && diskOut == o.disk && accepted == o.accepted
    {
      accepted, diskOut := CloseEvent(disk, exit);
      if accepted {
        window := Hide(window);
        quit := true;
      }
    }

    method OnExitApp(disk: Disk, exit: Option<ExitReport>) returns (diskOut: Disk)
      modifies this
      ensures var o := ExitApp(old(State()), launcherConfigPath, disk, exit);
        State() == o.state && diskOut == o.disk
    {
      isSystemTrayClose := true;
      if window.hidden {
        window := Show(window);
      }
      var accepted;
      accepted, diskOut := Close(disk, exit);
    }

    method RunMain(silentMode: bool, disk: Disk, systemEnvironment: map<string, string>, nowMs: int, launched: bool)
      modifies this
      ensures State() == RunMainOutcome(old(State()), silentMode, disk, systemEnvironment, nowMs, launched)
    {
      if silentMode {
        OnRunBtnClicked(disk, systemEnvironment, nowMs, launched);
      } else {
        window := Show(window);
      }
    }
  }
}
