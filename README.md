# XrayLauncher core, modelled in Dafny

XrayLauncher is a desktop launcher for the xray proxy. It keeps three paths
(the xray executable, the resource-data folder and the configuration folder)
in `launcher_config.json`. It starts one xray worker with those paths, stops
it, and shows the worker's output when the worker dies soon after starting.
Closing the window hides it to the system tray. The tray's exit action is
the launcher's own way to quit, and it stops the worker first.

The model covers the two places where the launcher makes decisions:

- `launcher_config.dfy` (module `Config`) models `LauncherConfig`. It has a
  lenient, field-by-field loader with three error exits, and a saver that
  always writes all three keys. The class `LauncherConfig` holds the three
  fields. Its methods are proved equal to the functions `Load` and `Save`,
  and lemmas state the error cases, field independence and the save/load
  round trip.
- `mainwindow.dfy` (module `Launcher`) models `MainWindow`. Pure functions
  give each slot's effect on a `WindowState` value. That value holds the
  configuration, the worker handle, the start time, the tray-close flag,
  window visibility, the enable flags of the eight controls, the dialogs
  shown, and whether the application quit. The class `MainWindow` holds the
  same state in fields, and each method is proved to have exactly its
  function's effect. The validation loop over `geosite.dat` and `geoip.dat`
  is a `while` loop with invariants.
- `lifecycle.dfy` (module `Lifecycle`) states what holds along every
  sequence of events. A click on a disabled control never reaches its slot,
  and a worker exit is reported only for a running worker.
- `storage.dfy` (module `Storage`) models the outside world. The file system
  is a map from each existing path to its parsed JSON document, plus the
  paths that fail to open, to be written, or to be flushed at close. `optional.dfy` holds `Option`.

Inputs stand in for the rest of the world. The disk, the system environment
and the clock (UTC milliseconds) are passed to each handler. So is whether
`QProcess::start` got the program running, and how the worker exits (time,
code, status, merged output). For a stop, the exit is `None` when the worker
outlives the wait.

Where the code differs from the launcher's design description, the model
follows the code:

- The run handler never refuses a start while a worker runs. Only the
  disabled run button prevents it (`RunHandlerDoesNotRefuseSecondStart`,
  `NewWorkerOnlyWhenNoneExists`).
- The config path is checked after the two resource files, not before them.
- The window enters the running state even when the program cannot be
  launched. Qt then never reports `finished()`, and the stop slot ignores a
  handle that is not running, so run stays disabled for good
  (`FailedLaunchKeepsRunDisabled`).
- Exit code and exit status are only logged. The 5-second rule alone decides
  whether the output is shown (`FinishedIgnoresExitCodeAndStatus`).
- `isSystemTrayClose` is never reset. This is harmless, because the flag is
  set only on the way out: whenever it is set the application has quit, and
  after that nothing reaches the window (`TrayCloseFlagIsNeverReset`,
  `TrayCloseFlagMeansQuit`, `NothingHappensAfterQuit`).
- A write that returns a short but non-negative count counts as success.
  Only a negative count is an error.
- The file is opened buffered, so the write only fills QFile's buffer. The
  bytes reach the disk when the file is closed, after `saveToDisk` has
  already returned true, and a failed flush there is never checked. Such a
  save reports success and leaves an empty file, which the next load rejects
  as invalid JSON (`UnseenFlushFailureLosesConfig`).
- `waitForFinished()` gives up after 30 seconds. A worker that ignores
  `terminate` that long is still running afterwards.

Three modelling choices need stating:

- `QDateTime::secsTo` divides milliseconds by 1000 and truncates. So "at
  most 5 seconds" means less than 6000 ms (`DiagnosticWindowInMilliseconds`).
- An empty output reads as a null string, and the slot does not show a null
  string. So the dialog needs non-empty output.
- Hiding the window also takes the focus from it. `show()` leaves the
  minimized and active flags as they were.


## Model

| member | source | states |
|---|---|---|
| `Config.LauncherConfig.constructor` | launcher_config.h:7-9 | a new configuration has all three paths empty |
| `Config.LauncherConfig.LoadFromDisk` | launcher_config.cpp:9-40 | fields, result and appended error are those of `Load` over the fields before the call |
| `Config.LauncherConfig.ToJson` | launcher_config.cpp:49-52 | the object has exactly the keys xray_path, data_path and config_path, all strings, and reading it back over any prior fields gives this configuration |
| `Config.LauncherConfig.SaveToDisk` | launcher_config.cpp:42-58 | result, disk and appended error are those of `Save`; a successful save of a readable file whose flush at close succeeds loads back as this configuration, whatever the fields were before the load, and one whose flush fails loads as invalid JSON |
| `Config.LoadSucceedsIffObjectOrMissing` | launcher_config.cpp:9-40 | load succeeds exactly when the file is missing, or it opens and holds a JSON object |
| `Config.LoadMissingFileIsFirstRun` | launcher_config.cpp:11-13 | a missing file loads successfully, appends no error and leaves the fields unchanged |
| `Config.LoadFailureKeepsFields` | launcher_config.cpp:14-25 | a failed load (open failure, null or non-object document) leaves every field unchanged and appends exactly one error naming the path; a successful load appends none |
| `Config.ReadPathsFieldByField` | launcher_config.cpp:27-38 | each field depends only on its own key; an absent or non-string key keeps the prior value |
| `Config.ReadPathsIgnoresUnknownKeys` | launcher_config.cpp:25-38 | keys other than the three do not affect the loaded fields |
| `Config.SaveWritesThreeKeys` | launcher_config.cpp:44-57 | save fails exactly when the open fails or the write reports a negative count, appending an error naming the path; on success the file exists, and unless the flush at close fails it holds exactly the three keys as strings, empty ones included, while after a failed flush it is empty |
| `Config.SaveTouchesOnlyItsFile` | launcher_config.cpp:44-45 | saving changes no other path and none of the failure sets |
| `Config.SaveLoadRoundTrip` | launcher_config.cpp:27-52 | the keys saved are the keys loaded: save then load of a readable file whose flush succeeded gives back every saved field, whatever the fields were before the load |
| `Config.UnseenFlushFailureLosesConfig` | launcher_config.cpp:44-57 | a save whose flush at close fails still returns true with no error, and the next load rejects the empty file as invalid JSON, keeping the prior fields |
| `Config.FailedWriteLeavesInvalidFile` | launcher_config.cpp:44-56 | a write that fails after a successful truncating open leaves a file that a later load rejects as invalid JSON, with fields unchanged |
| `Launcher.DiagnosticWindowInMilliseconds` | mainwindow.cpp:156 | `secsTo` (millisecond difference truncated to whole seconds) is at most 5 exactly when the exit came less than 6000 ms after the start |
| `Launcher.LastSeparator` | mainwindow.cpp:125-126 | the result is the position of the last '/', and when there is none, no position holds a '/' |
| `Launcher.FirstMissing` | mainwindow.cpp:110-118 | a reported file is missing and every file before it exists; no report means every file exists |
| `Launcher.StartCheck` | mainwindow.cpp:97-123 | a start is accepted exactly when the three paths are non-empty and both resource files exist under the data folder |
| `Launcher.StartCheckReportsFirstFailing` | mainwindow.cpp:98-123 | the reported error is that of the first failing check in the order xray path, data path, geosite.dat, geoip.dat, config path; with no failing check the start launches |
| `Launcher.ComplaintsAreDistinct` | mainwindow.cpp:100-121 | the five checks report five different messages |
| `Launcher.RejectedStartOnlyShowsMessage` | mainwindow.cpp:99-123 | a refused start only shows its message; the worker handle, start time, controls, configuration and window are unchanged |
| `Launcher.AcceptedStartLaunches` | mainwindow.cpp:108-144 | an accepted start has probed dataPath + "/" + each resource name. It launches xrayPath with exactly ["-confdir", configPath], with the working directory from cdUp, and with XRAY_LOCATION_ASSET = dataPath over the inherited environment. It records the start time and enters the running state whether or not the program started |
| `Launcher.WorkingDirectoryIsExistingParent` | mainwindow.cpp:125-126 | the working directory is the data folder's existing parent (the parent, '/' and a separator-free name spell the data folder again) or else the data folder itself |
| `Launcher.RunAndStopExclusive` | mainwindow.cpp:277-286 | changeRunningState(r) enables the stop button exactly when r and the run button exactly when not r, never both |
| `Launcher.FinishedShowsOutputOnlyEarly` | mainwindow.cpp:149-171 | on exit the handle becomes null and the window leaves the running state; the output is shown exactly when it is non-empty and the exit came under 6000 ms after the start |
| `Launcher.FinishedIgnoresExitCodeAndStatus` | mainwindow.cpp:164-167 | two exits at the same time with the same output have the same effect, whatever their exit code and status |
| `Launcher.ExitWindowExamples` | mainwindow.cpp:155-160 | with output: an exit at 3 s with code 0 shows it, one at 10 s with code 0 does not, a crash at 1 s shows it |
| `Launcher.KillOnlyStopsRunningWorker` | mainwindow.cpp:262-275 | a missing or not-running worker is left alone with nothing sent. A running one is sent kill on Windows and terminate elsewhere. It is gone if it exits during the wait, and unchanged if it outlives the wait |
| `Launcher.CloseSavesConfig` | mainwindow.cpp:314-316 | every close first saves the configuration as it was at the close |
| `Launcher.WindowCloseHidesAndKeepsWorker` | mainwindow.cpp:322-327 | without the tray flag a close is ignored and the window is hidden; worker, controls and configuration are untouched |
| `Launcher.TrayCloseStopsWorkerAndQuits` | mainwindow.cpp:317-321 | with the tray flag a close stops a running worker and is accepted, and the application quits |
| `Launcher.ExitAppQuits` | mainwindow.cpp:183-190 | the tray's exit action sets the flag, saves the unchanged configuration once, stops the worker and quits |
| `Launcher.ShowMainWindowPriority` | mainwindow.cpp:173-181 | a hidden window is shown, else a minimized one restored, else an inactive one activated; at most one flag changes, and the window is left alone exactly when it is visible, normal and active |
| `Launcher.ShowMainWindowThreeTimesForegrounds` | mainwindow.cpp:173-181 | three calls always leave the window shown, restored and active |
| `Launcher.TrayActivationShowsUnlessContext` | mainwindow.cpp:192-198 | a context-click activation changes nothing; every other reason only applies onShowMainWindow |
| `Launcher.StartupPathsFallBackToEmpty` | mainwindow.cpp:219-231 | the window starts with the file's string fields over empty paths, and with empty paths when the file is missing or fails to load |
| `Launcher.SilentModeStartsWithoutShowing` | mainwindow.cpp:44-51 | silent mode runs the start handler and leaves the window hidden; otherwise the window is shown and nothing starts |
| `Launcher.MainWindow.constructor` | mainwindow.cpp:13-40 | the new window uses applicationDir/launcher_config.json. It is hidden, with no worker, the controls in the not-running layout, and the configuration loaded at startup |
| `Launcher.MainWindow.LoadLauncherConfig` | mainwindow.cpp:219-231 | on a successful load the configuration becomes the loaded paths; on failure it is unchanged |
| `Launcher.MainWindow.SaveLauncherConfig` | mainwindow.cpp:233-239 | the disk afterwards is that of saving the current configuration; a failure is only logged |
| `Launcher.MainWindow.OnXrayPathChanged` | mainwindow.cpp:85-87 | only the xray path changes, to the edit's text |
| `Launcher.MainWindow.OnDataPathChanged` | mainwindow.cpp:89-91 | only the data path changes, to the edit's text |
| `Launcher.MainWindow.OnConfigPathChanged` | mainwindow.cpp:93-95 | only the config path changes, to the edit's text |
| `Launcher.MainWindow.ChangeRunningState` | mainwindow.cpp:277-286 | only the eight enable flags change, to the running or not-running layout |
| `Launcher.MainWindow.ValidateStart` | mainwindow.cpp:97-139 | the checks with their loop over the resource files decide exactly as `StartCheck` on the current configuration |
| `Launcher.MainWindow.OnRunBtnClicked` | mainwindow.cpp:97-145 | the new state is that of `RunClicked`: a refused start only adds its error message; an accepted one stores a handle with the launch parameters, Running exactly when the program launched, records the start time and switches to the running layout |
| `Launcher.MainWindow.OnStopBtnClicked` | mainwindow.cpp:147 | same effect and request as killXrayProcess |
| `Launcher.MainWindow.OnProcessFinished` | mainwindow.cpp:149-171 | the new state is that of `Finished`: no handle, the not-running layout, and the output shown only for an early exit with output |
| `Launcher.MainWindow.KillXrayProcess` | mainwindow.cpp:262-275 | the request sent and the new state are those of `TerminationFor` and `Killed`: only a running worker is asked to stop, and it is finished once it exits during the wait |
| `Launcher.MainWindow.OnShowMainWindow` | mainwindow.cpp:173-181 | only the visibility changes, as `ShowMainWindow` gives |
| `Launcher.MainWindow.OnSystemTrayActivated` | mainwindow.cpp:192-198 | the new state is that of `TrayActivated`: unchanged for a context click, otherwise onShowMainWindow's |
| `Launcher.MainWindow.CloseEvent` | mainwindow.cpp:314-328 | state, disk and acceptance are those of `CloseEventOutcome`: the configuration is saved, then with the tray flag the worker is killed and the close accepted, else the window is hidden and the close ignored |
| `Launcher.MainWindow.Close` | mainwindow.cpp:189 | an accepted close event also hides the window and quits the application |
| `Launcher.MainWindow.OnExitApp` | mainwindow.cpp:183-190 | state and disk are those of `ExitApp`: the flag is set, a hidden window shown, and the window closed |
| `Launcher.MainWindow.RunMain` | mainwindow.cpp:44-51 | the new state is that of `RunMainOutcome`: silent mode runs the start handler, otherwise the window is shown |
| `Lifecycle.StepKeepsControlsFollowWorker` | mainwindow.cpp:277-286 | every handler keeps the controls in the running layout exactly while a worker handle exists |
| `Lifecycle.RunKeepsControlsFollowWorker` | mainwindow.cpp:144 | the same holds after any sequence of events |
| `Lifecycle.RunAndStopNeverBothEnabled` | mainwindow.cpp:44-51 | from startup on, after `runMain` in silent or normal mode and any events, run and stop are never enabled together, and run is enabled only with no worker handle |
| `Lifecycle.NewWorkerOnlyWhenNoneExists` | mainwindow.cpp:284 | a worker handle is only ever created where there was none |
| `Lifecycle.RunHandlerDoesNotRefuseSecondStart` | mainwindow.cpp:131-144 | called while a worker runs, the run handler replaces its handle and start time |
| `Lifecycle.FailedLaunchKeepsRunDisabled` | mainwindow.cpp:143-144 | after a start whose program did not launch, the handle stays and the run button and path controls stay disabled whatever follows |
| `Lifecycle.TrayCloseFlagIsNeverReset` | mainwindow.cpp:184 | once set, the tray-close flag stays set |
| `Lifecycle.TrayCloseFlagMeansQuit` | mainwindow.cpp:183-190 | in every state reached from startup, a set tray-close flag means the application has quit |
| `Lifecycle.NothingHappensAfterQuit` | mainwindow.cpp:320 | after the application quits, no event changes anything |
| `Lifecycle.OnlyTrayExitSetsCloseFlag` | mainwindow.cpp:183-184 | no event but the tray's exit action sets the tray-close flag |
| `Lifecycle.OnlyEditsChangeConfig` | mainwindow.cpp:85-95 | only the three path-edit handlers change the configuration |

## Left out

- The file-picker slots `onSelectXrayPathBtnClicked`, `onSelectDataPathBtnClicked` and `onSelectConfigPathBtnClicked` are left out. They are dialogs whose chosen path reaches the model through the edit's change handler.
- Dialog rendering (`showErrorMessage`, `showErrorLogDialog`, `onShowAboutDialog`, about_dialog.cpp, error_log_dialog.cpp) is recorded as a notice in the order shown. The nested event loop of a modal dialog is not modelled.
- Autostart (`isAutoRunSetting`, `setAutoRun`, `onAutoRunChanged`) is left out. It is a Windows-only registry wrapper. The value it writes is `"<exe>" --silent`.
- Command-line parsing in main.cpp is a thin `QCommandLineParser` wrapper and is left out. Only its result, the silent flag, enters `RunMain`.
- Tray icon and menu construction (`initSystemTray`) and the signal/slot wiring are event-loop plumbing. The `Lifecycle` events stand in for them.
- `qDebug` logging is left out, including the exit code and status and load/save failures at startup.
- JSON text parsing and serialisation are not modelled. A file holds its parsed document, and the save/load round trip assumes Qt reads back what it wrote. A flush that writes only part of the buffer is modelled as a failed flush that leaves the file empty, not as a partly written file.
- Process spawning, signal delivery and blocking are inputs. QProcess's transient `Starting` state is not modelled, so `launched` says directly whether the program runs.
- Path normalisation is not modelled. That covers doubled or trailing separators, `..` segments and native separators. Paths are compared as plain strings, and the parent of a bare relative name is taken to be `.`.
- `Launcher.MainWindow.constructor` and `Lifecycle.RunAndStopNeverBothEnabled` assume the window starts in the layout that `changeRunningState(false)` produces. That layout comes from the designer form `mainwindow.ui`, which is not part of this model. If the form leaves the stop button enabled, the startup half of that lemma does not hold until the first `changeRunningState` call.
- Qt's quit-on-last-window-closed default is not modelled. In the model `quit` is set only by an accepted close of the main window, which only the tray's exit action brings about. In Qt, closing a dialog while the main window is hidden or was never shown may also end the application. Silent mode followed by the output dialog of a worker that died early is one such case.
