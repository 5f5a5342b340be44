# LIMS demo main controller, modelled in Dafny

The LIMS demo is a desktop front end that drives a laboratory instrument through a
remote automation library: load the library, log in, reserve the instrument, open
and close its door, read and toggle the container sensor, abort a run, query stored
objects and export experiments. Its `MainController` is the command layer between
the main window and the connection to the instrument. This project models that
controller:

- **Capability projection.** `UpdateControls` recomputes every control's enabled
  flag from scratch out of three endpoint booleans: library loaded, connected,
  reserved. `Capabilities.Project` is that rule as a function. Its contract ties
  every control to an independent gate table (`GateOf`, `Admits`).
  `MainController.UpdateControls` is proved to set the window's flags to exactly
  `Project(...)` of the endpoint's current state.
- **Command protocol.** A command calls the endpoint at most once; ToggleSensor
  calls it at most twice. It then reports the outcome in the message box, and most
  commands resynchronise the controls. The exceptions:
  - `ClearQueryParameters` never calls the endpoint.
  - `Login` and `Query` do nothing without a window.
  - A cancelled `ExportExperiment` makes no call.
  - `Logout` writes nothing when it fails.
  - `ReleaseLibrary` reports success whatever the endpoint answered.
  - The barcode, sensor and status reads, and `ToggleSensor`, append a
    "Failed to ..." line before showing the last diagnostic.
  - The reads, the experiment commands and `Query` report the value returned, not
    only a fixed message.
  - The experiment commands, `ExportExperiment` and `Query` leave the controls alone.

  Every command's contract states:
  - the exact calls made, with their arguments;
  - the endpoint state it ends in;
  - the exact text of the message box afterwards;
  - whether the controls are synchronised.
  Its `modifies` clause states which window fields it may touch.
- **Message log.** `Display(m, clear)` replaces the box with `m` + CR LF, or appends
  that. It does nothing when no window is attached. `MessageLog.Render` gives the
  text of a box holding a list of messages. `MessageLog.SplitLines` reads the
  messages back: it inverts `Render` whenever no message contains a CR LF of its own.

The endpoint (`LIMSConnection` over the COM library) is not part of this model.
`Endpoint.LimsConnection` stands in for it. Each call is answered by an
`Endpoint.Reply` that the caller passes in. The reply fixes:
- whether the call succeeded;
- the value of its out-parameter;
- the endpoint's state afterwards: the three booleans and the last diagnostic.

The stand-in records every call in a ghost `trace`. No transition of the real
endpoint is assumed. The lifecycle order "connected implies loaded, reserved
implies connected" (`Capabilities.Coherent`) appears only as an explicit hypothesis
of two lemmas about the projection.

Other inputs the source takes from its environment are also parameters:
- the file chooser's answer to `ExportExperiment` is an `Option<string>` (`None` is
  Cancel);
- the culture-dependent rendering of a `DateTime` in query lines is a function
  `showTime`.

`MainController.ExperimentName` models the `ExperimentName` property. It returns
the experiment field of the window, or the empty string without one. The commands
that use it state their calls in terms of it.

Modules: `Wrappers` (Option), `MessageLog`, `Endpoint`, `Capabilities`,
`Controller` (the window and the controller classes), and `Scenarios`. `Scenarios`
holds client walks through the lifecycle, a release, a failing login, a failing
logout and a cancelled export.
They use only the commands' contracts.

## Model

| member | source | states |
|---|---|---|
| `Capabilities.Project` | LIMSDemo/MainController.cs:309-341 | every control is enabled exactly when its gate admits the state: Acquire iff not loaded; Release, Connect and the credential fields iff loaded and not connected; Disconnect, Reserve, Unreserve, all query and experiment controls iff connected; door, status, barcode, sensor and run controls iff reserved |
| `Capabilities.OneLifecycleControl` | LIMSDemo/MainController.cs:309-315 | when the endpoint keeps the lifecycle order, exactly one of Acquire, Connect/Release and Disconnect is offered |
| `Capabilities.GatesNest` | LIMSDemo/MainController.cs:315-341 | when the endpoint keeps the lifecycle order, an enabled instrument control implies the session controls are enabled, and those imply Acquire is disabled |
| `Capabilities.InitialProjection` | LIMSDemo/MainController.cs:309-341 | with nothing loaded, Acquire is the only enabled control |
| `Controller.MainController.UpdateControls` | LIMSDemo/MainController.cs:301-342 | with a window, its flags become exactly `Project(loaded, connected, reserved)` of the endpoint, whatever they were; only the flags change; without a window nothing changes |
| `Controller.MainController.SetView` | LIMSDemo/MainController.cs:352-360 | the window is attached (or detached) and its controls are synchronised with the endpoint |
| `Controller.MainController.constructor` | LIMSDemo/MainController.cs:9-11 | a new controller has an empty export file name, no window and a fresh endpoint that has received no call |
| `Controller.MainController.Display` | LIMSDemo/MainController.cs:53-66 | with `clear` the box becomes the message and CR LF; otherwise that is appended to the old text; without a window nothing changes |
| `Controller.MainController.DisplayLastStatus` | LIMSDemo/MainController.cs:68-72 | when the endpoint has a last result the box becomes its message line and its user-message line; otherwise the box is unchanged |
| `MessageLog.RenderAppend` | LIMSDemo/MainController.cs:58-66 | appending messages one after another gives the text of all of them in order |
| `MessageLog.SplitRender` | LIMSDemo/MainController.cs:58-66 | the messages written can be read back, one per line, in order, when none contains a line break |
| `Controller.FailedReadShowsDiagnostic` | LIMSDemo/MainController.cs:138-142 | in a failed read, a diagnostic overwrites the "Failed to ..." line just appended, whatever the box held before |
| `Controller.FailedReadKeepsFailure` | LIMSDemo/MainController.cs:138-142 | in a failed read without a diagnostic, the box reads back as the lines it held followed by the failure line |
| `Controller.MainController.AbortRun` | LIMSDemo/MainController.cs:13-21 | one AbortExperiment call; "Experiment aborted." on success, the last diagnostic on failure; controls synchronised |
| `Controller.MainController.AcquireLibrary` | LIMSDemo/MainController.cs:23-31 | one LoadLibrary call; "COM Object Loaded." on success, the last diagnostic on failure; controls synchronised |
| `Controller.MainController.ClearQueryParameters` | LIMSDemo/MainController.cs:33-41 | name, owner and type become empty and All is checked, so the next query filters on all dates; no other input and no endpoint call; without a window nothing changes |
| `Controller.MainController.CloseDoor` | LIMSDemo/MainController.cs:43-51 | one CloseDoor call; "Door closed." on success, the last diagnostic on failure; controls synchronised |
| `Controller.MainController.ExperimentStatus` | LIMSDemo/MainController.cs:74-84 | one GetExperimentStatus call with the window's experiment name; on success the box is "Experiment Status:" then the status; on failure the last diagnostic; controls untouched |
| `Controller.MainController.ExperimentSummary` | LIMSDemo/MainController.cs:86-96 | one GetExperimentSummary call with the window's experiment name; on success the box is "Experiment Summary:" then the summary; on failure the last diagnostic; controls untouched |
| `Controller.MainController.ExportExperiment` | LIMSDemo/MainController.cs:98-130 | a cancelled chooser makes no endpoint call, keeps the export file name and leaves exactly "Export cancelled."; a chosen path is stored before the single ExportExperiment call, and success reports the path; controls never touched |
| `Controller.MainController.GetContainerBarcode` | LIMSDemo/MainController.cs:132-145 | one GetContainerBarcode call; success shows the barcode; failure appends the failure line then shows the last diagnostic; controls synchronised |
| `Controller.MainController.GetSensor` | LIMSDemo/MainController.cs:147-160 | one GetContainerSensor call; success shows ON or OFF; failure appends the failure line then shows the last diagnostic; controls synchronised |
| `Controller.MainController.GetStatus` | LIMSDemo/MainController.cs:162-175 | one GetStatus call; success shows the status message; failure appends the failure line then shows the last diagnostic; controls synchronised |
| `Controller.MainController.Login` | LIMSDemo/MainController.cs:177-187 | without a window no endpoint call and no change; otherwise one Connect call with the window's host name, user name and password, "Logged in." or the last diagnostic, controls synchronised |
| `Controller.MainController.Logout` | LIMSDemo/MainController.cs:189-193 | one Disconnect call; "Logged out." only on success, the box untouched on failure; controls synchronised either way |
| `Controller.MainController.OpenDoor` | LIMSDemo/MainController.cs:195-203 | one OpenDoor call; "Door opened." on success, the last diagnostic on failure; controls synchronised |
| `Controller.DateTypeOf` | LIMSDemo/MainController.cs:213-226 | the date filter is All iff the All radio is checked, CreationDate iff not All and Created is checked, ModificationDate otherwise |
| `Controller.MainController.Query` | LIMSDemo/MainController.cs:205-249 | without a window no endpoint call; otherwise one ExecuteQuery call with the window's name, type, owner, the selected date filter and the range MinValue..MaxValue; on success "Query Successful." followed by one line per record in the order returned; on failure the last diagnostic; controls untouched |
| `Controller.MainController.DisplayQueryResults` | LIMSDemo/MainController.cs:241-245 | the box becomes "Query Successful." followed by exactly the lines of the records, in order |
| `Controller.MainController.ExperimentName` | LIMSDemo/MainController.cs:344-350 | the experiment name typed in the window's experiment field, or the empty string when no window is attached |
| `Controller.Window.QueryRequest` | LIMSDemo/MainController.cs:209-239 | a query sends the window's name, type and owner fields, the date range MinValue..MaxValue, and the All filter iff All is checked, the Created filter iff All is not and Created is |
| `Controller.FormatRecord` | LIMSDemo/MainController.cs:244-245 | a record line starts with the name label and the record's name, and its length is the 49 characters of the fixed labels plus the name, path, type and the two rendered timestamps |
| `Controller.FormatRecordNoBreak` | LIMSDemo/MainController.cs:244-245 | a record line has no line break of its own when none of its fields has one, so each record takes exactly one line of the box |
| `Controller.QueryLines` | LIMSDemo/MainController.cs:243-245 | one line per record, the i-th line formatting the i-th record |
| `Controller.QueryLinesExtend` | LIMSDemo/MainController.cs:243-245 | appending the next record's line to the lines so far gives the lines of one more record |
| `Controller.QueryTranscript` | LIMSDemo/MainController.cs:241-245 | after a successful query the box reads back as exactly 1 + n lines: the summary, then the n record lines in order |
| `Controller.MainController.ReleaseLibrary` | LIMSDemo/MainController.cs:251-256 | one UnloadLibrary call; "COM object released." whatever the endpoint answered; controls synchronised |
| `Controller.MainController.ReserveInstrument` | LIMSDemo/MainController.cs:258-266 | one ReserveInstrument call; "Instrument reserved." on success, the last diagnostic on failure; controls synchronised |
| `Controller.MainController.ToggleSensor` | LIMSDemo/MainController.cs:268-289 | a failed read makes no SetContainerSensor call and reports the read failure; a read of v is followed by exactly one SetContainerSensor(!v); controls synchronised on every path |
| `Controller.MainController.UnreserveInstrument` | LIMSDemo/MainController.cs:291-299 | one UnreserveInstrument call; "Instrument released." on success, the last diagnostic on failure; controls synchronised |
| `Endpoint.LimsConnection.Invoke` | LIMSDemo/MainController.cs:10 | the endpoint records the call and takes the success flag, value and state given by the reply; nothing about its internal transitions is assumed |

## Left out

- The LIMS connection and the COM library behind it are not part of this model.
  Their answers are inputs (`Endpoint.Reply`). Their internal transitions are not
  modelled. These include the cascades "unloading clears connected and reserved"
  and "disconnecting clears reserved".
- The initial directory of the export chooser is left out. It comes from
  `Path.GetDirectoryName` of the last file name, or from an environment variable.
  The `OpenFileDialog` itself is left out too; only its answer is modelled.
- `DateTime` values are ticks. Their textual form in query lines is the parameter
  `showTime`.
- WPF widgets are flattened to plain fields. The controls' `IsEnabled` properties
  are one record field. A radio button's `IsChecked ?? false` is a boolean.
- WPF's radio-group behaviour is not modelled: the group unchecks the other radio
  buttons when All is checked. Query reads only the All and Created radios, and All
  takes precedence, so the date filter after `ClearQueryParameters` is All either
  way.
- The `View` getter and the `IMainController` interface declaration are not
  modelled. Neither has behaviour.
- Threading and responsiveness are left out. The controller is single-threaded and
  every endpoint call is synchronous.
- `FormatRecord`: its contract fixes only the leading label, the name after it and
  the line's length. The positions of the path, type and timestamps are given by its
  body alone, because a positional contract for each field adds no property beyond
  the format string itself.
