/** The main controller of the LIMS demo: the command layer between the main window
    and the LIMS connection. A command calls the endpoint at most once (ToggleSensor
    at most twice), reports the outcome in the message box, and most then recompute
    the enabled flags of the window's controls from the endpoint's state. Each
    command's contract states its exceptions to this pattern. */
module Controller {
  import opened Wrappers
  import opened MessageLog
  import Endpoint
  import Capabilities

  /** The date filter a query uses, read from the three radio buttons: All wins,
      then Created; when neither is checked the query filters on modification date. */
  function DateTypeOf(allChecked: bool, createdChecked: bool): (t: Endpoint.DateType)
    ensures t == Endpoint.AllDateQuery <==> allChecked
    ensures t == Endpoint.CreationDateQuery <==> !allChecked && createdChecked
    ensures t == Endpoint.ModificationDateQuery <==> !allChecked && !createdChecked
  {
    if allChecked then Endpoint.AllDateQuery
    else if createdChecked then Endpoint.CreationDateQuery
    else Endpoint.ModificationDateQuery
  }

  /** The message box after the last diagnostic has been shown: when the endpoint
      has one, the box is replaced by its two lines; otherwise it is left alone. */
  function WithLastStatus(log: string, last: Option<Endpoint.Diagnostic>): string
  {
    match last
    case Some(d) => Render([d.message, d.userMessage])
    case None => log
  }

  /** The message box after a command that shows `success` when the call succeeded
      and the last diagnostic when it failed. */
  function Reported(log: string, ok: bool, success: string, last: Option<Endpoint.Diagnostic>): string
  {
    if ok then Render([success]) else WithLastStatus(log, last)
  }

  /** The message box after a read that failed: its failure line is appended, then
      the last diagnostic is shown. */
  function FailedRead(log: string, failure: string, last: Option<Endpoint.Diagnostic>): string
  {
    WithLastStatus(log + Render([failure]), last)
  }

  /** One line of a query result. How a timestamp is written (`showTime`) depends on
      the culture settings of the machine and is left open. */
  function FormatRecord(r: Endpoint.QueryRecord, showTime: Endpoint.Timestamp -> string): (line: string)
    ensures |line| == 49 + |r.name| + |r.path| + |r.objectType| + |showTime(r.created)| + |showTime(r.modified)|
    ensures line[..9] == "  Name: '" && line[9..9 + |r.name|] == r.name
  {
    "  Name: '" + r.name + "' Path: '" + r.path + "' Type: '" + r.objectType
      + "' Created: " + showTime(r.created) + " Modified: " + showTime(r.modified)
  }

  /** The lines written for a query result: one per record, in the order returned. */
  function QueryLines(results: seq<Endpoint.QueryRecord>, showTime: Endpoint.Timestamp -> string): (lines: seq<string>)
    ensures |lines| == |results|
    ensures forall i :: 0 <= i < |results| ==> lines[i] == FormatRecord(results[i], showTime)
  {
    if results == [] then []
    else QueryLines(results[..|results| - 1], showTime) + [FormatRecord(results[|results| - 1], showTime)]
  }

  /** Writing the line of one more record after a message-box text that already
      holds the lines of the records before it gives the lines up to that record. */
  lemma QueryLinesExtend(log: string, results: seq<Endpoint.QueryRecord>, i: nat, showTime: Endpoint.Timestamp -> string)
    requires i < |results|
    ensures log + Render(QueryLines(results[..i], showTime)) + Render([FormatRecord(results[i], showTime)])
         == log + Render(QueryLines(results[..i + 1], showTime))
  {
    assert results[..i + 1][..i] == results[..i];
    RenderAppend(QueryLines(results[..i], showTime), [FormatRecord(results[i], showTime)]);
  }

  /** A failed read whose endpoint has a diagnostic ends with the diagnostic alone,
      whatever the box held: the failure line written just before it is overwritten. */
  lemma FailedReadShowsDiagnostic(log: string, failure: string, d: Endpoint.Diagnostic)
    ensures FailedRead(log, failure, Some(d)) == Render([d.message, d.userMessage])
  {
  }

  /** A failed read without a diagnostic keeps its failure line, as the last line of
      the box, after the lines that were there. */
  lemma FailedReadKeepsFailure(shown: seq<string>, failure: string)
    requires forall i :: 0 <= i < |shown| ==> NoBreak(shown[i])
    requires NoBreak(failure)
    ensures SplitLines(FailedRead(Render(shown), failure, None)) == shown + [failure]
  {
    var lines := shown + [failure];
    forall i | 0 <= i < |lines| ensures NoBreak(lines[i]) {
      if i < |shown| { assert lines[i] == shown[i]; }
    }
    RenderAppend(shown, [failure]);
    SplitRender(lines);
  }

  /** A record line contains no line break as long as the record's texts and the
      rendered timestamps contain none: the fixed labels between them cannot join
      a CR at the end of one field to an LF at the start of the next. */
  lemma FormatRecordNoBreak(r: Endpoint.QueryRecord, showTime: Endpoint.Timestamp -> string)
    requires NoBreak(r.name) && NoBreak(r.path) && NoBreak(r.objectType)
    requires NoBreak(showTime(r.created)) && NoBreak(showTime(r.modified))
    ensures NoBreak(FormatRecord(r, showTime))
  {
    var label0, label1, label2, label3, label4 := "  Name: '", "' Path: '", "' Type: '", "' Created: ", " Modified: ";
    assert Label(label0);
    assert Label(label1);
    assert Label(label2);
    assert Label(label3);
    assert Label(label4);
    NoBreakAround([], label0, r.name);
    NoBreakAround(label0 + r.name, label1, r.path);
    NoBreakAround(label0 + r.name + label1 + r.path, label2, r.objectType);
    NoBreakAround(label0 + r.name + label1 + r.path + label2 + r.objectType, label3, showTime(r.created));
    NoBreakAround(label0 + r.name + label1 + r.path + label2 + r.objectType + label3 + showTime(r.created),
      label4, showTime(r.modified));
    assert [] + label0 + r.name == label0 + r.name;
  }

  /** After a successful query whose lines contain no line breaks of their own, the
      message box holds exactly one summary line followed by one line per record, in
      the order the endpoint returned them. */
  lemma QueryTranscript(results: seq<Endpoint.QueryRecord>, showTime: Endpoint.Timestamp -> string)
    requires forall i :: 0 <= i < |results| ==> NoBreak(FormatRecord(results[i], showTime))
    ensures var lines := SplitLines(Render(["Query Successful."]) + Render(QueryLines(results, showTime)));
      |lines| == 1 + |results| && lines[0] == "Query Successful." &&
      forall i :: 0 <= i < |results| ==> lines[i + 1] == FormatRecord(results[i], showTime)
  {
    var lines := ["Query Successful."] + QueryLines(results, showTime);
    RenderAppend(["Query Successful."], QueryLines(results, showTime));
    forall i | 0 <= i < |lines| ensures NoBreak(lines[i]) {
      if i > 0 {
        assert lines[i] == FormatRecord(results[i - 1], showTime);
      }
    }
    SplitRender(lines);
  }

  /** What the controller reads from the window's input widgets. */
  datatype InputValues = InputValues(
    hostname: string, username: string, password: string,
    queryName: string, queryOwner: string, queryType: string,
    dateAllChecked: bool, dateCreatedChecked: bool, dateModifiedChecked: bool,
    experimentName: string)

  /** The main window, flattened to the state the controller reads and writes: the
      message box, the input fields, the date radio buttons and one enabled flag per
      control. */
  class Window {
    var messages: string
    var hostname: string
    var username: string
    var password: string
    var queryName: string
    var queryOwner: string
    var queryType: string
    var dateAllChecked: bool
    var dateCreatedChecked: bool
    var dateModifiedChecked: bool
    var experimentName: string

    var enabled: Capabilities.Controls

    /** A window to attach in client code: every text empty, All checked and every
        flag set, so that attaching it shows what the controller itself recomputes. */
    constructor ()
      ensures messages == "" && Inputs() == InputValues("", "", "", "", "", "", true, false, false, "")
      ensures forall k :: enabled.Get(k)
    {
      messages, hostname, username, password := "", "", "", "";
      queryName, queryOwner, queryType, experimentName := "", "", "", "";
      dateAllChecked, dateCreatedChecked, dateModifiedChecked := true, false, false;
      enabled := Capabilities.Controls(
        true, true, true, true, true, true, true, true, true, true,
        true, true, true, true, true, true, true, true, true, true,
        true, true, true, true, true, true, true, true, true);
    }

    function Inputs(): InputValues
      reads this
    {
      InputValues(hostname, username, password, queryName, queryOwner, queryType,
             dateAllChecked, dateCreatedChecked, dateModifiedChecked, experimentName)
    }

    /** The parameters a query issued from this window sends: the three text fields,
        the selected date filter, and the widest date range. */
    function QueryRequest(): (p: Endpoint.QueryParameters)
      reads this
      ensures p.name == queryName && p.objectType == queryType && p.owner == queryOwner
      ensures p.dateType == Endpoint.AllDateQuery <==> dateAllChecked
      ensures p.dateType == Endpoint.CreationDateQuery <==> !dateAllChecked && dateCreatedChecked
      ensures p.dateFrom == Endpoint.MinValue && p.dateTo == Endpoint.MaxValue
    {
      Endpoint.QueryParameters(queryName, queryType, queryOwner,
        DateTypeOf(dateAllChecked, dateCreatedChecked), Endpoint.MinValue, Endpoint.MaxValue)
    }
  }

  class MainController {
    var exportFileName: string
    const lims: Endpoint.LimsConnection
    var view: Window?

    constructor (initial: Endpoint.EndpointState)
      ensures exportFileName == "" && view == null
      ensures fresh(lims) && lims.State() == initial && lims.trace == []
    {
      exportFileName := "";
      lims := new Endpoint.LimsConnection(initial);
      view := null;
    }

    /** The experiment name typed in the window, or the empty string without one. */
    function ExperimentName(): (name: string)
      reads this, view
      ensures view != null ==> name == view.Inputs().experimentName
      ensures view == null ==> name == ""
    {
      if view == null then "" else view.experimentName
    }

    /** The attached window, as a frame: empty when there is none. */
    function Attached(): set<Window>
      reads this
    {
      if view == null then {} else {view}
    }

    /** The window's enabled flags are the projection of the endpoint's state. */
    predicate Synced()
      reads this, view, lims
    {
      view != null ==>
        view.enabled == Capabilities.Project(lims.isLibraryLoaded, lims.isConnected, lims.isReserved)
    }

    /** The endpoint received exactly `call` and answered with `reply`. */
    twostate predicate Answered<T>(call: Endpoint.Call, reply: Endpoint.Reply<T>)
      reads this, lims
    {
      lims.trace == old(lims.trace) + [call] && lims.State() == reply.after
    }

    /** Writes one message: replacing the box when `clear`, appending otherwise.
        Without a window nothing happens. */
    method Display(message: string, clear: bool)
      modifies Attached()`messages
      ensures view != null ==> view.messages == (if clear then "" else old(view.messages)) + Render([message])
    {
      if view == null { return; }
      if clear {
        view.messages := message + NewLine;
      } else {
        view.messages := view.messages + message + NewLine;
      }
    }

    /** Shows the endpoint's last diagnostic, message then user message, if it has one. */
    method DisplayLastStatus()
      modifies Attached()`messages
      ensures view != null ==> view.messages == WithLastStatus(old(view.messages), lims.lastResult)
    {
      if lims.HasLastResult() {
        var d := lims.lastResult.value;
        Display(d.message + NewLine + d.userMessage, true);
        RenderAppend([d.message], [d.userMessage]);
        assert [d.message] + [d.userMessage] == [d.message, d.userMessage];
      }
    }

    /** Recomputes every enabled flag from the endpoint's three booleans. */
    method UpdateControls()
      modifies Attached()`enabled
      ensures Synced()
    {
      if view == null { return; }
      var loaded := lims.isLibraryLoaded;
      var connected := lims.isConnected;
      var reserved := lims.isReserved;

      view.enabled := Capabilities.Controls(
        acquire := !loaded,
        release := loaded && !connected,
        hostname := loaded && !connected,
        username := loaded && !connected,
        password := loaded && !connected,
        connect := loaded && !connected,
        disconnect := connected,

        reserve := connected,
        unreserve := connected,

        openDoor := reserved,
        closeDoor := reserved,
        status := reserved,
        containerBarcode := reserved,
        getSensor := reserved,
        toggleSensor := reserved,
        startRun := reserved,
        abortRun := reserved,

        queryName := connected,
        queryType := connected,
        queryOwner := connected,
        queryDateAll := connected,
        queryDateModified := connected,
        queryDateCreated := connected,
        queryClear := connected,
        executeQuery := connected,

        experimentName := connected,
        experimentStatus := connected,
        experimentSummary := connected,
        experimentExport := connected);
    }

    /** Attaches a window (or detaches with null) and synchronises its controls. */
    method SetView(w: Window?)
      modifies this`view, (if w == null then {} else {w})`enabled
      ensures view == w && Synced()
    {
      view := w;
      UpdateControls();
    }

    method AbortRun(reply: Endpoint.Reply<()>)
      modifies lims, Attached()`messages, Attached()`enabled
      ensures Answered(Endpoint.AbortExperiment, reply)
      ensures view != null ==>
        view.messages == Reported(old(view.messages), reply.ok, "Experiment aborted.", reply.after.lastResult)
      ensures Synced()
    {
      var ok, _ := lims.Invoke(Endpoint.AbortExperiment, reply);
      if ok {
        Display("Experiment aborted.", true);
      } else {
        DisplayLastStatus();
      }
      UpdateControls();
    }

    method AcquireLibrary(reply: Endpoint.Reply<()>)
      modifies lims, Attached()`messages, Attached()`enabled
      ensures Answered(Endpoint.LoadLibrary, reply)
      ensures view != null ==>
        view.messages == Reported(old(view.messages), reply.ok, "COM Object Loaded.", reply.after.lastResult)
      ensures Synced()
    {
      var ok, _ := lims.Invoke(Endpoint.LoadLibrary, reply);
      if ok {
        Display("COM Object Loaded.", true);
      } else {
        DisplayLastStatus();
      }
      UpdateControls();
    }

    /** Empties the query fields and selects "All dates". Without a window nothing happens. */
    method ClearQueryParameters()
      modifies Attached()`queryName, Attached()`queryOwner, Attached()`queryType, Attached()`dateAllChecked
      ensures view != null ==>
        view.Inputs() == old(view.Inputs()).(queryName := "", queryOwner := "", queryType := "",
                                             dateAllChecked := true)
      ensures view != null ==> view.QueryRequest().dateType == Endpoint.AllDateQuery
    {
      if view == null { return; }

      view.queryName := "";
      view.queryOwner := "";
      view.queryType := "";
      view.dateAllChecked := true;
    }

    method CloseDoor(reply: Endpoint.Reply<()>)
      modifies lims, Attached()`messages, Attached()`enabled
      ensures Answered(Endpoint.CloseDoor, reply)
      ensures view != null ==>
        view.messages == Reported(old(view.messages), reply.ok, "Door closed.", reply.after.lastResult)
      ensures Synced()
    {
      var ok, _ := lims.Invoke(Endpoint.CloseDoor, reply);
      if ok {
        Display("Door closed.", true);
      } else {
        DisplayLastStatus();
      }
      UpdateControls();
    }

    /** Shows the status of the named experiment; the controls are not resynchronised. */
    method ExperimentStatus(reply: Endpoint.Reply<string>)
      modifies lims, Attached()`messages
      ensures Answered(Endpoint.GetExperimentStatus(old(ExperimentName())), reply)
      ensures view != null ==> (view.messages ==
        if reply.ok then Render(["Experiment Status:", reply.value])
        else WithLastStatus(old(view.messages), reply.after.lastResult))
    {
      var ok, status := lims.Invoke(Endpoint.GetExperimentStatus(ExperimentName()), reply);
      if ok {
        Display("Experiment Status:", true);
        Display(status, false);
        RenderAppend(["Experiment Status:"], [status]);
      } else {
        DisplayLastStatus();
      }
    }

    /** Shows the summary of the named experiment; the controls are not resynchronised. */
    method ExperimentSummary(reply: Endpoint.Reply<string>)
      modifies lims, Attached()`messages
      ensures Answered(Endpoint.GetExperimentSummary(old(ExperimentName())), reply)
      ensures view != null ==> (view.messages ==
        if reply.ok then Render(["Experiment Summary:", reply.value])
        else WithLastStatus(old(view.messages), reply.after.lastResult))
    {
      var ok, summary := lims.Invoke(Endpoint.GetExperimentSummary(ExperimentName()), reply);
      if ok {
        Display("Experiment Summary:", true);
        Display(summary, false);
        RenderAppend(["Experiment Summary:"], [summary]);
      } else {
        DisplayLastStatus();
      }
    }

    /** Exports the named experiment to a file the user chooses (`choice`, None when
        the chooser is cancelled). A cancelled choice calls nothing and keeps the
        remembered file name; the controls are never resynchronised. */
    method ExportExperiment(choice: Option<string>, reply: Endpoint.Reply<()>)
      modifies this`exportFileName, lims, Attached()`messages
      ensures choice.None? ==>
        && exportFileName == old(exportFileName)
        && unchanged(lims)
        && (view != null ==> view.messages == Render(["Export cancelled."]))
      ensures choice.Some? ==>
        && exportFileName == choice.value
        && Answered(Endpoint.ExportExperiment(old(ExperimentName()), choice.value), reply)
        && (view != null ==>
              view.messages == Reported(old(view.messages), reply.ok,
                                        "Experiment exported to " + choice.value, reply.after.lastResult))
    {
      if choice.Some? {
        exportFileName := choice.value;
        var ok, _ := lims.Invoke(Endpoint.ExportExperiment(ExperimentName(), exportFileName), reply);
        if ok {
          Display("Experiment exported to " + exportFileName, true);
        } else {
          DisplayLastStatus();
        }
      } else {
        Display("Export cancelled.", true);
      }
    }

    method GetContainerBarcode(reply: Endpoint.Reply<string>)
      modifies lims, Attached()`messages, Attached()`enabled
      ensures Answered(Endpoint.GetContainerBarcode, reply)
      ensures view != null ==> (view.messages ==
        if reply.ok then Render(["Container Barcode: " + reply.value])
        else FailedRead(old(view.messages), "Failed to obtain container barcode.", reply.after.lastResult))
      ensures Synced()
    {
      var ok, barcode := lims.Invoke(Endpoint.GetContainerBarcode, reply);
      if ok {
        Display("Container Barcode: " + barcode, true);
      } else {
        Display("Failed to obtain container barcode.", false);
        DisplayLastStatus();
      }
      UpdateControls();
    }

    method GetSensor(reply: Endpoint.Reply<bool>)
      modifies lims, Attached()`messages, Attached()`enabled
      ensures Answered(Endpoint.GetContainerSensor, reply)
      ensures view != null ==> (view.messages ==
        if reply.ok then Render(["Container sensor: " + (if reply.value then "ON" else "OFF")])
        else FailedRead(old(view.messages), "Failed to obtain sensor value.", reply.after.lastResult))
      ensures Synced()
    {
      var ok, sensor := lims.Invoke(Endpoint.GetContainerSensor, reply);
      if ok {
        Display("Container sensor: " + (if sensor then "ON" else "OFF"), true);
      } else {
        Display("Failed to obtain sensor value.", false);
        DisplayLastStatus();
      }
      UpdateControls();
    }

    method GetStatus(reply: Endpoint.Reply<string>)
      modifies lims, Attached()`messages, Attached()`enabled
      ensures Answered(Endpoint.GetStatus, reply)
      ensures view != null ==> (view.messages ==
        if reply.ok then Render(["Status message: " + reply.value])
        else FailedRead(old(view.messages), "Failed to obtain status message.", reply.after.lastResult))
      ensures Synced()
    {
      var ok, status := lims.Invoke(Endpoint.GetStatus, reply);
      if ok {
        Display("Status message: " + status, true);
      } else {
        Display("Failed to obtain status message.", false);
        DisplayLastStatus();
      }
      UpdateControls();
    }

    /** Connects with the credentials typed in the window. Without a window nothing
        happens and the endpoint is not called. */
    method Login(reply: Endpoint.Reply<()>)
      modifies lims, Attached()`messages, Attached()`enabled
      ensures view == null ==> unchanged(lims)
      ensures view != null ==>
        && Answered(Endpoint.Connect(old(view.hostname), old(view.username), old(view.password)), reply)
        && view.messages == Reported(old(view.messages), reply.ok, "Logged in.", reply.after.lastResult)
      ensures Synced()
    {
      if view == null { return; }

      var ok, _ := lims.Invoke(Endpoint.Connect(view.hostname, view.username, view.password), reply);
      if ok {
        Display("Logged in.", true);
      } else {
        DisplayLastStatus();
      }
      UpdateControls();
    }

    /** Disconnects; only a successful disconnect writes a message. */
    method Logout(reply: Endpoint.Reply<()>)
      modifies lims, Attached()`messages, Attached()`enabled
      ensures Answered(Endpoint.Disconnect, reply)
      ensures view != null ==>
        view.messages == if reply.ok then Render(["Logged out."]) else old(view.messages)
      ensures Synced()
    {
      var ok, _ := lims.Invoke(Endpoint.Disconnect, reply);
      if ok { Display("Logged out.", true); }
      UpdateControls();
    }

    method OpenDoor(reply: Endpoint.Reply<()>)
      modifies lims, Attached()`messages, Attached()`enabled
      ensures Answered(Endpoint.OpenDoor, reply)
      ensures view != null ==>
        view.messages == Reported(old(view.messages), reply.ok, "Door opened.", reply.after.lastResult)
      ensures Synced()
    {
      var ok, _ := lims.Invoke(Endpoint.OpenDoor, reply);
      if ok {
        Display("Door opened.", true);
      } else {
        DisplayLastStatus();
      }
      UpdateControls();
    }

    /** Runs the query described by the window's query fields and lists the result,
        one line per record. Without a window nothing happens and the endpoint is not
        called; the controls are not resynchronised. */
    method Query(reply: Endpoint.Reply<seq<Endpoint.QueryRecord>>, showTime: Endpoint.Timestamp -> string)
      modifies lims, Attached()`messages
      ensures view == null ==> unchanged(lims)
      ensures view != null ==>
        && Answered(Endpoint.ExecuteQuery(old(view.QueryRequest())), reply)
        && view.messages ==
             if reply.ok then Render(["Query Successful."]) + Render(QueryLines(reply.value, showTime))
             else WithLastStatus(old(view.messages), reply.after.lastResult)
    {
      if view == null { return; }

      var dateType;
      var fromDate := Endpoint.MinValue;
      var toDate := Endpoint.MaxValue;

      if view.dateAllChecked {
        dateType := Endpoint.AllDateQuery;
      } else if view.dateCreatedChecked {
        dateType := Endpoint.CreationDateQuery;
      } else {
        dateType := Endpoint.ModificationDateQuery;
      }

      var parameters := Endpoint.QueryParameters(
        view.queryName, view.queryType, view.queryOwner, dateType, fromDate, toDate);
      assert parameters == view.QueryRequest();
      var ok, results := lims.Invoke(Endpoint.ExecuteQuery(parameters), reply);
      if ok {
        DisplayQueryResults(results, showTime);
      } else {
        DisplayLastStatus();
      }
    }

    /** The success branch of a query: the summary line replaces the box, then the
        loop appends one line per record, in order. */
    method DisplayQueryResults(results: seq<Endpoint.QueryRecord>, showTime: Endpoint.Timestamp -> string)
      requires view != null
      modifies view`messages
      ensures view.messages == Render(["Query Successful."]) + Render(QueryLines(results, showTime))
    {
      Display("Query Successful.", true);
      assert results[..0] == [];
      for i := 0 to |results|
        invariant view.messages == Render(["Query Successful."]) + Render(QueryLines(results[..i], showTime))
      {
        Display(FormatRecord(results[i], showTime), false);
        QueryLinesExtend(Render(["Query Successful."]), results, i, showTime);
      }
      assert results[..|results|] == results;
    }

    /** Unloads the library; "COM object released." is written whatever the endpoint answers. */
    method ReleaseLibrary(reply: Endpoint.Reply<()>)
      modifies lims, Attached()`messages, Attached()`enabled
      ensures Answered(Endpoint.UnloadLibrary, reply)
      ensures view != null ==> view.messages == Render(["COM object released."])
      ensures Synced()
    {
      var _, _ := lims.Invoke(Endpoint.UnloadLibrary, reply);
      Display("COM object released.", true);
      UpdateControls();
    }

    method ReserveInstrument(reply: Endpoint.Reply<()>)
      modifies lims, Attached()`messages, Attached()`enabled
      ensures Answered(Endpoint.ReserveInstrument, reply)
      ensures view != null ==>
        view.messages == Reported(old(view.messages), reply.ok, "Instrument reserved.", reply.after.lastResult)
      ensures Synced()
    {
      var ok, _ := lims.Invoke(Endpoint.ReserveInstrument, reply);
      if ok {
        Display("Instrument reserved.", true);
      } else {
        DisplayLastStatus();
      }
      UpdateControls();
    }

    /** Reads the container sensor and writes back its negation. A failed read never
        reaches the write. */
    method ToggleSensor(read: Endpoint.Reply<bool>, write: Endpoint.Reply<()>)
      modifies lims, Attached()`messages, Attached()`enabled
      ensures !read.ok ==> Answered(Endpoint.GetContainerSensor, read)
      ensures read.ok ==>
        && lims.trace == old(lims.trace) + [Endpoint.GetContainerSensor, Endpoint.SetContainerSensor(!read.value)]
        && lims.State() == write.after
      ensures view != null ==> (view.messages ==
        if !read.ok then
          FailedRead(old(view.messages), "Failed to read container sensor value.", read.after.lastResult)
        else if write.ok then Render(["Container sensor value toggled."])
        else FailedRead(old(view.messages), "Failed to set new container sensor value.", write.after.lastResult))
      ensures Synced()
    {
      var ok, sensor := lims.Invoke(Endpoint.GetContainerSensor, read);
      if ok {
        var written, _ := lims.Invoke(Endpoint.SetContainerSensor(!sensor), write);
        if written {
          Display("Container sensor value toggled.", true);
        } else {
          Display("Failed to set new container sensor value.", false);
          DisplayLastStatus();
        }
      } else {
        Display("Failed to read container sensor value.", false);
        DisplayLastStatus();
      }
      UpdateControls();
    }

    method UnreserveInstrument(reply: Endpoint.Reply<()>)
      modifies lims, Attached()`messages, Attached()`enabled
      ensures Answered(Endpoint.UnreserveInstrument, reply)
      ensures view != null ==>
        view.messages == Reported(old(view.messages), reply.ok, "Instrument released.", reply.after.lastResult)
      ensures Synced()
    {
      var ok, _ := lims.Invoke(Endpoint.UnreserveInstrument, reply);
      if ok {
        Display("Instrument released.", true);
      } else {
        DisplayLastStatus();
      }
      UpdateControls();
    }
  }
}
