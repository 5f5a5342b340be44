/** Which controls of the main window are enabled, as a function of the three
    endpoint booleans: library loaded, connected, instrument reserved. */
module Capabilities {

  /** The controls whose enabled flag the controller sets. */
  datatype Control =
    | Acquire | Release | Hostname | Username | Password | Connect | Disconnect
    | Reserve | Unreserve
    | OpenDoor | CloseDoor | Status | ContainerBarcode | GetSensor | ToggleSensor | StartRun | AbortRun
    | QueryName | QueryType | QueryOwner | QueryDateAll | QueryDateModified | QueryDateCreated
    | QueryClear | ExecuteQuery
    | ExperimentName | ExperimentStatus | ExperimentSummary | ExperimentExport

  /** One enabled flag per control. */
  datatype Controls = Controls(
    acquire: bool, release: bool, hostname: bool, username: bool, password: bool,
    connect: bool, disconnect: bool,
    reserve: bool, unreserve: bool,
    openDoor: bool, closeDoor: bool, status: bool, containerBarcode: bool,
    getSensor: bool, toggleSensor: bool, startRun: bool, abortRun: bool,
    queryName: bool, queryType: bool, queryOwner: bool,
    queryDateAll: bool, queryDateModified: bool, queryDateCreated: bool,
    queryClear: bool, executeQuery: bool,
    experimentName: bool, experimentStatus: bool, experimentSummary: bool, experimentExport: bool)
  {
    /** The enabled flag of control `k`. */
    function Get(k: Control): bool
    {
      match k
      case Acquire => acquire
      case Release => release
      case Hostname => hostname
      case Username => username
      case Password => password
      case Connect => connect
      case Disconnect => disconnect
      case Reserve => reserve
      case Unreserve => unreserve
      case OpenDoor => openDoor
      case CloseDoor => closeDoor
      case Status => status
      case ContainerBarcode => containerBarcode
      case GetSensor => getSensor
      case ToggleSensor => toggleSensor
      case StartRun => startRun
      case AbortRun => abortRun
      case QueryName => queryName
      case QueryType => queryType
      case QueryOwner => queryOwner
      case QueryDateAll => queryDateAll
      case QueryDateModified => queryDateModified
      case QueryDateCreated => queryDateCreated
      case QueryClear => queryClear
      case ExecuteQuery => executeQuery
      case ExperimentName => experimentName
      case ExperimentStatus => experimentStatus
      case ExperimentSummary => experimentSummary
      case ExperimentExport => experimentExport
    }
  }

  /** The condition that guards a group of controls. */
  datatype Gate =
    | NotLoaded        // the library can be acquired
    | LoadedOffline    // the library is loaded but there is no session
    | Online           // a session is open
    | Reserved         // the instrument is reserved

  /** The gate table: which condition enables each control. */
  function GateOf(k: Control): Gate
  {
    match k
    case Acquire => NotLoaded
    case Release | Hostname | Username | Password | Connect => LoadedOffline
    case Disconnect | Reserve | Unreserve => Online
    case OpenDoor | CloseDoor | Status | ContainerBarcode | GetSensor | ToggleSensor
       | StartRun | AbortRun => Reserved
    case QueryName | QueryType | QueryOwner | QueryDateAll | QueryDateModified
       | QueryDateCreated | QueryClear | ExecuteQuery => Online
    case ExperimentName | ExperimentStatus | ExperimentSummary | ExperimentExport => Online
  }

  predicate Admits(g: Gate, loaded: bool, connected: bool, reserved: bool)
  {
    match g
    case NotLoaded => !loaded
    case LoadedOffline => loaded && !connected
    case Online => connected
    case Reserved => reserved
  }

  /** The enabled flags for the endpoint state (loaded, connected, reserved):
      every control is enabled exactly when its gate admits that state. */
  function Project(loaded: bool, connected: bool, reserved: bool): (c: Controls)
    ensures forall k :: c.Get(k) == Admits(GateOf(k), loaded, connected, reserved)
  {
    var offline := loaded && !connected;
    Controls(
      !loaded, offline, offline, offline, offline, offline, connected,
      connected, connected,
      reserved, reserved, reserved, reserved, reserved, reserved, reserved, reserved,
      connected, connected, connected, connected, connected, connected, connected, connected,
      connected, connected, connected, connected)
  }

  /** The lifecycle order the endpoint is expected to keep: a session needs a loaded
      library and a reservation needs a session. The endpoint's implementation is not
      part of this model, so this is an assumption, never a proved fact. */
  predicate Coherent(loaded: bool, connected: bool, reserved: bool)
  {
    (connected ==> loaded) && (reserved ==> connected)
  }

  /** In a coherent state exactly one way along the lifecycle is offered: acquire
      the library, log in (or release the library), or log out. */
  lemma OneLifecycleControl(loaded: bool, connected: bool, reserved: bool)
    requires Coherent(loaded, connected, reserved)
    ensures var c := Project(loaded, connected, reserved);
      (c.acquire && !c.connect && !c.disconnect) ||
      (!c.acquire && c.connect && c.release && !c.disconnect) ||
      (!c.acquire && !c.connect && !c.release && c.disconnect)
  {
  }

  /** In a coherent state an enabled instrument control implies an enabled session
      control, and an enabled session control implies that the library cannot be
      acquired again. */
  lemma GatesNest(loaded: bool, connected: bool, reserved: bool, k: Control, j: Control)
    requires Coherent(loaded, connected, reserved)
    requires GateOf(k) == Reserved && GateOf(j) == Online
    ensures Project(loaded, connected, reserved).Get(k) ==> Project(loaded, connected, reserved).Get(j)
    ensures Project(loaded, connected, reserved).Get(j) ==> !Project(loaded, connected, reserved).acquire
  {
  }

  /** The projection of an endpoint that knows nothing yet: only Acquire is enabled. */
  lemma InitialProjection(k: Control)
    ensures Project(false, false, false).Get(k) <==> k == Acquire
  {
  }
}
