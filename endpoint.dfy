/** The instrument endpoint the controller talks to (the LIMS connection over the
    COM automation library). Its implementation is not part of this model: every
    call is answered by a `Reply` that the caller supplies, which fixes whether the
    call succeeded, the value it produced and the endpoint's state afterwards. The
    endpoint records every call it receives, in order, so that contracts can say
    which calls a command made. */
module Endpoint {
  import opened Wrappers

  /** The endpoint's last result: a technical message and a message for the user. */
  datatype Diagnostic = Diagnostic(message: string, userMessage: string)

  /** What the controller can observe of the endpoint between calls. */
  datatype EndpointState = EndpointState(
    libraryLoaded: bool,
    connected: bool,
    reserved: bool,
    lastResult: Option<Diagnostic>)

  /** The answer to one call: success flag, the value of its out-parameter, and the
      endpoint's state once the call has returned. */
  datatype Reply<T> = Reply(ok: bool, value: T, after: EndpointState)

  /** A point in time, as a count of 100-nanosecond ticks since 1 January 0001. */
  datatype Timestamp = Timestamp(ticks: int)

  const MinValue: Timestamp := Timestamp(0)
  const MaxValue: Timestamp := Timestamp(3155378975999999999)

  /** Which date of a record a query filters on. */
  datatype DateType = AllDateQuery | CreationDateQuery | ModificationDateQuery

  datatype QueryParameters = QueryParameters(
    name: string,
    objectType: string,
    owner: string,
    dateType: DateType,
    dateFrom: Timestamp,
    dateTo: Timestamp)

  /** One row of a query result. */
  datatype QueryRecord = QueryRecord(
    name: string,
    path: string,
    objectType: string,
    created: Timestamp,
    modified: Timestamp)

  /** The calls the controller makes on the endpoint, with their arguments. */
  datatype Call =
    | LoadLibrary
    | UnloadLibrary
    | Connect(hostname: string, username: string, password: string)
    | Disconnect
    | ReserveInstrument
    | UnreserveInstrument
    | OpenDoor
    | CloseDoor
    | AbortExperiment
    | GetContainerBarcode
    | GetContainerSensor
    | SetContainerSensor(on: bool)
    | GetStatus
    | GetExperimentStatus(experiment: string)
    | GetExperimentSummary(experiment: string)
    | ExecuteQuery(parameters: QueryParameters)
    | ExportExperiment(experiment: string, fileName: string)

  /** The connection object the controller owns. */
  class LimsConnection {
    var isLibraryLoaded: bool
    var isConnected: bool
    var isReserved: bool
    var lastResult: Option<Diagnostic>
    ghost var trace: seq<Call>

    constructor (initial: EndpointState)
      ensures State() == initial && trace == []
    {
      isLibraryLoaded := initial.libraryLoaded;
      isConnected := initial.connected;
      isReserved := initial.reserved;
      lastResult := initial.lastResult;
      trace := [];
    }

    function State(): EndpointState
      reads this
    {
      EndpointState(isLibraryLoaded, isConnected, isReserved, lastResult)
    }

    predicate HasLastResult()
      reads this
    {
      lastResult.Some?
    }

    /** Issues `call`; the endpoint answers with `reply`. */
    method Invoke<T>(call: Call, reply: Reply<T>) returns (ok: bool, value: T)
      modifies this
      ensures trace == old(trace) + [call]
      ensures State() == reply.after
      ensures ok == reply.ok && value == reply.value
    {
      trace := trace + [call];
      isLibraryLoaded := reply.after.libraryLoaded;
      isConnected := reply.after.connected;
      isReserved := reply.after.reserved;
      lastResult := reply.after.lastResult;
      ok, value := reply.ok, reply.value;
    }
  }
}
