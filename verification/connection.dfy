/** The two kinds of connection as one tagged union (`Connection`, `connectionFromJson`). */
module Connections {
  import opened Wrappers
  import opened OrderedMaps
  import opened Model
  import OperationConnections
  import ProcessConnections

  /** The connection's `type` tag. */
  function Type(c: Connection): (t: string)
    ensures t == "process" || t == "operation"
    ensures t == "operation" <==> c.FromOperation?
  {
    match c
    case FromOperation(_) => "operation"
    case FromProcess(_) => "process"
  }

  function ToJson(c: Connection): (j: ConnectionJson)
    ensures j.Type() == Type(c)
    ensures c.FromOperation? ==> j == OperationConnections.ToJson(c.oc)
    ensures c.FromProcess? ==> j == ProcessConnections.ToJson(c.pc)
  {
    match c
    case FromOperation(oc) => OperationConnections.ToJson(oc)
    case FromProcess(pc) => ProcessConnections.ToJson(pc)
  }

  /** `connectionFromJson`: a record tagged `'operation'` is resolved against the process's
      operations by `OperationConnection.fromJson` as written; every other record goes to
      `ProcessConnection.fromJson`, whose code is outside the model and is passed in as
      `processFromJson`. */
  function FromJson(
    data: ConnectionJson,
    process: Process,
    processFromJson: (ConnectionJson, Process) -> Result<ProcessConnection, Error>
  ): (r: Result<Connection, Error>)
    ensures data.Type() == "operation" ==>
              var o := OperationConnections.FromJson(data, process.operations);
              (r.Success? <==> o.Success?) &&
              (r.Success? ==> r.value == FromOperation(o.value)) &&
              (r.Failure? ==> r.error == o.error)
    ensures data.Type() != "operation" ==>
              var p := processFromJson(data, process);
              (r.Success? <==> p.Success?) &&
              (r.Success? ==> r.value == FromProcess(p.value)) &&
              (r.Failure? ==> r.error == p.error)
  {
    if data.Type() == "operation" then
      var oc :- OperationConnections.FromJson(data, process.operations);
      Success(FromOperation(oc))
    else
      var pc :- processFromJson(data, process);
      Success(FromProcess(pc))
  }

  /** `connectionFromJson` with the corrected operation-connection reader, which accepts
      exactly the declared output names. */
  function FromJsonCorrected(
    data: ConnectionJson,
    process: Process,
    processFromJson: (ConnectionJson, Process) -> Result<ProcessConnection, Error>
  ): (r: Result<Connection, Error>)
    ensures data.Type() == "operation" ==>
              var o := OperationConnections.FromJsonByName(data, process.operations);
              (r.Success? <==> o.Success?) &&
              (r.Success? ==> r.value == FromOperation(o.value)) &&
              (r.Failure? ==> r.error == o.error)
    ensures data.Type() != "operation" ==>
              var p := processFromJson(data, process);
              (r.Success? <==> p.Success?) &&
              (r.Success? ==> r.value == FromProcess(p.value)) &&
              (r.Failure? ==> r.error == p.error)
  {
    if data.Type() == "operation" then
      var oc :- OperationConnections.FromJsonByName(data, process.operations);
      Success(FromOperation(oc))
    else
      var pc :- processFromJson(data, process);
      Success(FromProcess(pc))
  }

  /** With the corrected reader, an operation-sourced connection survives a trip through
      its record, and the rebuilt connection carries the same tag. */
  lemma OperationConnectionRoundTrip(
    c: Connection,
    process: Process,
    processFromJson: (ConnectionJson, Process) -> Result<ProcessConnection, Error>)
    requires c.FromOperation?
    requires c.oc.from in process.operations.values
    requires c.oc == OperationConnections.NewByName(process.operations.values[c.oc.from], c.oc.output)
    requires c.oc.output in Names(process.operations.values[c.oc.from].Outputs())
    ensures FromJsonCorrected(ToJson(c), process, processFromJson) == Success(c)
    ensures Type(FromJsonCorrected(ToJson(c), process, processFromJson).value) == Type(c)
  {
    OperationConnections.ToJsonThenFromJsonByName(c.oc, process.operations);
  }

  /** A process connection survives a trip through its record under either reader whenever
      `ProcessConnection.fromJson` reads its own record back. */
  lemma ProcessConnectionRoundTrip(
    c: Connection,
    process: Process,
    processFromJson: (ConnectionJson, Process) -> Result<ProcessConnection, Error>)
    requires c.FromProcess?
    requires processFromJson(ProcessConnections.ToJson(c.pc), process) == Success(c.pc)
    ensures FromJson(ToJson(c), process, processFromJson) == Success(c)
    ensures FromJsonCorrected(ToJson(c), process, processFromJson) == Success(c)
  {
  }

  /** As written, the round trip fails for an ordinary declared output: a connection to
      output `result` of an operation that declares it is refused when read back. */
  lemma RoundTripRefusedAsWritten(
    processFromJson: (ConnectionJson, Process) -> Result<ProcessConnection, Error>)
    ensures var op := OperationConnections.TrimLikeOperation();
            var process := Process("p", OrderedMap(["op1"], map["op1" := op]), Empty(), Empty(), Empty(), None, None);
            var c := FromOperation(OperationConnections.NewByName(op, "result"));
            && "result" in Names(op.Outputs())
            && FromJson(ToJson(c), process, processFromJson).Failure?
            && FromJsonCorrected(ToJson(c), process, processFromJson) == Success(c)
  {
    var op := OperationConnections.TrimLikeOperation();
    var process := Process("p", OrderedMap(["op1"], map["op1" := op]), Empty(), Empty(), Empty(), None, None);
    var c := FromOperation(OperationConnections.NewByName(op, "result"));
    OperationConnectionRoundTrip(c, process, processFromJson);
    OperationConnections.FromJsonRefusesOrdinaryNames(ToJson(c), process.operations);
  }
}
