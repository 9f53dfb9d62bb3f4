/** An operation that runs a nested process (`ProcessOperation`). Running it is part of
    the execution module, since it runs the nested process. */
module ProcessOperations {
  import opened Wrappers
  import opened OrderedMaps
  import opened Model
  import Connections

  /** `new ProcessOperation(id, position, process)`: no connections yet, nothing resolved. */
  function New(id: OperationId, position: Vector2D, process: Process): (op: Operation)
    ensures op.ProcessOp? && op.id == id && op.position == position && op.process == process
    ensures op.inputConnections.values == map[] && op.currentOutputs.None?
    ensures op.Type() == "process"
    ensures op.Inputs() == MapSlots(process.inputs) && op.Outputs() == MapSlots(process.outputs)
  {
    ProcessOp(id, position, process, Empty(), None)
  }

  /** `ProcessOperation.fromJson`: the process is looked up by id; an unknown id throws. */
  function FromJson(data: OperationJson, processesById: map<ProcessId, Process>): (r: Result<Operation, Error>)
    requires data.ProcessOperationJson?
    ensures r.Failure? <==> data.process !in processesById
    ensures r.Failure? ==> r.error == UnrecognisedProcess(data.process)
    ensures r.Success? ==>
              && r.value.ProcessOp?
              && r.value.id == data.id && r.value.position == data.position
              && r.value.process == processesById[data.process]
              && r.value.inputConnections.values == map[]
  {
    if data.process !in processesById then Failure(UnrecognisedProcess(data.process))
    else Success(New(data.id, data.position, processesById[data.process]))
  }

  /** `toJson`: tagged `'process'`, naming the wrapped process by id. */
  function ToJson(op: Operation): (j: OperationJson)
    requires op.ProcessOp?
    ensures j.ProcessOperationJson?
    ensures j.id == op.id && j.position == op.position && j.process == op.process.id
    ensures j.inputs.Keys == op.inputConnections.values.Keys
    ensures forall k :: k in j.inputs ==> j.inputs[k] == Connections.ToJson(op.inputConnections.values[k])
  {
    ProcessOperationJson(
      op.id, op.position, op.process.id,
      map k | k in op.inputConnections.values :: Connections.ToJson(op.inputConnections.values[k]))
  }

  /** Writing an unconnected process operation out and reading it back against a lookup
      table that holds its process gives the same operation. */
  lemma RoundTrip(op: Operation, processesById: map<ProcessId, Process>)
    requires op.ProcessOp? && op.inputConnections == Empty() && op.currentOutputs.None?
    requires op.process.id in processesById && processesById[op.process.id] == op.process
    ensures FromJson(ToJson(op), processesById) == Success(op)
  {
  }
}
