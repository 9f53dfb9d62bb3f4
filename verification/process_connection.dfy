/** A connection that reads a named input of the enclosing process (`ProcessConnection`). */
module ProcessConnections {
  import opened Wrappers
  import opened OrderedMaps
  import opened Model

  /** `new ProcessConnection(input, process)`: remembers the position of `input` among the
      process's input names, or -1. */
  function New(input: string, process: Process): (c: ProcessConnection)
    ensures c.input == input
    ensures -1 <= c.inputNumber < |process.inputs.keys|
    ensures c.inputNumber == -1 <==> input !in process.inputs.keys
    ensures c.inputNumber >= 0 ==>
              process.inputs.keys[c.inputNumber] == input &&
              forall j :: 0 <= j < c.inputNumber ==> process.inputs.keys[j] != input
  {
    ProcessConnection(input, IndexOf(process.inputs.keys, input))
  }

  /** Connections from process inputs start above the operations, one grid cell per input. */
  function StartPosition(c: ProcessConnection, gridSize: int): (p: Vector2D)
    ensures p.y == -gridSize
    ensures p.x == c.inputNumber * gridSize
  {
    Vector2D(c.inputNumber * gridSize, -gridSize)
  }

  function ToJson(c: ProcessConnection): (j: ConnectionJson)
    ensures j.Type() == "process"
    ensures j.ProcessConnectionJson? && j.input == c.input
  {
    ProcessConnectionJson(c.input)
  }

  /** `valueType`: the declared type of the input; throws for an undeclared input. */
  function ValueType(c: ProcessConnection, process: Process): (r: Result<IOType, Error>)
    ensures r.Success? <==> c.input in process.inputs.values
    ensures r.Success? ==> r.value == process.inputs.values[c.input]
    ensures r.Failure? ==> r.error == UnrecognisedInput(process.id, c.input)
  {
    match process.inputs.Get(c.input)
    case None => Failure(UnrecognisedInput(process.id, c.input))
    case Some(t) => Success(t)
  }

  /** `getValue`: the input's value in the run in progress; throws when no run is in progress. */
  function GetValue(c: ProcessConnection, process: Process): (r: Result<Value, Error>)
    ensures r.Failure? <==> process.currentInputs.None?
    ensures r.Failure? ==> r.error == UnresolvedInput(process.id, c.input)
    ensures r.Success? ==> r.value == Lookup(process.currentInputs.value, c.input)
  {
    match process.currentInputs
    case None => Failure(UnresolvedInput(process.id, c.input))
    case Some(inputs) => Success(Lookup(inputs, c.input))
  }

  /** A connection built for a declared input starts at that input's column and has
      its type. */
  lemma DeclaredInputConnection(process: Process, k: nat, gridSize: int)
    requires process.inputs.Valid()
    requires k < |process.inputs.keys|
    ensures var c := New(process.inputs.keys[k], process);
            && c.inputNumber == k
            && StartPosition(c, gridSize) == Vector2D(k * gridSize, -gridSize)
            && ValueType(c, process) == Success(process.inputs.values[process.inputs.keys[k]])
  {
  }
}
