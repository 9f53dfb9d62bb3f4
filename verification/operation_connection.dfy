/** A connection that reads a named output of another operation (`OperationConnection`). */
module OperationConnections {
  import opened Wrappers
  import opened OrderedMaps
  import opened Model
  import opened SlotAccess

  /** `new OperationConnection(from, output)`: remembers where `output` sits among
      `from.outputs`, using the array method `findIndex`, which a process operation's
      `Map` of outputs lacks. */
  function New(from: Operation, output: string): (r: Result<OperationConnection, Error>)
    ensures r.Success? <==> from.FunctionOp?
    ensures r.Failure? ==> r.error == TypeError
    ensures r.Success? ==> r.value.from == from.id && r.value.output == output
    ensures r.Success? ==> (r.value.outputNumber == -1 <==> output !in SlotNames(from.outputSlots))
    ensures r.Success? && r.value.outputNumber >= 0 ==>
              && r.value.outputNumber < |from.outputSlots|
              && from.outputSlots[r.value.outputNumber].name == output
              && forall j :: 0 <= j < r.value.outputNumber ==> from.outputSlots[j].name != output
  {
    var n :- FindIndex(from.Outputs(), output);
    Success(OperationConnection(from.id, output, n))
  }

  /** The constructor as evidently intended: the position of `output` among the output
      names, for an array of pairs and for a `Map` alike. */
  function NewByName(from: Operation, output: string): (c: OperationConnection)
    ensures c.from == from.id && c.output == output
    ensures -1 <= c.outputNumber < |Names(from.Outputs())|
    ensures c.outputNumber == -1 <==> output !in Names(from.Outputs())
    ensures c.outputNumber >= 0 ==> Names(from.Outputs())[c.outputNumber] == output
  {
    OperationConnection(from.id, output, IndexOf(Names(from.Outputs()), output))
  }

  /** Where the connection is drawn from: one grid cell right of the source per output index. */
  function StartPosition(c: OperationConnection, from: Operation): (p: Vector2D)
    ensures p.y == from.position.y
    ensures p.x - from.position.x == c.outputNumber
  {
    Vector2D(from.position.x + c.outputNumber, from.position.y)
  }

  /** `valueType`: `from.outputs[outputNumber][1]`; indexing past the array (or into a `Map`)
      yields `undefined`, and reading `[1]` of that throws. */
  function ValueType(c: OperationConnection, from: Operation): (r: Result<IOType, Error>)
    ensures r.Success? <==> from.FunctionOp? && 0 <= c.outputNumber < |from.outputSlots|
    ensures r.Success? ==> r.value == from.outputSlots[c.outputNumber].valueType
    ensures r.Failure? ==> r.error == TypeError
  {
    match At(from.Outputs(), c.outputNumber)
    case Some(slot) => Success(slot.valueType)
    case None => Failure(TypeError)
  }

  /** `getValue`: the source's resolved output, or an error when it has not run yet. */
  function GetValue(c: OperationConnection, from: Operation): (r: Result<Value, Error>)
    ensures r.Failure? <==> from.currentOutputs.None?
    ensures r.Failure? ==> r.error == UnresolvedOutput(from.id, c.output)
    ensures r.Success? ==> r.value == Lookup(from.currentOutputs.value, c.output)
  {
    match from.currentOutputs
    case None => Failure(UnresolvedOutput(from.id, c.output))
    case Some(outputs) => Success(Lookup(outputs, c.output))
  }

  function ToJson(c: OperationConnection): (j: ConnectionJson)
    ensures j.Type() == "operation"
    ensures j.OperationConnectionJson? && j.from == c.from && j.output == c.output
  {
    OperationConnectionJson(c.from, c.output)
  }

  /** `OperationConnection.fromJson` as written: the source operation must exist, and the
      output name must pass `Object.hasOwn(from.outputs, output)`. */
  function FromJson(data: ConnectionJson, operations: OrderedMap<OperationId, Operation>): (r: Result<OperationConnection, Error>)
    requires data.OperationConnectionJson?
    ensures data.from !in operations.values ==> r == Failure(UnrecognisedOperation(data.from))
    ensures data.from in operations.values && !HasOwn(operations.values[data.from].Outputs(), data.output) ==>
              r == Failure(UnrecognisedOutput(operations.values[data.from].id, data.output))
    ensures r.Success? <==> data.from in operations.values && HasOwn(operations.values[data.from].Outputs(), data.output)
    ensures r.Success? ==> Success(r.value) == New(operations.values[data.from], data.output)
  {
    match operations.Get(data.from)
    case None => Failure(UnrecognisedOperation(data.from))
    case Some(from) =>
      if !HasOwn(from.Outputs(), data.output) then Failure(UnrecognisedOutput(from.id, data.output))
      else New(from, data.output)
  }

  /** `fromJson` as evidently intended: the output name must be one of the source's outputs. */
  function FromJsonByName(data: ConnectionJson, operations: OrderedMap<OperationId, Operation>): (r: Result<OperationConnection, Error>)
    requires data.OperationConnectionJson?
    ensures data.from !in operations.values ==> r == Failure(UnrecognisedOperation(data.from))
    ensures r.Success? <==> data.from in operations.values && data.output in Names(operations.values[data.from].Outputs())
    ensures r.Success? ==> r.value == NewByName(operations.values[data.from], data.output)
  {
    match operations.Get(data.from)
    case None => Failure(UnrecognisedOperation(data.from))
    case Some(from) =>
      if data.output !in Names(from.Outputs()) then Failure(UnrecognisedOutput(from.id, data.output))
      else Success(NewByName(from, data.output))
  }

  /** A record accepted by `fromJson` serialises back to itself. */
  lemma FromJsonThenToJson(data: ConnectionJson, operations: OrderedMap<OperationId, Operation>)
    requires data.OperationConnectionJson?
    requires KeyedById(operations)
    ensures FromJson(data, operations).Success? ==> ToJson(FromJson(data, operations).value) == data
    ensures FromJsonByName(data, operations).Success? ==> ToJson(FromJsonByName(data, operations).value) == data
  {
  }

  /** A connection to a declared output, built against the operation it names, survives
      a trip through its record. */
  lemma ToJsonThenFromJsonByName(c: OperationConnection, operations: OrderedMap<OperationId, Operation>)
    requires c.from in operations.values
    requires c == NewByName(operations.values[c.from], c.output)
    requires c.output in Names(operations.values[c.from].Outputs())
    ensures FromJsonByName(ToJson(c), operations) == Success(c)
  {
  }

  /** As written, `fromJson` refuses every output name that is not an array index key or
      `"length"`: a name such as `"result"` never passes. */
  lemma FromJsonRefusesOrdinaryNames(data: ConnectionJson, operations: OrderedMap<OperationId, Operation>)
    requires data.OperationConnectionJson?
    requires data.output != "length"
    requires |data.output| == 0 || !('0' <= data.output[0] <= '9')
    ensures FromJson(data, operations).Failure?
  {
  }

  /** The function operation used by the counterexamples: one output, `result`. */
  function TrimLikeOperation(): (op: Operation)
    ensures op.FunctionOp? && SlotNames(op.outputSlots) == ["result"]
  {
    var fn := FunctionDef("trim", "TRM", Empty(), OrderedMap(["result"], map["result" := Text]));
    FunctionOp("op1", Vector2D(0, 0), fn, map[], [], [Slot("result", Text)], Empty(), None)
  }

  /** Counterexample: the record `{type: 'operation', from: 'op1', output: 'result'}` names
      a declared output, yet the as-written `fromJson` throws; the corrected one accepts it.
      Conversely the index key `"0"` passes the check, and the connection it yields has
      no output slot, so its `valueType` throws. */
  lemma HasOwnCounterexample()
    ensures var ops := Set(Empty(), "op1", TrimLikeOperation());
            && FromJson(OperationConnectionJson("op1", "result"), ops) == Failure(UnrecognisedOutput("op1", "result"))
            && FromJsonByName(OperationConnectionJson("op1", "result"), ops).Success?
    ensures var ops := Set(Empty(), "op1", TrimLikeOperation());
            && FromJson(OperationConnectionJson("op1", "0"), ops).Success?
            && ValueType(FromJson(OperationConnectionJson("op1", "0"), ops).value, TrimLikeOperation()) == Failure(TypeError)
  {
    var op := TrimLikeOperation();
    var ops := Set(Empty(), "op1", op);
    assert ops.values["op1"] == op;
    assert !HasOwn(op.Outputs(), "result");
    assert NatToString(0) == "0";
    assert HasOwn(op.Outputs(), "0");
    assert "0" !in SlotNames(op.outputSlots);
  }

  /** Counterexample: a process operation's outputs are its process's `Map`, so building a
      connection from its output `y` throws as written; by name, `y` is found at index 0. */
  lemma FindIndexOnProcessOutputs()
    ensures var inner := Process("inner", Empty(), Empty(), OrderedMap(["y"], map["y" := Text]), Empty(), None, None);
            var from := ProcessOp("op2", Vector2D(0, 0), inner, Empty(), None);
            && New(from, "y") == Failure(TypeError)
            && NewByName(from, "y").outputNumber == 0
  {
  }

  /** With the index of a declared output, the start position is that index past the source. */
  lemma StartPositionOfDeclaredOutput(from: Operation, output: string, k: nat)
    requires from.FunctionOp?
    requires k < |from.outputSlots| && from.outputSlots[k].name == output
    requires forall j :: 0 <= j < k ==> from.outputSlots[j].name != output
    ensures New(from, output).Success?
    ensures StartPosition(New(from, output).value, from) == Vector2D(from.position.x + k, from.position.y)
    ensures ValueType(New(from, output).value, from) == Success(from.outputSlots[k].valueType)
  {
    var c := New(from, output).value;
    assert output in SlotNames(from.outputSlots) by {
      assert SlotNames(from.outputSlots)[k] == output;
    }
  }
}
