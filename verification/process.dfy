/** The process: adding operations, serialising, and running (`Process`). A run walks the
    execution order twice: once to clear every listed operation's outputs, once to run
    each listed operation, reading its input connections and storing what it computes.
    A process operation runs its nested process as one step. */
module Processes {
  import opened Wrappers
  import opened OrderedMaps
  import opened Model
  import OperationConnections
  import ProcessConnections
  import FunctionOperations
  import ProcessOperations

  /** `addOperation`: stores the operation under its id and drops the cached order. */
  function AddOperation(p: Process, op: Operation): (r: Process)
    ensures r.sortedOperations.None?
    ensures r.operations.values == p.operations.values[op.id := op]
    ensures op.id in p.operations.keys ==> r.operations.keys == p.operations.keys
    ensures op.id !in p.operations.keys ==> r.operations.keys == p.operations.keys + [op.id]
    ensures r.(operations := p.operations, sortedOperations := p.sortedOperations) == p
    ensures p.operations.Valid() ==> r.operations.Valid()
    ensures KeyedById(p.operations) ==> KeyedById(r.operations)
  {
    p.(sortedOperations := None, operations := Set(p.operations, op.id, op))
  }

  // Serialisation

  function OperationToJson(op: Operation): (j: OperationJson)
    ensures op.FunctionOp? ==> j == FunctionOperations.ToJson(op)
    ensures op.ProcessOp? ==> j == ProcessOperations.ToJson(op)
  {
    if op.FunctionOp? then FunctionOperations.ToJson(op) else ProcessOperations.ToJson(op)
  }

  /** `mapToArray(operations, op => op.toJson())` over the operations listed in `ids`. */
  function OperationsToJson(ids: seq<OperationId>, ops: map<OperationId, Operation>): (r: seq<OperationJson>)
    ensures (forall k :: k in ids ==> k in ops) ==>
              |r| == |ids| && forall i :: 0 <= i < |r| ==> r[i] == OperationToJson(ops[ids[i]])
  {
    if |ids| == 0 then []
    else
      var rest := OperationsToJson(ids[1..], ops);
      if ids[0] in ops then [OperationToJson(ops[ids[0]])] + rest else rest
  }

  /** `toJson`: the declared inputs and outputs, the output connections and the operations,
      each mirrored entry for entry. */
  function ToJson(p: Process): (j: ProcessJson)
    ensures j.id == p.id
    ensures j.inputs == p.inputs.values && j.outputs == p.outputs.values
    ensures j.outputConnections.Keys == p.outputConnections.values.Keys
    ensures forall k :: k in j.outputConnections ==>
              j.outputConnections[k] == OperationConnections.ToJson(p.outputConnections.values[k])
    ensures p.operations.Valid() ==>
              && |j.operations| == p.operations.Size()
              && forall i :: 0 <= i < |j.operations| ==>
                   j.operations[i] == OperationToJson(p.operations.values[p.operations.keys[i]])
  {
    ProcessJson(
      p.id, p.inputs.values, p.outputs.values,
      map k | k in p.outputConnections.values :: OperationConnections.ToJson(p.outputConnections.values[k]),
      OperationsToJson(p.operations.keys, p.operations.values))
  }

  /** The operation records follow the table's key order and carry the keys as ids, so a
      table keyed by id is written with each id once, in insertion order. */
  lemma ToJsonListsOperationIds(p: Process)
    requires p.operations.Valid() && KeyedById(p.operations)
    ensures var j := ToJson(p);
            && |j.operations| == |p.operations.keys|
            && forall i :: 0 <= i < |j.operations| ==> j.operations[i].id == p.operations.keys[i]
  {
    var j := ToJson(p);
    forall i | 0 <= i < |j.operations|
      ensures j.operations[i].id == p.operations.keys[i]
    {
      var op := p.operations.values[p.operations.keys[i]];
      assert j.operations[i] == OperationToJson(op);
    }
  }

  /** Each output-connection record reads back, through the corrected reader, as the
      connection it came from when that connection names a declared output by name. */
  lemma ToJsonOutputConnectionsReadBack(p: Process, k: string)
    requires k in p.outputConnections.values
    requires var c := p.outputConnections.values[k];
             && c.from in p.operations.values
             && c == OperationConnections.NewByName(p.operations.values[c.from], c.output)
             && c.output in Names(p.operations.values[c.from].Outputs())
    ensures k in ToJson(p).outputConnections
    ensures OperationConnections.FromJsonByName(ToJson(p).outputConnections[k], p.operations) == Success(p.outputConnections.values[k])
  {
    OperationConnections.ToJsonThenFromJsonByName(p.outputConnections.values[k], p.operations);
  }

  // The shape of a process without its run state

  /** The process with every piece of run state erased: no cached order, no current
      inputs, no resolved outputs, recursively through nested processes. */
  ghost function EraseRun(p: Process): Process
    decreases p, 1
  {
    p.(operations := EraseOps(p.operations), sortedOperations := None, currentInputs := None)
  }

  ghost function EraseOps(ops: OrderedMap<OperationId, Operation>): OrderedMap<OperationId, Operation>
    decreases ops, 0
  {
    OrderedMap(ops.keys, map k | k in ops.values :: EraseOp(ops.values[k]))
  }

  ghost function EraseOp(op: Operation): Operation
    decreases op, 2
  {
    match op
    case FunctionOp(_, _, _, _, _, _, _, _) => op.WithCurrentOutputs(None)
    case ProcessOp(_, _, nested, _, _) => op.(process := EraseRun(nested), currentOutputs := None)
  }

  /** Replacing one operation by another of the same shape keeps the process's shape. */
  lemma EraseReplace(p: Process, id: OperationId, op: Operation)
    requires id in p.operations.values
    requires EraseOp(op) == EraseOp(p.operations.values[id])
    ensures EraseRun(p.(operations := OrderedMap(p.operations.keys, p.operations.values[id := op]))) == EraseRun(p)
  {
    var q := p.(operations := OrderedMap(p.operations.keys, p.operations.values[id := op]));
    assert EraseOps(q.operations).values == EraseOps(p.operations).values;
  }

  /** A nested process sits strictly inside the shape of its enclosing process. */
  lemma NestedIsSmaller(p0: Process, cur: Process, id: OperationId)
    requires EraseRun(cur) == EraseRun(p0)
    requires id in cur.operations.values && cur.operations.values[id].ProcessOp?
    ensures EraseRun(cur.operations.values[id].process) < EraseRun(p0)
  {
    var op := cur.operations.values[id];
    assert EraseOps(cur.operations).values[id] == EraseOp(op);
    assert EraseOp(op).process == EraseRun(op.process);
  }

  // Running

  /** The order a run uses: the cached one, or the resolver's when none is cached. */
  function ExecutionOrder(p: Process, env: Env): seq<OperationId> {
    if p.sortedOperations.Some? then p.sortedOperations.value else env.resolve(p.operations)
  }

  /** The first loop of `run`: every operation listed in `order` loses its outputs. */
  function ClearOutputs(ops: OrderedMap<OperationId, Operation>, order: seq<OperationId>): (r: OrderedMap<OperationId, Operation>)
    ensures r.keys == ops.keys && r.values.Keys == ops.values.Keys
    ensures forall k :: k in r.values && k in order ==> r.values[k] == ops.values[k].WithCurrentOutputs(None)
    ensures forall k :: k in r.values && k !in order ==> r.values[k] == ops.values[k]
    ensures EraseOps(r) == EraseOps(ops)
  {
    var r := OrderedMap(ops.keys, map k | k in ops.values :: if k in order then ops.values[k].WithCurrentOutputs(None) else ops.values[k]);
    assert EraseOps(r).values == EraseOps(ops).values;
    r
  }

  /** The value a connection delivers inside process `p`. A connection naming an operation
      the process does not hold is reported as unrecognised. */
  function ReadConnection(p: Process, c: Connection): (r: Result<Value, Error>)
    ensures c.FromProcess? ==> r == ProcessConnections.GetValue(c.pc, p)
    ensures c.FromOperation? && c.oc.from in p.operations.values ==>
              r == OperationConnections.GetValue(c.oc, p.operations.values[c.oc.from])
    ensures c.FromOperation? && c.oc.from !in p.operations.values ==>
              r == Failure(UnrecognisedOperation(c.oc.from))
  {
    match c
    case FromProcess(pc) => ProcessConnections.GetValue(pc, p)
    case FromOperation(oc) =>
      if oc.from in p.operations.values then OperationConnections.GetValue(oc, p.operations.values[oc.from])
      else Failure(UnrecognisedOperation(oc.from))
  }

  /** Reads the connections named in `names`, first to last; the first failure is thrown. */
  function ReadInputs(p: Process, names: seq<string>, conns: map<string, Connection>): (r: Result<Values, Error>)
    ensures r.Success? ==>
              && r.value.Keys == (set k | k in names && k in conns)
              && forall k :: k in r.value ==> Success(r.value[k]) == ReadConnection(p, conns[k])
    ensures (exists k :: k in names && k in conns && ReadConnection(p, conns[k]).Failure?) ==> r.Failure?
    ensures (forall k :: k in names && k in conns ==> ReadConnection(p, conns[k]).Success?) ==> r.Success?
  {
    if |names| == 0 then Success(map[])
    else if names[0] !in conns then ReadInputs(p, names[1..], conns)
    else
      var v :- ReadConnection(p, conns[names[0]]);
      var rest :- ReadInputs(p, names[1..], conns);
      Success(rest[names[0] := v])
  }

  /** `run(inputs)`: records the inputs, takes the cached order (computing and caching it
      when there is none), clears the listed operations' outputs, runs each listed operation
      in order, forgets the inputs, and reads every output connection. */
  function Run(p: Process, inputs: Values, env: Env): (r: Result<(Values, Process), Error>)
    decreases EraseRun(p), 2
    ensures r.Success? ==> r.value.1.currentInputs.None?
    ensures r.Success? && p.sortedOperations.Some? ==> r.value.1.sortedOperations == p.sortedOperations
    ensures r.Success? && p.sortedOperations.None? ==> r.value.1.sortedOperations == Some(env.resolve(p.operations))
    ensures r.Success? ==> EraseRun(r.value.1) == EraseRun(p)
    ensures r.Success? ==>
              && r.value.0.Keys == (set k | k in p.outputConnections.keys && k in p.outputConnections.values)
              && forall k :: k in r.value.0 ==>
                   Success(r.value.0[k]) == ReadConnection(r.value.1, FromOperation(p.outputConnections.values[k]))
  {
    var order := ExecutionOrder(p, env);
    var started := p.(currentInputs := Some(inputs), sortedOperations := Some(order),
                      operations := ClearOutputs(p.operations, order));
    var ran :- RunOperations(p, started, order, 0, env);
    var finished := ran.(currentInputs := None);
    var outputs :- ReadInputs(finished, finished.outputConnections.keys,
                              map k | k in finished.outputConnections.values :: FromOperation(finished.outputConnections.values[k]));
    Success((outputs, finished))
  }

  /** The second loop of `run`, from position `i` of `order` on. `p0` is the process the
      run started from; only its shape matters here. */
  function RunOperations(p0: Process, cur: Process, order: seq<OperationId>, i: nat, env: Env): (r: Result<Process, Error>)
    requires i <= |order|
    requires EraseRun(cur) == EraseRun(p0)
    decreases EraseRun(p0), 1, |order| - i
    ensures r.Success? ==> EraseRun(r.value) == EraseRun(cur)
    ensures r.Success? ==> r.value.(operations := cur.operations) == cur
  {
    if i == |order| then Success(cur)
    else
      var id := order[i];
      if id !in cur.operations.values then Failure(UnrecognisedOperation(id))
      else
        var next :- RunOperation(p0, cur, id, env);
        RunOperations(p0, next, order, i + 1, env)
  }

  /** One step of the second loop: the operation reads its inputs, performs, and keeps the
      result as its outputs. Only that operation changes. */
  function RunOperation(p0: Process, cur: Process, id: OperationId, env: Env): (r: Result<Process, Error>)
    requires id in cur.operations.values
    requires EraseRun(cur) == EraseRun(p0)
    decreases EraseRun(p0), 0
    ensures r.Success? ==> EraseRun(r.value) == EraseRun(cur)
    ensures r.Success? ==>
              && r.value.(operations := cur.operations) == cur
              && r.value.operations.keys == cur.operations.keys
              && r.value.operations.values.Keys == cur.operations.values.Keys
              && (forall k :: k in cur.operations.values && k != id ==> r.value.operations.values[k] == cur.operations.values[k])
              && r.value.operations.values[id].currentOutputs.Some?
              && r.value.operations.values[id].inputConnections == cur.operations.values[id].inputConnections
    ensures var op := cur.operations.values[id];
            var read := ReadInputs(cur, op.inputConnections.keys, op.inputConnections.values);
            && (read.Failure? ==> r == Failure(read.error))
            && (read.Success? ==>
                  var performed := Perform(p0, cur, id, read.value, env);
                  && (r.Success? <==> performed.Success?)
                  && (r.Failure? ==> r.error == performed.error)
                  && (r.Success? ==> r.value.operations.values[id] == performed.value))
  {
    var op := cur.operations.values[id];
    var values :- ReadInputs(cur, op.inputConnections.keys, op.inputConnections.values);
    var op' :- Perform(p0, cur, id, values, env);
    EraseReplace(cur, id, op');
    Success(cur.(operations := OrderedMap(cur.operations.keys, cur.operations.values[id := op'])))
  }

  /** `perform` for either kind of operation, with the result stored as its outputs. A
      function operation calls its function; a process operation runs its process. */
  function Perform(p0: Process, cur: Process, id: OperationId, values: Values, env: Env): (r: Result<Operation, Error>)
    requires id in cur.operations.values
    requires EraseRun(cur) == EraseRun(p0)
    decreases EraseRun(p0), 0, 0
    ensures r.Success? ==> EraseOp(r.value) == EraseOp(cur.operations.values[id])
    ensures r.Success? ==> r.value.currentOutputs.Some?
    ensures r.Success? ==> r.value.inputConnections == cur.operations.values[id].inputConnections
    ensures cur.operations.values[id].FunctionOp? ==>
              var op := cur.operations.values[id];
              var computed := env.performRun(op.functionToRun, values, op.config);
              && (r.Success? <==> computed.Success?)
              && (r.Failure? ==> r.error == computed.error)
              && (r.Success? ==> r.value == op.WithCurrentOutputs(Some(computed.value)))
  {
    var op := cur.operations.values[id];
    match op
    case FunctionOp(_, _, _, _, _, _, _, _) =>
      var outputs :- FunctionOperations.Perform(op, values, env.performRun);
      Success(op.WithCurrentOutputs(Some(outputs)))
    case ProcessOp(_, _, nested, _, _) =>
      NestedIsSmaller(p0, cur, id);
      var (outputs, nested') :- Run(nested, values, env);
      Success(op.(process := nested', currentOutputs := Some(outputs)))
  }

  /** `ProcessOperation.perform(inputs)` is `process.run(inputs)`: the operation's outputs
      are the nested run's result, and the nested process keeps the run's state. */
  lemma ProcessOperationPerformsRun(p0: Process, cur: Process, id: OperationId, values: Values, env: Env)
    requires id in cur.operations.values && cur.operations.values[id].ProcessOp?
    requires EraseRun(cur) == EraseRun(p0)
    ensures var op := cur.operations.values[id];
            var run := Run(op.process, values, env);
            var r := Perform(p0, cur, id, values, env);
            && (r.Success? <==> run.Success?)
            && (r.Failure? ==> r.error == run.error)
            && (r.Success? ==> r.value == op.(process := run.value.1, currentOutputs := Some(run.value.0)))
  {
  }
}
