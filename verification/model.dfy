/** The entities of the dataflow engine: values and their types, function definitions,
    connections, operations, processes, and the interchange (JSON) records.
    Operations live in an arena: a process holds them in an `OrderedMap` keyed by id,
    and connections name their source operation by id. */
module Model {
  import opened Wrappers
  import opened OrderedMaps

  type OperationId = string
  type ProcessId = string
  type FunctionId = string

  /** The kind of value a slot carries (`'text'`, `'choice'`, `'toggle'`, ...). */
  datatype IOType = Text | Choice | Toggle | OtherType(name: string)

  /** A value read out of an `IOValues` record. Reading a key the record lacks yields
      JavaScript's `undefined`, which is kept as a value of its own. */
  datatype Value = Defined(text: string) | Undefined

  type Values = map<string, Value>

  /** `record[name]` in JavaScript. */
  function Lookup(vs: Values, name: string): (v: Value)
    ensures v.Defined? ==> name in vs
    ensures name in vs ==> v == vs[name]
  {
    if name in vs then vs[name] else Undefined
  }

  /** Literal parameter values fixed on an operation, by parameter name. */
  type Config = map<string, string>

  datatype ParameterDefinition = ParameterDefinition(valueType: IOType, inputByDefault: bool)

  /** A registered function: its declared parameters and outputs, in declaration order.
      Its computation is not part of the datatype; see `Env.performRun`. */
  datatype FunctionDef = FunctionDef(
    id: FunctionId,
    symbol: string,
    parameters: OrderedMap<string, ParameterDefinition>,
    outputs: OrderedMap<string, IOType>)

  datatype Vector2D = Vector2D(x: int, y: int)

  /** One `[name, type]` pair of an operation's `inputs` or `outputs`. */
  datatype Slot = Slot(name: string, valueType: IOType)

  function SlotNames(s: seq<Slot>): (r: seq<string>)
    ensures |r| == |s| && forall i :: 0 <= i < |s| ==> r[i] == s[i].name
  {
    seq(|s|, i requires 0 <= i < |s| => s[i].name)
  }

  /** An operation's `inputs`/`outputs` collection. A function operation stores a
      JavaScript array of pairs; a process operation hands out the wrapped process's `Map`. */
  datatype Slots = ArraySlots(entries: seq<Slot>) | MapSlots(types: OrderedMap<string, IOType>)

  /** Names in order, whichever representation is used. */
  function Names(slots: Slots): seq<string> {
    match slots
    case ArraySlots(e) => SlotNames(e)
    case MapSlots(m) => m.keys
  }

  /** An edge reading output `output` of operation `from`. `outputNumber` is fixed when the
      connection is built. */
  datatype OperationConnection = OperationConnection(from: OperationId, output: string, outputNumber: int)

  /** An edge reading input `input` of the enclosing process. */
  datatype ProcessConnection = ProcessConnection(input: string, inputNumber: int)

  datatype Connection = FromOperation(oc: OperationConnection) | FromProcess(pc: ProcessConnection)

  datatype Operation =
    | FunctionOp(
        id: OperationId,
        position: Vector2D,
        functionToRun: FunctionDef,
        config: Config,
        inputSlots: seq<Slot>,
        outputSlots: seq<Slot>,
        inputConnections: OrderedMap<string, Connection>,
        currentOutputs: Option<Values>)
    | ProcessOp(
        id: OperationId,
        position: Vector2D,
        process: Process,
        inputConnections: OrderedMap<string, Connection>,
        currentOutputs: Option<Values>)
  {
    /** `type`. */
    function Type(): string {
      if FunctionOp? then "function" else "process"
    }

    /** `inputs`: a function operation's stored slots, a process operation's process inputs. */
    function Inputs(): Slots {
      if FunctionOp? then ArraySlots(inputSlots) else MapSlots(process.inputs)
    }

    /** The same operation with other resolved outputs. */
    function WithCurrentOutputs(outputs: Option<Values>): (r: Operation)
      ensures r.currentOutputs == outputs
      ensures r.id == id && r.inputConnections == inputConnections && r.FunctionOp? == FunctionOp?
      ensures FunctionOp? ==> r.functionToRun == functionToRun && r.config == config
    {
      match this
      case FunctionOp(i, pos, f, c, ins, outs, conns, _) => FunctionOp(i, pos, f, c, ins, outs, conns, outputs)
      case ProcessOp(i, pos, p, conns, _) => ProcessOp(i, pos, p, conns, outputs)
    }

    /** The same operation with other input connections. */
    function WithInputConnections(connections: OrderedMap<string, Connection>): (r: Operation)
      ensures r.inputConnections == connections
      ensures r.id == id && r.currentOutputs == currentOutputs && r.FunctionOp? == FunctionOp?
      ensures ProcessOp? ==> r.process == process
    {
      match this
      case FunctionOp(i, pos, f, c, ins, outs, _, o) => FunctionOp(i, pos, f, c, ins, outs, connections, o)
      case ProcessOp(i, pos, p, _, o) => ProcessOp(i, pos, p, connections, o)
    }

    /** `outputs`, likewise. */
    function Outputs(): Slots {
      if FunctionOp? then ArraySlots(outputSlots) else MapSlots(process.outputs)
    }
  }

  /** A dataflow graph. `sortedOperations` caches the execution order; `currentInputs` is
      the external input record while a run is in progress and `None` otherwise. */
  datatype Process = Process(
    id: ProcessId,
    operations: OrderedMap<OperationId, Operation>,
    inputs: OrderedMap<string, IOType>,
    outputs: OrderedMap<string, IOType>,
    outputConnections: OrderedMap<string, OperationConnection>,
    sortedOperations: Option<seq<OperationId>>,
    currentInputs: Option<Values>)

  /** Every operation is stored under its own id, as `Process.addOperation` does. */
  ghost predicate KeyedById(operations: OrderedMap<OperationId, Operation>) {
    forall k :: k in operations.values ==> operations.values[k].id == k
  }

  /** The collaborators whose code is outside the model: the execution-order resolver
      and the computations of registered functions. A computation may throw, which is
      a `Failure`. */
  datatype Env = Env(
    resolve: OrderedMap<OperationId, Operation> -> seq<OperationId>,
    performRun: (FunctionDef, Values, Config) -> Result<Values, Error>)

  /** The errors the engine throws. `TypeError` stands for JavaScript's own error when a
      missing array element or method is used. */
  datatype Error =
    | UnresolvedOutput(operation: OperationId, output: string)
    | UnresolvedInput(process: ProcessId, input: string)
    | UnrecognisedInput(process: ProcessId, input: string)
    | UnrecognisedOperation(operation: OperationId)
    | UnrecognisedOutput(operation: OperationId, output: string)
    | UnrecognisedProcess(process: ProcessId)
    | TypeError

  // Interchange records

  datatype ConnectionJson =
    | OperationConnectionJson(from: OperationId, output: string)
    | ProcessConnectionJson(input: string)
  {
    /** The record's `type` field. */
    function Type(): string {
      if OperationConnectionJson? then "operation" else "process"
    }
  }

  datatype OperationJson =
    | FunctionOperationJson(
        id: OperationId,
        position: Vector2D,
        functionId: FunctionId,
        config: Config,
        inputs: map<string, ConnectionJson>)
    | ProcessOperationJson(
        id: OperationId,
        position: Vector2D,
        process: ProcessId,
        inputs: map<string, ConnectionJson>)

  datatype ProcessJson = ProcessJson(
    id: ProcessId,
    inputs: map<string, IOType>,
    outputs: map<string, IOType>,
    outputConnections: map<string, ConnectionJson>,
    operations: seq<OperationJson>)
}
