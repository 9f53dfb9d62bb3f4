/** What a run computes: every listed function operation ends holding what its function
    gives on the values its connections deliver, and the process's outputs are read from
    those results. */
module RunDataflow {
  import opened Wrappers
  import opened OrderedMaps
  import opened Model
  import opened Processes
  import opened RunProperties
  import opened RunDeterminism

  /** Operation `id` is held by `cur`, and if it is a function operation, every read of
      its connections succeeds in `cur` and its outputs are what its function returned on
      the values read and its own config. */
  ghost predicate ComputedAt(cur: Process, id: OperationId, env: Env) {
    && id in cur.operations.values
    && var op := cur.operations.values[id];
       var read := ReadInputs(cur, op.inputConnections.keys, op.inputConnections.values);
       op.FunctionOp? ==>
         && read.Success? && op.currentOutputs.Some?
         && env.performRun(op.functionToRun, read.value, op.config) == Success(op.currentOutputs.value)
  }

  /** Right after a successful step of function operation `id`, a connection from `id`
      reads the named output of what the function returned on the values read at its turn. */
  lemma StepThenRead(p0: Process, cur: Process, id: OperationId, env: Env, c: OperationConnection)
    requires id in cur.operations.values && EraseRun(cur) == EraseRun(p0)
    requires cur.operations.values[id].FunctionOp?
    requires RunOperation(p0, cur, id, env).Success?
    requires c.from == id
    ensures var op := cur.operations.values[id];
            var read := ReadInputs(cur, op.inputConnections.keys, op.inputConnections.values);
            && read.Success?
            && env.performRun(op.functionToRun, read.value, op.config).Success?
            && ReadConnection(RunOperation(p0, cur, id, env).value, FromOperation(c)) ==
               Success(Lookup(env.performRun(op.functionToRun, read.value, op.config).value, c.output))
  {
  }

  /** The loop invariant of a run at step `j`: the steps before `j` are resolved and hold
      what they computed; the steps from `j` on are as the first loop of `run` left them. */
  ghost predicate Progress(p: Process, inputs: Values, env: Env, cur: Process, j: nat) {
    var order := ExecutionOrder(p, env);
    && Ready(p, env)
    && j <= |order|
    && EraseRun(cur) == EraseRun(p)
    && cur.currentInputs == Some(inputs)
    && (forall l :: 0 <= l < j ==>
          ComputedAt(cur, order[l], env) && cur.operations.values[order[l]].currentOutputs.Some?)
    && (forall l :: j <= l < |order| ==>
          && order[l] in cur.operations.values && order[l] in p.operations.values
          && cur.operations.values[order[l]] == p.operations.values[order[l]].WithCurrentOutputs(None))
  }

  /** Running step `j` changes none of the values read by the operations at steps up to
      `j`: they read only process inputs and operations scheduled before them. */
  lemma StepKeepsReads(p: Process, inputs: Values, env: Env, cur: Process, next: Process, j: nat, l: nat)
    requires Progress(p, inputs, env, cur, j) && j < |ExecutionOrder(p, env)|
    requires l <= j
    requires var id := ExecutionOrder(p, env)[j];
             && id in cur.operations.values
             && RunOperation(p, cur, id, env).Success? && next == RunOperation(p, cur, id, env).value
    ensures var order := ExecutionOrder(p, env);
            var op := cur.operations.values[order[l]];
            ReadInputs(next, op.inputConnections.keys, op.inputConnections.values) ==
            ReadInputs(cur, op.inputConnections.keys, op.inputConnections.values)
  {
    var order := ExecutionOrder(p, env);
    var id := order[j];
    var src := order[l];
    EraseRunFacts(p, cur);
    EraseOpFacts(p.operations.values[src], cur.operations.values[src]);
    var op := cur.operations.values[src];
    forall name | name in op.inputConnections.keys && name in op.inputConnections.values
      ensures ReadConnection(next, op.inputConnections.values[name]) == ReadConnection(cur, op.inputConnections.values[name])
    {
      var c := op.inputConnections.values[name];
      assert ReadsEarlier(c, order[..l]);
      if c.FromOperation? {
        var m :| 0 <= m < l && order[m] == c.oc.from;
        assert order[m] != order[j];
      }
    }
    ReadInputsCongruent(next, cur, op.inputConnections.keys, op.inputConnections.values);
  }

  /** A successful step `j` moves the invariant on to `j + 1`. */
  lemma {:induction false} StepAdvances(p: Process, inputs: Values, env: Env, cur: Process, j: nat)
    requires Progress(p, inputs, env, cur, j) && j < |ExecutionOrder(p, env)|
    requires var id := ExecutionOrder(p, env)[j];
             id in cur.operations.values && RunOperation(p, cur, id, env).Success?
    ensures var id := ExecutionOrder(p, env)[j];
            Progress(p, inputs, env, RunOperation(p, cur, id, env).value, j + 1)
  {
    var order := ExecutionOrder(p, env);
    var id := order[j];
    var op := cur.operations.values[id];
    forall name | name in op.inputConnections.keys && name in op.inputConnections.values
      ensures ReadConnection(cur, op.inputConnections.values[name]).Success?
    {
      var c := op.inputConnections.values[name];
      assert ReadsEarlier(c, order[..j]);
      if c.FromOperation? {
        var m :| 0 <= m < j && order[m] == c.oc.from;
      }
    }
    var next := RunOperation(p, cur, id, env).value;
    forall l | 0 <= l < |order| && l != j
      ensures order[l] != id
    {
    }
    forall l | 0 <= l <= j
      ensures ComputedAt(next, order[l], env)
    {
      StepKeepsReads(p, inputs, env, cur, next, j, l);
    }
  }

  /** A loop that succeeds from step `j` succeeded at step `j`, and goes on from the state
      that step left. */
  lemma LoopStepSucceeds(p0: Process, cur: Process, order: seq<OperationId>, j: nat, env: Env)
    requires j < |order| && EraseRun(cur) == EraseRun(p0)
    requires order[j] in cur.operations.values
    requires RunOperations(p0, cur, order, j, env).Success?
    ensures RunOperation(p0, cur, order[j], env).Success?
    ensures RunOperations(p0, cur, order, j, env) ==
            RunOperations(p0, RunOperation(p0, cur, order[j], env).value, order, j + 1, env)
  {
  }

  /** One turn of the loop: a loop that succeeds from step `j` goes on from a state that
      keeps the invariant at `j + 1`. */
  lemma LoopAdvances(p: Process, inputs: Values, env: Env, cur: Process, j: nat)
    requires Progress(p, inputs, env, cur, j) && j < |ExecutionOrder(p, env)|
    requires RunOperations(p, cur, ExecutionOrder(p, env), j, env).Success?
    ensures var order := ExecutionOrder(p, env);
            && RunOperation(p, cur, order[j], env).Success?
            && Progress(p, inputs, env, RunOperation(p, cur, order[j], env).value, j + 1)
            && RunOperations(p, cur, order, j, env) ==
               RunOperations(p, RunOperation(p, cur, order[j], env).value, order, j + 1, env)
  {
    var order := ExecutionOrder(p, env);
    assert order[j] in cur.operations.values;
    LoopStepSucceeds(p, cur, order, j, env);
    StepAdvances(p, inputs, env, cur, j);
  }

  /** The loop ends where it stands once every step has run. */
  lemma LoopDone(p: Process, inputs: Values, env: Env, cur: Process, j: nat, done: Process)
    requires Progress(p, inputs, env, cur, j) && !(j < |ExecutionOrder(p, env)|)
    requires RunOperations(p, cur, ExecutionOrder(p, env), j, env) == Success(done)
    ensures Progress(p, inputs, env, done, |ExecutionOrder(p, env)|)
  {
    assert j == |ExecutionOrder(p, env)|;
    assert done == cur;
  }

  /** The loop form: when the loop succeeds from step `j` on and ends in `done`, it
      leaves every step computed. */
  lemma {:induction false} ComputesLoop(p: Process, inputs: Values, env: Env, cur: Process, j: nat, done: Process)
    requires Progress(p, inputs, env, cur, j)
    requires RunOperations(p, cur, ExecutionOrder(p, env), j, env) == Success(done)
    ensures Progress(p, inputs, env, done, |ExecutionOrder(p, env)|)
    decreases |ExecutionOrder(p, env)| - j
  {
    if j < |ExecutionOrder(p, env)| {
      var next := RunOperation(p, cur, ExecutionOrder(p, env)[j], env).value;
      assert Progress(p, inputs, env, next, j + 1) &&
             RunOperations(p, next, ExecutionOrder(p, env), j + 1, env) == Success(done) by {
        LoopAdvances(p, inputs, env, cur, j);
      }
      ComputesLoop(p, inputs, env, next, j + 1, done);
    } else {
      LoopDone(p, inputs, env, cur, j, done);
    }
  }

  /** The dataflow a run computes: after a successful run in a sound order, every function
      operation in the order holds what its function returned on the values its connections
      deliver (read with the run's inputs in place). */
  lemma RunComputesEachOperation(p: Process, inputs: Values, env: Env)
    requires Ready(p, env)
    requires Run(p, inputs, env).Success?
    ensures var order := ExecutionOrder(p, env);
            var q := Run(p, inputs, env).value.1.(currentInputs := Some(inputs));
            forall l :: 0 <= l < |order| ==> ComputedAt(q, order[l], env)
  {
    var order := ExecutionOrder(p, env);
    var started := p.(currentInputs := Some(inputs), sortedOperations := Some(order),
                      operations := ClearOutputs(p.operations, order));
    assert Progress(p, inputs, env, started, 0);
    var ran := RunOperations(p, started, order, 0, env).value;
    ComputesLoop(p, inputs, env, started, 0, ran);
    assert Run(p, inputs, env).value.1 == ran.(currentInputs := None);
    assert ran.(currentInputs := None).(currentInputs := Some(inputs)) == ran;
  }

  /** A two-step chain: operation `f` reads the process input `x`, operation `g` reads
      output `out` of `f`, and the process output `y` reads output `out` of `g`. */
  function ChainProcess(ff: FunctionDef, fg: FunctionDef): (p: Process)
    ensures p.operations.keys == ["f", "g"] && p.outputConnections.keys == ["y"]
  {
    Process("p", OrderedMap(["f", "g"], map["f" := ChainFirst(ff), "g" := ChainSecond(fg)]),
            OrderedMap(["x"], map["x" := Text]), OrderedMap(["y"], map["y" := Text]),
            OrderedMap(["y"], map["y" := OperationConnection("g", "out", 0)]), None, None)
  }

  function ChainFirst(ff: FunctionDef): (op: Operation)
    ensures op.FunctionOp? && op.functionToRun == ff && op.config == map[]
  {
    FunctionOp("f", Vector2D(0, 0), ff, map[], [Slot("x", Text)], [Slot("out", Text)],
               OrderedMap(["x"], map["x" := FromProcess(ProcessConnection("x", 0))]), None)
  }

  function ChainSecond(fg: FunctionDef): (op: Operation)
    ensures op.FunctionOp? && op.functionToRun == fg && op.config == map[]
  {
    FunctionOp("g", Vector2D(1, 0), fg, map[], [Slot("in", Text)], [Slot("out", Text)],
               OrderedMap(["in"], map["in" := FromOperation(OperationConnection("f", "out", 0))]), None)
  }

  lemma ChainReady(ff: FunctionDef, fg: FunctionDef, env: Env)
    requires env.resolve(ChainProcess(ff, fg).operations) == ["f", "g"]
    ensures Ready(ChainProcess(ff, fg), env)
  {
    var p := ChainProcess(ff, fg);
    var order := ExecutionOrder(p, env);
    assert order == ["f", "g"];
    assert order[..0] == [] && order[..1] == ["f"];
    assert SoundOrder(p, order);
  }

  /** In any process mid-run on `x = a`, `f`'s connections deliver exactly `{x: a}`. */
  lemma ChainReadsFirst(q: Process, ff: FunctionDef, a: string)
    requires q.currentInputs == Some(map["x" := Defined(a)])
    ensures var conns := ChainFirst(ff).inputConnections;
            ReadInputs(q, conns.keys, conns.values) == Success(map["x" := Defined(a)])
  {
    var conns := ChainFirst(ff).inputConnections;
    assert ReadConnection(q, conns.values["x"]) == Success(Defined(a));
    assert ReadInputs(q, conns.keys[1..], conns.values) == Success(map[]);
  }

  /** Once `f` holds `fOut`, `g`'s connections deliver `{in: fOut.out}`. */
  lemma ChainReadsSecond(q: Process, fg: FunctionDef, fOut: Values)
    requires "f" in q.operations.values && q.operations.values["f"].currentOutputs == Some(fOut)
    ensures var conns := ChainSecond(fg).inputConnections;
            ReadInputs(q, conns.keys, conns.values) == Success(map["in" := Lookup(fOut, "out")])
  {
    var conns := ChainSecond(fg).inputConnections;
    assert ReadConnection(q, conns.values["in"]) == Success(Lookup(fOut, "out"));
    assert ReadInputs(q, conns.keys[1..], conns.values) == Success(map[]);
  }

  /** When `f` returns on `{x: a}` and `g` on `{in: f.out}`, the chain's run succeeds. */
  lemma ChainRunSucceeds(ff: FunctionDef, fg: FunctionDef, env: Env, a: string)
    requires env.resolve(ChainProcess(ff, fg).operations) == ["f", "g"]
    requires env.performRun(ff, map["x" := Defined(a)], map[]).Success?
    requires env.performRun(fg, map["in" := Lookup(env.performRun(ff, map["x" := Defined(a)], map[]).value, "out")], map[]).Success?
    ensures Run(ChainProcess(ff, fg), map["x" := Defined(a)], env).Success?
  {
    var p := ChainProcess(ff, fg);
    var inputs := map["x" := Defined(a)];
    var order := ExecutionOrder(p, env);
    assert order == ["f", "g"];
    var started := p.(currentInputs := Some(inputs), sortedOperations := Some(order),
                      operations := ClearOutputs(p.operations, order));
    assert started.operations.values["f"] == ChainFirst(ff).WithCurrentOutputs(None);
    ChainReadsFirst(started, ff, a);
    var fOut := env.performRun(ff, inputs, map[]).value;
    var next := RunOperation(p, started, "f", env).value;
    assert next.operations.values["f"].currentOutputs == Some(fOut);
    assert next.operations.values["g"] == ChainSecond(fg).WithCurrentOutputs(None);
    ChainReadsSecond(next, fg, fOut);
    var last := RunOperation(p, next, "g", env).value;
    assert RunOperations(p, last, order, 2, env) == Success(last);
    assert RunOperations(p, next, order, 1, env) == Success(last);
    assert RunOperations(p, started, order, 0, env) == Success(last);
    var finished := last.(currentInputs := None);
    assert "g" in finished.operations.values && finished.operations.values["g"].currentOutputs.Some?;
    var conns := map k | k in finished.outputConnections.values :: FromOperation(finished.outputConnections.values[k]);
    assert ReadConnection(finished, conns["y"]).Success?;
    assert ReadInputs(finished, finished.outputConnections.keys[1..], conns) == Success(map[]);
  }

  /** After the run, each operation of the chain keeps its connections and holds its
      function's result. */
  lemma ChainRunState(ff: FunctionDef, fg: FunctionDef, env: Env, a: string)
    requires env.resolve(ChainProcess(ff, fg).operations) == ["f", "g"]
    requires env.performRun(ff, map["x" := Defined(a)], map[]).Success?
    requires env.performRun(fg, map["in" := Lookup(env.performRun(ff, map["x" := Defined(a)], map[]).value, "out")], map[]).Success?
    ensures var p := ChainProcess(ff, fg);
            var inputs := map["x" := Defined(a)];
            var fOut := env.performRun(ff, inputs, map[]).value;
            var gOut := env.performRun(fg, map["in" := Lookup(fOut, "out")], map[]).value;
            && Run(p, inputs, env).Success?
            && "f" in Run(p, inputs, env).value.1.operations.values
            && "g" in Run(p, inputs, env).value.1.operations.values
            && Run(p, inputs, env).value.1.operations.values["f"].currentOutputs == Some(fOut)
            && Run(p, inputs, env).value.1.operations.values["g"].currentOutputs == Some(gOut)
  {
    var p := ChainProcess(ff, fg);
    var inputs := map["x" := Defined(a)];
    ChainReady(ff, fg, env);
    ChainRunSucceeds(ff, fg, env, a);
    RunComputesEachOperation(p, inputs, env);
    var fin := Run(p, inputs, env).value.1;
    var q := fin.(currentInputs := Some(inputs));
    var order := ExecutionOrder(p, env);
    assert order == ["f", "g"];
    assert ComputedAt(q, order[0], env) && ComputedAt(q, order[1], env);
    EraseRunFacts(p, fin);
    EraseOpFacts(p.operations.values["f"], fin.operations.values["f"]);
    EraseOpFacts(p.operations.values["g"], fin.operations.values["g"]);
    ChainReadsFirst(q, ff, a);
    var fOut := env.performRun(ff, inputs, map[]).value;
    assert q.operations.values["f"].currentOutputs == Some(fOut);
    ChainReadsSecond(q, fg, fOut);
  }

  /** When neither function throws on what it is handed, running the chain on `x = a`
      gives `y` = `g`'s result on `f`'s result on `a`: each operation runs once, in order,
      on what its connection holds at its turn. */
  lemma ChainScenario(ff: FunctionDef, fg: FunctionDef, env: Env, a: string)
    requires env.resolve(ChainProcess(ff, fg).operations) == ["f", "g"]
    requires env.performRun(ff, map["x" := Defined(a)], map[]).Success?
    requires env.performRun(fg, map["in" := Lookup(env.performRun(ff, map["x" := Defined(a)], map[]).value, "out")], map[]).Success?
    ensures var p := ChainProcess(ff, fg);
            var fOut := env.performRun(ff, map["x" := Defined(a)], map[]).value;
            var gOut := env.performRun(fg, map["in" := Lookup(fOut, "out")], map[]).value;
            && Run(p, map["x" := Defined(a)], env).Success?
            && Run(p, map["x" := Defined(a)], env).value.0 == map["y" := Lookup(gOut, "out")]
  {
    var p := ChainProcess(ff, fg);
    var inputs := map["x" := Defined(a)];
    ChainRunState(ff, fg, env, a);
    var fin := Run(p, inputs, env).value.1;
    var outputs := Run(p, inputs, env).value.0;
    assert outputs.Keys == {"y"};
    assert Success(outputs["y"]) == ReadConnection(fin, FromOperation(OperationConnection("g", "out", 0)));
  }

  /** What a function throws, the run throws: when `f` throws on `x = a`, running the
      chain fails with that error, whatever `g` would do. */
  lemma ChainFirstThrows(ff: FunctionDef, fg: FunctionDef, env: Env, a: string)
    requires env.resolve(ChainProcess(ff, fg).operations) == ["f", "g"]
    requires env.performRun(ff, map["x" := Defined(a)], map[]).Failure?
    ensures Run(ChainProcess(ff, fg), map["x" := Defined(a)], env) ==
            Failure(env.performRun(ff, map["x" := Defined(a)], map[]).error)
  {
    var p := ChainProcess(ff, fg);
    var inputs := map["x" := Defined(a)];
    var order := ExecutionOrder(p, env);
    assert order == ["f", "g"];
    var started := p.(currentInputs := Some(inputs), sortedOperations := Some(order),
                      operations := ClearOutputs(p.operations, order));
    assert started.operations.values["f"] == ChainFirst(ff).WithCurrentOutputs(None);
    ChainReadsFirst(started, ff, a);
    var step := RunOperation(p, started, "f", env);
    assert step == Failure(env.performRun(ff, inputs, map[]).error);
    assert RunOperations(p, started, order, 0, env) == step;
  }
}
