/** Repeated runs give the same outputs. A run's result depends only on the process's
    shape and the orders its runs use, not on the outputs an earlier run left behind;
    and a run changes neither the shape nor those orders. */
module RunDeterminism {
  import opened Wrappers
  import opened OrderedMaps
  import opened Model
  import opened Processes
  import opened RunProperties

  /** Two processes of the same shape whose runs use the same orders, recursively through
      nested processes; only outputs and inputs left from earlier runs may differ. */
  ghost predicate SameSchedule(p: Process, q: Process, env: Env)
    decreases p
  {
    && EraseRun(p) == EraseRun(q)
    && ExecutionOrder(p, env) == ExecutionOrder(q, env)
    && forall k :: k in p.operations.values && k in q.operations.values &&
                   p.operations.values[k].ProcessOp? && q.operations.values[k].ProcessOp? ==>
         SameSchedule(p.operations.values[k].process, q.operations.values[k].process, env)
  }

  // What an equal shape says

  lemma EraseOpFacts(a: Operation, b: Operation)
    requires EraseOp(a) == EraseOp(b)
    ensures a.FunctionOp? == b.FunctionOp? && a.id == b.id && a.inputConnections == b.inputConnections
    ensures a.FunctionOp? ==> a.functionToRun == b.functionToRun && a.config == b.config
  {
    if a.FunctionOp? {
      assert EraseOp(a).FunctionOp?;
    }
  }

  lemma EraseRunFacts(p: Process, q: Process)
    requires EraseRun(p) == EraseRun(q)
    ensures p.operations.values.Keys == q.operations.values.Keys
    ensures p.outputConnections == q.outputConnections
    ensures forall k :: k in p.operations.values ==> EraseOp(p.operations.values[k]) == EraseOp(q.operations.values[k])
  {
    EraseRunWiring(p, q);
    var ep := EraseOps(p.operations);
    var eq := EraseOps(q.operations);
    assert ep == EraseRun(p).operations && eq == EraseRun(q).operations;
    EraseOpsAt(p.operations);
    EraseOpsAt(q.operations);
    forall k | k in p.operations.values
      ensures EraseOp(p.operations.values[k]) == EraseOp(q.operations.values[k])
    {
      assert ep.values[k] == eq.values[k];
    }
  }

  lemma EraseOpsAt(ops: OrderedMap<OperationId, Operation>)
    ensures EraseOps(ops).values.Keys == ops.values.Keys
    ensures forall k :: k in ops.values ==> EraseOps(ops).values[k] == EraseOp(ops.values[k])
  {
  }

  lemma EraseRunWiring(p: Process, q: Process)
    requires EraseRun(p) == EraseRun(q)
    ensures p.outputConnections == q.outputConnections
  {
    assert EraseRun(p).outputConnections == p.outputConnections;
  }

  lemma {:induction false} SameScheduleReflexive(p: Process, env: Env)
    ensures SameSchedule(p, p, env)
    decreases p
  {
    forall k | k in p.operations.values && p.operations.values[k].ProcessOp?
      ensures SameSchedule(p.operations.values[k].process, p.operations.values[k].process, env)
    {
      SameScheduleReflexive(p.operations.values[k].process, env);
    }
  }

  lemma {:induction false} SameScheduleTransitive(a: Process, b: Process, c: Process, env: Env)
    requires SameSchedule(a, b, env) && SameSchedule(b, c, env)
    ensures SameSchedule(a, c, env)
    decreases a
  {
    EraseRunFacts(a, b);
    forall k | k in a.operations.values && k in c.operations.values &&
               a.operations.values[k].ProcessOp? && c.operations.values[k].ProcessOp?
      ensures SameSchedule(a.operations.values[k].process, c.operations.values[k].process, env)
    {
      EraseOpFacts(a.operations.values[k], b.operations.values[k]);
      SameScheduleTransitive(a.operations.values[k].process, b.operations.values[k].process,
                             c.operations.values[k].process, env);
    }
  }

  /** Readiness depends only on the schedule. */
  lemma {:induction false} ReadyTransfers(p: Process, q: Process, env: Env)
    requires Ready(p, env) && SameSchedule(p, q, env)
    ensures Ready(q, env)
    decreases p
  {
    EraseRunFacts(p, q);
    var order := ExecutionOrder(p, env);
    forall i, name | 0 <= i < |order| && name in q.operations.values[order[i]].inputConnections.values
      ensures ReadsEarlier(q.operations.values[order[i]].inputConnections.values[name], order[..i])
    {
      EraseOpFacts(p.operations.values[order[i]], q.operations.values[order[i]]);
    }
    forall k | k in q.operations.values && q.operations.values[k].ProcessOp?
      ensures Ready(q.operations.values[k].process, env)
    {
      EraseOpFacts(p.operations.values[k], q.operations.values[k]);
      ReadyTransfers(p.operations.values[k].process, q.operations.values[k].process, env);
    }
  }

  // A run keeps the schedule

  /** After a successful run the process has its old shape, its order is cached, and every
      nested process that ran has cached the order it used. */
  lemma {:induction false} RunKeepsSchedule(p: Process, inputs: Values, env: Env)
    requires Run(p, inputs, env).Success?
    ensures SameSchedule(p, Run(p, inputs, env).value.1, env)
    decreases EraseRun(p), 2
  {
    var order := ExecutionOrder(p, env);
    var started := p.(currentInputs := Some(inputs), sortedOperations := Some(order),
                      operations := ClearOutputs(p.operations, order));
    var ran := RunOperations(p, started, order, 0, env).value;
    var finished := ran.(currentInputs := None);
    assert SameSchedule(p, started, env) by {
      forall k | k in p.operations.values && k in started.operations.values &&
                 p.operations.values[k].ProcessOp? && started.operations.values[k].ProcessOp?
        ensures SameSchedule(p.operations.values[k].process, started.operations.values[k].process, env)
      {
        SameScheduleReflexive(p.operations.values[k].process, env);
      }
    }
    RunOperationsKeepsSchedule(p, started, order, 0, env);
    assert SameSchedule(ran, finished, env) by {
      forall k | k in ran.operations.values && ran.operations.values[k].ProcessOp?
        ensures SameSchedule(ran.operations.values[k].process, ran.operations.values[k].process, env)
      {
        SameScheduleReflexive(ran.operations.values[k].process, env);
      }
    }
    SameScheduleTransitive(p, started, ran, env);
    SameScheduleTransitive(p, ran, finished, env);
  }

  lemma {:induction false} RunOperationsKeepsSchedule(p0: Process, cur: Process, order: seq<OperationId>, j: nat, env: Env)
    requires j <= |order|
    requires EraseRun(cur) == EraseRun(p0)
    requires cur.sortedOperations.Some?
    requires RunOperations(p0, cur, order, j, env).Success?
    ensures SameSchedule(cur, RunOperations(p0, cur, order, j, env).value, env)
    decreases EraseRun(p0), 1, |order| - j
  {
    if j == |order| {
      SameScheduleReflexive(cur, env);
    } else {
      var id := order[j];
      var op := cur.operations.values[id];
      var values := ReadInputs(cur, op.inputConnections.keys, op.inputConnections.values).value;
      var op' := Perform(p0, cur, id, values, env).value;
      var next := RunOperation(p0, cur, id, env).value;
      assert next.operations.values == cur.operations.values[id := op'];
      assert SameSchedule(cur, next, env) by {
        forall k | k in cur.operations.values && k in next.operations.values &&
                   cur.operations.values[k].ProcessOp? && next.operations.values[k].ProcessOp?
          ensures SameSchedule(cur.operations.values[k].process, next.operations.values[k].process, env)
        {
          if k == id {
            NestedIsSmaller(p0, cur, id);
            ProcessOperationPerformsRun(p0, cur, id, values, env);
            RunKeepsSchedule(op.process, values, env);
          } else {
            SameScheduleReflexive(cur.operations.values[k].process, env);
          }
        }
      }
      RunOperationsKeepsSchedule(p0, next, order, j + 1, env);
      SameScheduleTransitive(cur, next, RunOperations(p0, next, order, j + 1, env).value, env);
    }
  }

  // The same schedule gives the same outcome

  /** Two results agree on their outcome: both succeed, or both fail with the same error. */
  predicate SameOutcome<T, U>(a: Result<T, Error>, b: Result<U, Error>) {
    && (a.Success? <==> b.Success?)
    && (a.Failure? ==> a.error == b.error)
  }

  lemma {:induction false} ReadInputsCongruent(p: Process, q: Process, names: seq<string>, conns: map<string, Connection>)
    requires forall k :: k in names && k in conns ==> ReadConnection(p, conns[k]) == ReadConnection(q, conns[k])
    ensures ReadInputs(p, names, conns) == ReadInputs(q, names, conns)
  {
    if |names| > 0 {
      ReadInputsCongruent(p, q, names[1..], conns);
    }
  }

  /** Two processes with the same schedule, one of them in a sound order, run alike on
      the same inputs, whatever outputs earlier runs left in either: both fail with the
      same error, or both succeed with the same outputs. */
  lemma {:induction false} SameScheduleSameOutputs(p: Process, q: Process, inputs: Values, env: Env)
    requires Ready(p, env) && SameSchedule(p, q, env)
    ensures SameOutcome(Run(p, inputs, env), Run(q, inputs, env))
    ensures Run(p, inputs, env).Success? ==> Run(p, inputs, env).value.0 == Run(q, inputs, env).value.0
    decreases p, 2
  {
    var order := ExecutionOrder(p, env);
    var sp := p.(currentInputs := Some(inputs), sortedOperations := Some(order),
                 operations := ClearOutputs(p.operations, order));
    var sq := q.(currentInputs := Some(inputs), sortedOperations := Some(order),
                 operations := ClearOutputs(q.operations, order));
    SameStart(p, q, inputs, env);
    SameOutputsLoop(p, q, inputs, env, sp, sq, 0);
    var loopP := RunOperations(p, sp, order, 0, env);
    var loopQ := RunOperations(q, sq, order, 0, env);
    if loopP.Failure? {
      assert Run(p, inputs, env) == Failure(loopP.error);
      assert Run(q, inputs, env) == Failure(loopP.error);
    } else {
      var rp := loopP.value;
      var rq := loopQ.value;
      EraseRunWiring(p, q);
      SameFinish(p, q, env, rp, rq);
      var fp := rp.(currentInputs := None);
      var fq := rq.(currentInputs := None);
      var conns := map k | k in fp.outputConnections.values :: FromOperation(fp.outputConnections.values[k]);
      var read := ReadInputs(fp, fp.outputConnections.keys, conns);
      assert read == ReadInputs(fq, fq.outputConnections.keys, conns);
      assert Run(p, inputs, env).Success? <==> read.Success?;
      assert Run(q, inputs, env).Success? <==> read.Success?;
      assert read.Success? ==> Run(p, inputs, env).value.0 == read.value && Run(q, inputs, env).value.0 == read.value;
    }
  }

  /** Both runs start from the invariant at step 0. */
  lemma SameStart(p: Process, q: Process, inputs: Values, env: Env)
    requires Ready(p, env) && SameSchedule(p, q, env)
    ensures var order := ExecutionOrder(p, env);
            InStep(p, q, inputs, env,
                   p.(currentInputs := Some(inputs), sortedOperations := Some(order), operations := ClearOutputs(p.operations, order)),
                   q.(currentInputs := Some(inputs), sortedOperations := Some(order), operations := ClearOutputs(q.operations, order)),
                   0)
  {
    EraseRunFacts(p, q);
  }

  /** Once every listed operation holds the same resolved outputs in both, the output
      connections read the same values. */
  lemma SameFinish(p: Process, q: Process, env: Env, rp: Process, rq: Process)
    requires SoundOrder(p, ExecutionOrder(p, env))
    requires rp.outputConnections == p.outputConnections && rq.outputConnections == p.outputConnections
    requires var order := ExecutionOrder(p, env);
             forall l :: 0 <= l < |order| ==>
               && order[l] in rp.operations.values && order[l] in rq.operations.values
               && rp.operations.values[order[l]].currentOutputs.Some?
               && rp.operations.values[order[l]].currentOutputs == rq.operations.values[order[l]].currentOutputs
    ensures var fp := rp.(currentInputs := None);
            var fq := rq.(currentInputs := None);
            var conns := map k | k in fp.outputConnections.values :: FromOperation(fp.outputConnections.values[k]);
            && fp.outputConnections == fq.outputConnections
            && ReadInputs(fp, fp.outputConnections.keys, conns) == ReadInputs(fq, fq.outputConnections.keys, conns)
  {
    var order := ExecutionOrder(p, env);
    var fp := rp.(currentInputs := None);
    var fq := rq.(currentInputs := None);
    var conns := map k | k in fp.outputConnections.values :: FromOperation(fp.outputConnections.values[k]);
    forall k | k in fp.outputConnections.keys && k in conns
      ensures ReadConnection(fp, conns[k]) == ReadConnection(fq, conns[k])
    {
      var from := fp.outputConnections.values[k].from;
      var l :| 0 <= l < |order| && order[l] == from;
    }
    ReadInputsCongruent(fp, fq, fp.outputConnections.keys, conns);
  }

  /** The loop invariant of `SameScheduleSameOutputs` at step `j`: steps before `j` left
      equal, resolved outputs in both processes; steps from `j` on are as the first loop
      of `run` left them. */
  ghost predicate InStep(p: Process, q: Process, inputs: Values, env: Env, cp: Process, cq: Process, j: nat) {
    var order := ExecutionOrder(p, env);
    && Ready(p, env) && SameSchedule(p, q, env)
    && j <= |order|
    && EraseRun(cp) == EraseRun(p) && EraseRun(cq) == EraseRun(q)
    && cp.currentInputs == Some(inputs) && cq.currentInputs == Some(inputs)
    && (forall l :: 0 <= l < j ==>
          && order[l] in cp.operations.values && order[l] in cq.operations.values
          && cp.operations.values[order[l]].currentOutputs.Some?
          && cp.operations.values[order[l]].currentOutputs == cq.operations.values[order[l]].currentOutputs)
    && (forall l :: j <= l < |order| ==>
          && order[l] in cp.operations.values && order[l] in cq.operations.values
          && order[l] in p.operations.values && order[l] in q.operations.values
          && cp.operations.values[order[l]] == p.operations.values[order[l]].WithCurrentOutputs(None)
          && cq.operations.values[order[l]] == q.operations.values[order[l]].WithCurrentOutputs(None))
  }

  /** The operation at step `j` reads the same values in both processes. */
  lemma SameStepReads(p: Process, q: Process, inputs: Values, env: Env, cp: Process, cq: Process, j: nat)
    requires InStep(p, q, inputs, env, cp, cq, j) && j < |ExecutionOrder(p, env)|
    ensures var op := cp.operations.values[ExecutionOrder(p, env)[j]];
            && op.inputConnections == cq.operations.values[ExecutionOrder(p, env)[j]].inputConnections
            && ReadInputs(cp, op.inputConnections.keys, op.inputConnections.values).Success?
            && ReadInputs(cp, op.inputConnections.keys, op.inputConnections.values) ==
               ReadInputs(cq, op.inputConnections.keys, op.inputConnections.values)
  {
    var order := ExecutionOrder(p, env);
    var id := order[j];
    var opP := cp.operations.values[id];
    EraseRunFacts(p, q);
    EraseOpFacts(p.operations.values[id], q.operations.values[id]);
    forall name | name in opP.inputConnections.keys && name in opP.inputConnections.values
      ensures ReadConnection(cp, opP.inputConnections.values[name]).Success?
      ensures ReadConnection(cp, opP.inputConnections.values[name]) == ReadConnection(cq, opP.inputConnections.values[name])
    {
      var c := opP.inputConnections.values[name];
      assert ReadsEarlier(c, order[..j]);
      if c.FromOperation? {
        var l :| 0 <= l < j && order[l] == c.oc.from;
      }
    }
    ReadInputsCongruent(cp, cq, opP.inputConnections.keys, opP.inputConnections.values);
  }

  /** The operation at step `j` has the same outcome in both processes, and when it
      succeeds it computes the same outputs. */
  lemma {:induction false} SameStep(p: Process, q: Process, inputs: Values, env: Env, cp: Process, cq: Process, j: nat)
    requires InStep(p, q, inputs, env, cp, cq, j) && j < |ExecutionOrder(p, env)|
    ensures var id := ExecutionOrder(p, env)[j];
            && SameOutcome(RunOperation(p, cp, id, env), RunOperation(q, cq, id, env))
            && (RunOperation(p, cp, id, env).Success? ==>
                  RunOperation(p, cp, id, env).value.operations.values[id].currentOutputs ==
                  RunOperation(q, cq, id, env).value.operations.values[id].currentOutputs)
    decreases p, 0
  {
    var order := ExecutionOrder(p, env);
    var id := order[j];
    var opP := cp.operations.values[id];
    SameStepReads(p, q, inputs, env, cp, cq, j);
    EraseRunFacts(p, q);
    EraseOpFacts(p.operations.values[id], q.operations.values[id]);
    var values := ReadInputs(cp, opP.inputConnections.keys, opP.inputConnections.values).value;
    if opP.ProcessOp? {
      SameScheduleSameOutputs(p.operations.values[id].process, q.operations.values[id].process, values, env);
      ProcessOperationPerformsRun(p, cp, id, values, env);
      ProcessOperationPerformsRun(q, cq, id, values, env);
    }
  }

  /** After step `j` in both processes the invariant holds at `j + 1`. */
  lemma SameStepAdvances(p: Process, q: Process, inputs: Values, env: Env, cp: Process, cq: Process, j: nat)
    requires InStep(p, q, inputs, env, cp, cq, j) && j < |ExecutionOrder(p, env)|
    requires var id := ExecutionOrder(p, env)[j];
             && RunOperation(p, cp, id, env).Success?
             && RunOperation(q, cq, id, env).Success?
             && RunOperation(p, cp, id, env).value.operations.values[id].currentOutputs ==
                RunOperation(q, cq, id, env).value.operations.values[id].currentOutputs
    ensures var id := ExecutionOrder(p, env)[j];
            InStep(p, q, inputs, env, RunOperation(p, cp, id, env).value, RunOperation(q, cq, id, env).value, j + 1)
  {
    var order := ExecutionOrder(p, env);
    var id := order[j];
    forall l | 0 <= l < |order| && l != j
      ensures order[l] != id
    {
    }
  }

  /** The loop form of `SameScheduleSameOutputs`. */
  lemma {:induction false} SameOutputsLoop(p: Process, q: Process, inputs: Values, env: Env, cp: Process, cq: Process, j: nat)
    requires InStep(p, q, inputs, env, cp, cq, j)
    ensures var order := ExecutionOrder(p, env);
            SameOutcome(RunOperations(p, cp, order, j, env), RunOperations(q, cq, order, j, env))
    ensures var order := ExecutionOrder(p, env);
            RunOperations(p, cp, order, j, env).Success? ==> forall l :: 0 <= l < |order| ==>
                 && order[l] in RunOperations(p, cp, order, j, env).value.operations.values
                 && order[l] in RunOperations(q, cq, order, j, env).value.operations.values
                 && RunOperations(p, cp, order, j, env).value.operations.values[order[l]].currentOutputs.Some?
                 && RunOperations(p, cp, order, j, env).value.operations.values[order[l]].currentOutputs ==
                    RunOperations(q, cq, order, j, env).value.operations.values[order[l]].currentOutputs
    decreases p, 1, |ExecutionOrder(p, env)| - j
  {
    var order := ExecutionOrder(p, env);
    if j < |order| {
      var id := order[j];
      SameStep(p, q, inputs, env, cp, cq, j);
      var stepP := RunOperation(p, cp, id, env);
      var stepQ := RunOperation(q, cq, id, env);
      if stepP.Failure? {
        assert RunOperations(p, cp, order, j, env) == Failure(stepP.error);
        assert RunOperations(q, cq, order, j, env) == Failure(stepP.error);
      } else {
        var nextP := stepP.value;
        var nextQ := stepQ.value;
        SameStepAdvances(p, q, inputs, env, cp, cq, j);
        SameOutputsLoop(p, q, inputs, env, nextP, nextQ, j + 1);
        assert RunOperations(p, cp, order, j, env) == RunOperations(p, nextP, order, j + 1, env);
        assert RunOperations(q, cq, order, j, env) == RunOperations(q, nextQ, order, j + 1, env);
      }
    } else {
      assert RunOperations(p, cp, order, j, env) == Success(cp);
      assert RunOperations(q, cq, order, j, env) == Success(cq);
    }
  }

  /** Determinism: after a successful run in a sound order, running the process a second
      time, on the same inputs, succeeds and gives the same outputs. */
  lemma RunIsRepeatable(p: Process, inputs: Values, env: Env)
    requires Ready(p, env)
    requires Run(p, inputs, env).Success?
    ensures var q := Run(p, inputs, env).value.1;
            Run(q, inputs, env).Success? && Run(q, inputs, env).value.0 == Run(p, inputs, env).value.0
  {
    var q := Run(p, inputs, env).value.1;
    RunKeepsSchedule(p, inputs, env);
    SameScheduleSameOutputs(p, q, inputs, env);
  }
}
