/** What a run of a process guarantees: the cached order, why outputs are cleared before
    anything runs, and when a run cannot fail. */
module RunProperties {
  import opened Wrappers
  import opened OrderedMaps
  import opened Model
  import opened Processes

  // The cached order

  /** A successful run caches the order it used, so a second run with no `addOperation`
      in between uses the same order and leaves it cached. */
  lemma SecondRunUsesSameOrder(p: Process, first: Values, second: Values, env: Env)
    requires Run(p, first, env).Success?
    ensures var q := Run(p, first, env).value.1;
            && q.sortedOperations == Some(ExecutionOrder(p, env))
            && ExecutionOrder(q, env) == ExecutionOrder(p, env)
            && (Run(q, second, env).Success? ==> Run(q, second, env).value.1.sortedOperations == q.sortedOperations)
  {
  }

  /** After `addOperation` the next run asks the resolver again, handing it the operations
      with the new one among them. */
  lemma AddOperationInvalidatesOrder(p: Process, op: Operation, env: Env)
    ensures ExecutionOrder(AddOperation(p, op), env) == env.resolve(AddOperation(p, op).operations)
    ensures op.id in AddOperation(p, op).operations.values
  {
  }

  // Reading an operation that has not run yet

  /** The connection reads an output of operation `src`. */
  predicate IsReadOf(c: Connection, src: OperationId) {
    c.FromOperation? && c.oc.from == src
  }

  /** Some input of `op` is wired to an output of operation `src`. */
  ghost predicate ReadsFrom(op: Operation, src: OperationId) {
    exists name :: name in op.inputConnections.keys && name in op.inputConnections.values &&
      IsReadOf(op.inputConnections.values[name], src)
  }

  /** Outputs are cleared before anything runs, so an operation that reads an operation
      scheduled later (or at its own position) sees no outputs and the run fails, whatever
      outputs an earlier run left behind. */
  lemma ForwardReadFails(p: Process, inputs: Values, env: Env, i: nat, src: OperationId)
    requires var order := ExecutionOrder(p, env);
             && i < |order|
             && order[i] in p.operations.values && src in p.operations.values
             && ReadsFrom(p.operations.values[order[i]], src)
             && src in order && src !in order[..i]
    ensures Run(p, inputs, env).Failure?
  {
    var order := ExecutionOrder(p, env);
    var started := p.(currentInputs := Some(inputs), sortedOperations := Some(order),
                      operations := ClearOutputs(p.operations, order));
    assert order[..i] == order[0..i];
    ForwardReadFailsFrom(p, started, order, 0, env, i, src);
  }

  /** The loop form of `ForwardReadFails`: from step `j` on, nothing runs `src` before the
      step `i` that reads it. */
  lemma {:induction false} ForwardReadFailsFrom(
    p0: Process, cur: Process, order: seq<OperationId>, j: nat, env: Env, i: nat, src: OperationId)
    requires j <= i < |order|
    requires EraseRun(cur) == EraseRun(p0)
    requires order[i] in cur.operations.values && src in cur.operations.values
    requires ReadsFrom(cur.operations.values[order[i]], src)
    requires src !in order[j..i]
    requires cur.operations.values[src].currentOutputs.None?
    ensures RunOperations(p0, cur, order, j, env).Failure?
    decreases i - j
  {
    var id := order[j];
    if id in cur.operations.values {
      var op := cur.operations.values[id];
      if j == i {
        var name :| name in op.inputConnections.keys && name in op.inputConnections.values &&
                    IsReadOf(op.inputConnections.values[name], src);
        assert ReadConnection(cur, op.inputConnections.values[name]).Failure?;
      } else {
        assert src != id by {
          assert order[j..i][0] == id;
        }
        var step := RunOperation(p0, cur, id, env);
        if step.Success? {
          assert order[j + 1..i] == order[j..i][1..];
          ForwardReadFailsFrom(p0, step.value, order, j + 1, env, i, src);
        }
      }
    }
  }

  // A sound order runs to completion

  /** A connection read at some step is resolved when it reads an operation run earlier
      or an input of the process. */
  predicate ReadsEarlier(c: Connection, earlier: seq<OperationId>) {
    c.FromOperation? ==> c.oc.from in earlier
  }

  /** The order lists only operations the process holds, each at most once; every input
      connection of a listed operation reads an operation listed before it or a process
      input; every output connection reads a listed operation. This is what the resolver
      is relied on to produce. */
  ghost predicate SoundOrder(p: Process, order: seq<OperationId>) {
    && Distinct(order)
    && (forall i :: 0 <= i < |order| ==> order[i] in p.operations.values)
    && (forall i, name :: 0 <= i < |order| && name in p.operations.values[order[i]].inputConnections.values ==>
          ReadsEarlier(p.operations.values[order[i]].inputConnections.values[name], order[..i]))
    && (forall name :: name in p.outputConnections.values ==> p.outputConnections.values[name].from in order)
  }

  /** `e` is an error that a function operation of `p`, or of a process nested in it,
      throws on some inputs with its own config. */
  ghost predicate Throws(p: Process, env: Env, e: Error)
    decreases p
  {
    || (exists k, values :: k in p.operations.values && p.operations.values[k].FunctionOp? &&
          env.performRun(p.operations.values[k].functionToRun, values, p.operations.values[k].config) == Failure(e))
    || (exists k :: k in p.operations.values && p.operations.values[k].ProcessOp? &&
          Throws(p.operations.values[k].process, env, e))
  }

  /** The order a run of `p` would use is sound, and so, recursively, is that of every
      nested process. */
  ghost predicate Ready(p: Process, env: Env)
    decreases p
  {
    && SoundOrder(p, ExecutionOrder(p, env))
    && forall k :: k in p.operations.values && p.operations.values[k].ProcessOp? ==>
         Ready(p.operations.values[k].process, env)
  }

  /** With a sound order no read meets an unresolved output or a missing input, so the
      engine itself never fails: the run succeeds, leaving every listed operation with
      resolved outputs, or fails with an error one of its functions throws. */
  lemma {:induction false} ReadyRunSucceeds(p: Process, inputs: Values, env: Env)
    requires Ready(p, env)
    ensures Run(p, inputs, env).Success? || Throws(p, env, Run(p, inputs, env).error)
    ensures Run(p, inputs, env).Success? ==>
              var order := ExecutionOrder(p, env);
              forall l :: 0 <= l < |order| ==>
                && order[l] in Run(p, inputs, env).value.1.operations.values
                && Run(p, inputs, env).value.1.operations.values[order[l]].currentOutputs.Some?
    decreases p, 1
  {
    var order := ExecutionOrder(p, env);
    var started := p.(currentInputs := Some(inputs), sortedOperations := Some(order),
                      operations := ClearOutputs(p.operations, order));
    ReadyLoopSucceeds(p, inputs, env, started, 0);
    var loop := RunOperations(p, started, order, 0, env);
    if loop.Success? {
      FinishSucceeds(p, inputs, env, loop.value);
    } else {
      assert Run(p, inputs, env) == Failure(loop.error);
    }
  }

  /** Once the loop of a run in a sound order has resolved every listed operation, the
      outputs can be read and the run succeeds with the state the loop left. */
  lemma FinishSucceeds(p: Process, inputs: Values, env: Env, ran: Process)
    requires Ready(p, env)
    requires var order := ExecutionOrder(p, env);
             var started := p.(currentInputs := Some(inputs), sortedOperations := Some(order),
                               operations := ClearOutputs(p.operations, order));
             RunOperations(p, started, order, 0, env) == Success(ran)
    requires var order := ExecutionOrder(p, env);
             forall l :: 0 <= l < |order| ==>
               order[l] in ran.operations.values && ran.operations.values[order[l]].currentOutputs.Some?
    ensures Run(p, inputs, env).Success? && Run(p, inputs, env).value.1 == ran.(currentInputs := None)
  {
    var order := ExecutionOrder(p, env);
    var finished := ran.(currentInputs := None);
    var conns := map k | k in finished.outputConnections.values :: FromOperation(finished.outputConnections.values[k]);
    forall k | k in finished.outputConnections.keys && k in conns
      ensures ReadConnection(finished, conns[k]).Success?
    {
      var from := finished.outputConnections.values[k].from;
      var l :| 0 <= l < |order| && order[l] == from;
    }
  }

  /** The loop form of `ReadyRunSucceeds`: steps before `j` have resolved outputs, steps
      from `j` on are as the first loop of `run` left them. */
  lemma {:induction false} ReadyLoopSucceeds(p: Process, inputs: Values, env: Env, cur: Process, j: nat)
    requires Ready(p, env)
    requires j <= |ExecutionOrder(p, env)|
    requires EraseRun(cur) == EraseRun(p)
    requires cur.currentInputs == Some(inputs)
    requires var order := ExecutionOrder(p, env);
             forall l :: 0 <= l < j ==>
               order[l] in cur.operations.values && cur.operations.values[order[l]].currentOutputs.Some?
    requires var order := ExecutionOrder(p, env);
             forall l :: j <= l < |order| ==>
               && order[l] in cur.operations.values
               && cur.operations.values[order[l]] == p.operations.values[order[l]].WithCurrentOutputs(None)
    ensures var r := RunOperations(p, cur, ExecutionOrder(p, env), j, env);
            r.Success? || Throws(p, env, r.error)
    ensures var order := ExecutionOrder(p, env);
            RunOperations(p, cur, order, j, env).Success? ==>
              forall l :: 0 <= l < |order| ==>
                && order[l] in RunOperations(p, cur, order, j, env).value.operations.values
                && RunOperations(p, cur, order, j, env).value.operations.values[order[l]].currentOutputs.Some?
    decreases p, 0, |ExecutionOrder(p, env)| - j
  {
    var order := ExecutionOrder(p, env);
    if j < |order| {
      var id := order[j];
      var op := cur.operations.values[id];
      forall name | name in op.inputConnections.keys && name in op.inputConnections.values
        ensures ReadConnection(cur, op.inputConnections.values[name]).Success?
      {
        var c := op.inputConnections.values[name];
        assert ReadsEarlier(c, order[..j]);
        if c.FromOperation? {
          var l :| 0 <= l < j && order[l] == c.oc.from;
        }
      }
      var values := ReadInputs(cur, op.inputConnections.keys, op.inputConnections.values).value;
      var step := RunOperation(p, cur, id, env);
      if op.ProcessOp? {
        ReadyRunSucceeds(p.operations.values[id].process, values, env);
        ProcessOperationPerformsRun(p, cur, id, values, env);
      }
      if step.Failure? {
        assert RunOperations(p, cur, order, j, env) == Failure(step.error);
        if op.ProcessOp? {
          assert Throws(p.operations.values[id].process, env, step.error);
        } else {
          assert env.performRun(p.operations.values[id].functionToRun, values, p.operations.values[id].config) == Failure(step.error);
        }
      } else {
        var next := step.value;
        forall l | 0 <= l < |order| && l != j
          ensures order[l] != id
        {
        }
        ReadyLoopSucceeds(p, inputs, env, next, j + 1);
        assert RunOperations(p, cur, order, j, env) == RunOperations(p, next, order, j + 1, env);
      }
    }
  }
}
