/**
 * The pipeline (forza.go): a task list that grows by appending, a chain that threads each
 * task's result into the next, and a sequential run that collects results until the first
 * failure. Task functions are oracles; a nil task is `None`. The Go context and the
 * optional logger only carry cancellation and debug output and are not modelled.
 */
module Forza {
  import opened Base
  import opened Errors

  /** What a task returns: Go's `(string, error)` pair. */
  datatype TaskResult = TaskResult(result: string, err: Option<Error>)

  /** A TaskChainFn: called with no context argument, or with one. */
  type TaskChainFn = seq<string> -> TaskResult

  /** A task slot: `None` is a nil function value. */
  type Task = Option<TaskChainFn>

  /** The error for a nil task at index i. */
  function NilTaskError(i: nat): Error
  {
    Annotated(NilTask, "task at index " + NatToString(i))
  }

  /** The chain's error for task i (0-based) failing: the task's text only, after "task i+1 failed: ". */
  function InterruptedError(i: nat, err: Error): Error
  {
    Annotated(ChainInterrupted, "task " + NatToString(i + 1) + " failed: " + Message(err))
  }

  /** How far a chain got: its result so far and how many task functions it called. */
  datatype ChainState = ChainState(result: Result<string, Error>, called: nat)

  /** The chain over `tasks`, one task at a time from the front. */
  function ChainFold(tasks: seq<Task>): ChainState
  {
    if tasks == [] then ChainState(Ok(""), 0)
    else
      var prior := ChainFold(tasks[..|tasks| - 1]);
      var i := |tasks| - 1;
      if prior.result.Err? then prior
      else if tasks[i].None? then ChainState(Err(NilTaskError(i)), prior.called)
      else
        var r := tasks[i].value(if i == 0 then [] else [prior.result.value]);
        if r.err.Some? then ChainState(Err(InterruptedError(i, r.err.value)), prior.called + 1)
        else ChainState(Ok(r.result), prior.called + 1)
  }

  /**
   * An independent reading of the chain: run task k on the previous result `acc` (no
   * argument for the first task) and continue with its result.
   */
  function Pipe(tasks: seq<Task>, k: nat, acc: string): ChainState
    requires k <= |tasks|
    decreases |tasks| - k
  {
    if k == |tasks| then ChainState(Ok(acc), k)
    else if tasks[k].None? then ChainState(Err(NilTaskError(k)), k)
    else
      var r := tasks[k].value(if k == 0 then [] else [acc]);
      if r.err.Some? then ChainState(Err(InterruptedError(k, r.err.value)), k + 1)
      else Pipe(tasks, k + 1, r.result)
  }

  /** A chain that has failed on a prefix has failed on the whole list, the same way. */
  lemma {:induction false} ChainErrPersists(tasks: seq<Task>, j: nat)
    requires j <= |tasks|
    requires ChainFold(tasks[..j]).result.Err?
    ensures ChainFold(tasks) == ChainFold(tasks[..j])
    decreases |tasks| - j
  {
    if j < |tasks| {
      var init := tasks[..|tasks| - 1];
      assert init[..j] == tasks[..j];
      ChainErrPersists(init, j);
    } else {
      assert tasks[..j] == tasks;
    }
  }

  /** A chain that succeeded on the first j tasks has called each of them. */
  lemma {:induction false} ChainCalledAll(tasks: seq<Task>)
    ensures ChainFold(tasks).called <= |tasks|
    ensures ChainFold(tasks).result.Ok? ==> ChainFold(tasks).called == |tasks|
  {
    if tasks != [] {
      ChainCalledAll(tasks[..|tasks| - 1]);
    }
  }

  /** The fold from the front agrees with the pipe from the state it reached after j tasks. */
  lemma {:induction false} ChainFoldFrom(tasks: seq<Task>, j: nat)
    requires j <= |tasks|
    requires ChainFold(tasks[..j]).result.Ok?
    requires j == 0 ==> ChainFold(tasks[..j]).result.value == ""
    ensures ChainFold(tasks) == Pipe(tasks, j, ChainFold(tasks[..j]).result.value)
    decreases |tasks| - j
  {
    var prefix := tasks[..j];
    ChainCalledAll(prefix);
    if j == |tasks| {
      assert prefix == tasks;
    } else {
      var next := tasks[..j + 1];
      assert next[..j] == prefix;
      if ChainFold(next).result.Ok? {
        ChainFoldFrom(tasks, j + 1);
      } else {
        ChainErrPersists(tasks, j + 1);
      }
    }
  }

  /** The chain is the pipe from the first task with nothing before it. */
  lemma ChainIsPipe(tasks: seq<Task>)
    ensures ChainFold(tasks) == Pipe(tasks, 0, "")
  {
    assert tasks[..0] == [];
    ChainFoldFrom(tasks, 0);
  }

  /** An empty chain returns "" without error and calls nothing (forza_test.go:140-151). */
  lemma EmptyChain()
    ensures ChainFold([]) == ChainState(Ok(""), 0)
  {
  }

  /**
   * A nil task at index i, reached after every earlier task succeeded, ends the chain with
   * ErrNilTask naming i; the earlier i tasks were called, no later one.
   */
  lemma ChainNilTask(tasks: seq<Task>, i: nat)
    requires i < |tasks| && tasks[i].None?
    requires ChainFold(tasks[..i]).result.Ok?
    ensures ChainFold(tasks) == ChainState(Err(NilTaskError(i)), i)
    ensures Is(ChainFold(tasks).result.error, NilTask)
  {
    ChainCalledAll(tasks[..i]);
    assert tasks[..i + 1][..i] == tasks[..i];
    ChainErrPersists(tasks, i + 1);
  }

  /**
   * A task error at index i stops the chain with ErrChainInterrupted carrying the task's
   * text; i + 1 tasks were called. The task's own error is formatted, not wrapped, so no
   * sentinel of the task's error survives except through its text.
   */
  lemma ChainTaskError(tasks: seq<Task>, i: nat)
    requires i < |tasks| && tasks[i].Some?
    requires ChainFold(tasks[..i]).result.Ok?
    requires tasks[i].value(if i == 0 then [] else [ChainFold(tasks[..i]).result.value]).err.Some?
    ensures var err := tasks[i].value(if i == 0 then [] else [ChainFold(tasks[..i]).result.value]).err.value;
      && ChainFold(tasks) == ChainState(Err(InterruptedError(i, err)), i + 1)
      && (forall k :: Is(ChainFold(tasks).result.error, k) <==> k == ChainInterrupted)
  {
    ChainCalledAll(tasks[..i]);
    assert tasks[..i + 1][..i] == tasks[..i];
    ChainErrPersists(tasks, i + 1);
  }

  /**
   * The closure CreateChain returns, run once: the chain's result and how many task
   * functions it called.
   */
  method RunChain(tasks: seq<Task>) returns (result: Result<string, Error>, called: nat)
    ensures ChainState(result, called) == ChainFold(tasks)
  {
    var acc := "";
    called := 0;
    for i := 0 to |tasks|
      invariant ChainFold(tasks[..i]) == ChainState(Ok(acc), called)
    {
      assert tasks[..i + 1][..i] == tasks[..i];
      if tasks[i].None? {
        ChainErrPersists(tasks, i + 1);
        return Err(NilTaskError(i)), called;
      }
      var task := tasks[i].value;
      var r: TaskResult;
      if i == 0 {
        r := task([]);
      } else {
        r := task([acc]);
      }
      called := called + 1;
      if r.err.Some? {
        ChainErrPersists(tasks, i + 1);
        return Err(InterruptedError(i, r.err.value)), called;
      }
      acc := r.result;
    }
    assert tasks[..|tasks|] == tasks;
    result := Ok(acc);
  }

  /** The error RunSequentially reports for task i (0-based): the task's error, wrapped. */
  function TaskFailedError(i: nat, err: Error): Error
  {
    Prefixed("task " + NatToString(i + 1) + " failed: ", err)
  }

  /** How far a sequential run got: the results so far and the error that stopped it. */
  datatype SeqState = SeqState(results: seq<string>, err: Option<Error>)

  /** The sequential run over `tasks`, each called with no argument. */
  function SeqFold(tasks: seq<Task>): SeqState
  {
    if tasks == [] then SeqState([], None)
    else
      var prior := SeqFold(tasks[..|tasks| - 1]);
      var i := |tasks| - 1;
      if prior.err.Some? then prior
      else if tasks[i].None? then SeqState(prior.results, Some(NilTaskError(i)))
      else
        var r := tasks[i].value([]);
        if r.err.Some? then SeqState(prior.results, Some(TaskFailedError(i, r.err.value)))
        else SeqState(prior.results + [r.result], None)
  }

  /** A task that runs to completion on its own: not nil, and no error without an argument. */
  predicate Succeeds(t: Task)
  {
    t.Some? && t.value([]).err.None?
  }

  /**
   * A run succeeds exactly when every task does, and then returns one result per task, in
   * task order.
   */
  lemma {:induction false} SeqFoldSuccess(tasks: seq<Task>)
    ensures SeqFold(tasks).err.None? <==> forall i :: 0 <= i < |tasks| ==> Succeeds(tasks[i])
    ensures SeqFold(tasks).err.None? ==>
      |SeqFold(tasks).results| == |tasks|
      && forall i :: 0 <= i < |tasks| ==> SeqFold(tasks).results[i] == tasks[i].value([]).result
  {
    if tasks != [] {
      var init := tasks[..|tasks| - 1];
      SeqFoldSuccess(init);
      assert forall i :: 0 <= i < |init| ==> init[i] == tasks[i];
    }
  }

  /** A run that stopped on a prefix has stopped on the whole list, the same way. */
  lemma {:induction false} SeqErrPersists(tasks: seq<Task>, j: nat)
    requires j <= |tasks|
    requires SeqFold(tasks[..j]).err.Some?
    ensures SeqFold(tasks) == SeqFold(tasks[..j])
    decreases |tasks| - j
  {
    if j < |tasks| {
      var init := tasks[..|tasks| - 1];
      assert init[..j] == tasks[..j];
      SeqErrPersists(init, j);
    } else {
      assert tasks[..j] == tasks;
    }
  }

  /**
   * At the first task j that does not succeed, the run stops with exactly the results of
   * tasks 0..j-1: ErrNilTask naming j for a nil task, otherwise the task's error wrapped so
   * that `errors.Is` still finds every sentinel it carried.
   */
  lemma SeqFoldFirstFailure(tasks: seq<Task>, j: nat)
    requires j < |tasks| && !Succeeds(tasks[j])
    requires forall i :: 0 <= i < j ==> Succeeds(tasks[i])
    ensures SeqFold(tasks).results == SeqFold(tasks[..j]).results
    ensures |SeqFold(tasks).results| == j
    ensures forall i :: 0 <= i < j ==> Succeeds(tasks[i]) && SeqFold(tasks).results[i] == tasks[i].value([]).result
    ensures tasks[j].None? ==> SeqFold(tasks).err == Some(NilTaskError(j))
    ensures tasks[j].Some? ==> SeqFold(tasks).err == Some(TaskFailedError(j, tasks[j].value([]).err.value))
    ensures tasks[j].Some? ==> forall k :: Is(SeqFold(tasks).err.value, k) <==> Is(tasks[j].value([]).err.value, k)
  {
    var prefix := tasks[..j];
    assert forall i :: 0 <= i < j ==> prefix[i] == tasks[i];
    SeqFoldSuccess(prefix);
    assert tasks[..j + 1][..j] == prefix;
    SeqErrPersists(tasks, j + 1);
  }

  /** The pipeline: its task list, only ever appended to. */
  class Pipeline {
    var tasks: seq<Task>

    /** NewPipeline: no tasks. */
    constructor ()
      ensures tasks == []
    {
      tasks := [];
    }

    /** AddTasks: appends in argument order; existing tasks keep their places. */
    method AddTasks(fns: seq<Task>)
      modifies this
      ensures tasks == old(tasks) + fns
      ensures tasks[..|old(tasks)|] == old(tasks)
    {
      tasks := tasks + fns;
      assert tasks[..|old(tasks)|] == old(tasks);
    }

    /** RunSequentially: the results and error of SeqFold over the current tasks. */
    method RunSequentially() returns (results: seq<string>, err: Option<Error>)
      ensures SeqState(results, err) == SeqFold(tasks)
    {
      results := [];
      err := None;
      for i := 0 to |tasks|
        invariant SeqFold(tasks[..i]) == SeqState(results, None)
      {
        assert tasks[..i + 1][..i] == tasks[..i];
        if tasks[i].None? {
          SeqErrPersists(tasks, i + 1);
          return results, Some(NilTaskError(i));
        }
        var r := tasks[i].value([]);
        if r.err.Some? {
          SeqErrPersists(tasks, i + 1);
          return results, Some(TaskFailedError(i, r.err.value));
        }
        results := results + [r.result];
      }
      assert tasks[..|tasks|] == tasks;
    }
  }
}
