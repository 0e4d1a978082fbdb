/**
 * pipelines/sequential.py: runs a batch of tasks one after the other in the
 * calling process and times the whole batch with one Timer.
 *
 * The clock is the sequence of time.time() readings the pipeline takes:
 * reading 0 starts the timer, reading 1 is the total runtime, and reading 2
 * belongs to the progress message only.
 */
module SequentialPipeline {
  import opened Values
  import opened Averages
  import opened Timing

  /** One invocation task_func(*task_args_with_index) made by the loop. */
  datatype Call = Call(func: Workload, args: seq<Value>)

  /** The calls the loop makes for a task list when nothing raises. */
  function CallsFor(tasks: seq<Task>): (calls: seq<Call>)
    ensures |calls| == |tasks|
    ensures forall i :: 0 <= i < |tasks| ==>
      calls[i].func == tasks[i].func && calls[i].args == WithWorkIndex(tasks[i].args, i)
  {
    seq(|tasks|, i requires 0 <= i < |tasks| => Call(tasks[i].func, WithWorkIndex(tasks[i].args, i)))
  }

  /** What the i-th call of the loop does. */
  function Outcome(tasks: seq<Task>, run: Behaviour, i: nat): Completion
    requires i < |tasks|
  {
    run(tasks[i].func, WithWorkIndex(tasks[i].args, i))
  }

  /** The position of the first call that raises from position i on, or |tasks| if none does. */
  function FirstRaiseFrom(tasks: seq<Task>, run: Behaviour, i: nat): (j: nat)
    requires i <= |tasks|
    ensures i <= j <= |tasks|
    ensures forall k :: i <= k < j ==> Outcome(tasks, run, k).Returned?
    ensures j < |tasks| ==> Outcome(tasks, run, j).Raised?
    decreases |tasks| - i
  {
    if i == |tasks| then i
    else if Outcome(tasks, run, i).Raised? then i
    else FirstRaiseFrom(tasks, run, i + 1)
  }

  /** The position of the first raising call: every earlier call returned. */
  function FirstRaise(tasks: seq<Task>, run: Behaviour): (j: nat)
    ensures j <= |tasks|
    ensures forall k :: 0 <= k < j ==> Outcome(tasks, run, k).Returned?
    ensures j < |tasks| ==> Outcome(tasks, run, j).Raised?
  {
    FirstRaiseFrom(tasks, run, 0)
  }

  /** A raising call preceded only by returning ones is the first raise. */
  lemma {:induction false} FirstRaiseFromAt(tasks: seq<Task>, run: Behaviour, i: nat, j: nat)
    requires i <= j < |tasks|
    requires Outcome(tasks, run, j).Raised?
    requires forall k :: i <= k < j ==> Outcome(tasks, run, k).Returned?
    ensures FirstRaiseFrom(tasks, run, i) == j
    decreases j - i
  {
    if i < j {
      FirstRaiseFromAt(tasks, run, i + 1, j);
    }
  }

  /** Two behaviours that raise at the same calls have the same first raise. */
  lemma {:induction false} FirstRaiseFromAgrees(tasks: seq<Task>, run1: Behaviour, run2: Behaviour, i: nat)
    requires i <= |tasks|
    requires forall k :: i <= k < |tasks| ==>
      Outcome(tasks, run1, k).Raised? == Outcome(tasks, run2, k).Raised?
    ensures FirstRaiseFrom(tasks, run1, i) == FirstRaiseFrom(tasks, run2, i)
    decreases |tasks| - i
  {
    if i < |tasks| {
      FirstRaiseFromAgrees(tasks, run1, run2, i + 1);
    }
  }

  /**
   * What sequential_test_pipeline returns: the exception of the first raising
   * task; otherwise (0, total, total / len(tasks), total), where an empty
   * list divides by zero.
   */
  function SequentialRun(tasks: seq<Task>, run: Behaviour, clock: nat -> real): Result<Runtimes> {
    var j := FirstRaise(tasks, run);
    if j < |tasks| then Err(WorkloadError(Outcome(tasks, run, j).exception))
    else if |tasks| == 0 then Err(ZeroDivisionError)
    else
      var total := clock(1) - clock(0);
      Ok(Runtimes(0.0, total, total / (|tasks| as real), total))
  }

  /**
   * sequential_test_pipeline (pipelines/sequential.py:4-33). Besides the
   * tuple, `invoked` lists the calls actually made, in order: every call up
   * to and including the first that raises, and none after it.
   */
  method SequentialTestPipeline(tasks: seq<Task>, run: Behaviour, clock: nat -> real)
    returns (r: Result<Runtimes>, invoked: seq<Call>)
    ensures r == SequentialRun(tasks, run, clock)
    ensures var j := FirstRaise(tasks, run);
      invoked == CallsFor(tasks)[..if j < |tasks| then j + 1 else |tasks|]
  {
    var timer := new Timer(true, clock(0));
    invoked := [];
    for i := 0 to |tasks|
      invariant invoked == CallsFor(tasks)[..i]
      invariant forall k :: 0 <= k < i ==> Outcome(tasks, run, k).Returned?
      invariant timer.startTime == Some(clock(0))
    {
      var call := Call(tasks[i].func, WithWorkIndex(tasks[i].args, i));
      invoked := invoked + [call];
      var res := run(call.func, call.args);
      if res.Raised? {
        FirstRaiseFromAt(tasks, run, 0, i);
        return Err(WorkloadError(res.exception)), invoked;
      }
    }
    var total := timer.GetDuration(clock(1));
    if |tasks| == 0 {
      return Err(ZeroDivisionError), invoked;
    }
    var t := total.value;
    r := Ok(Runtimes(0.0, t, t / (|tasks| as real), t));
  }

  /**
   * The sequential pipeline succeeds exactly when the list is non-empty and
   * no task raises; a raise is reported as the first raising task's
   * exception, the empty list as a division by zero.
   */
  lemma SequentialOutcome(tasks: seq<Task>, run: Behaviour, clock: nat -> real)
    ensures SequentialRun(tasks, run, clock).Ok? <==>
      |tasks| > 0 && forall k :: 0 <= k < |tasks| ==> Outcome(tasks, run, k).Returned?
    ensures |tasks| == 0 ==> SequentialRun(tasks, run, clock) == Err(ZeroDivisionError)
    ensures forall j :: (0 <= j < |tasks| && Outcome(tasks, run, j).Raised? &&
        forall k :: 0 <= k < j ==> Outcome(tasks, run, k).Returned?) ==>
      SequentialRun(tasks, run, clock) == Err(WorkloadError(Outcome(tasks, run, j).exception))
  {
    forall j | 0 <= j < |tasks| && Outcome(tasks, run, j).Raised? &&
      (forall k :: 0 <= k < j ==> Outcome(tasks, run, k).Returned?)
      ensures FirstRaise(tasks, run) == j
    {
      FirstRaiseFromAt(tasks, run, 0, j);
    }
  }

  /**
   * The tuple has the sequential shape: no dispatch phase, wait equal to the
   * total, and the per-task figure spreads the total evenly over the tasks.
   */
  lemma SequentialShape(tasks: seq<Task>, run: Behaviour, clock: nat -> real)
    requires SequentialRun(tasks, run, clock).Ok?
    ensures var t := SequentialRun(tasks, run, clock).value;
      t.dispatch == 0.0 && t.wait == t.total && t.total == clock(1) - clock(0) &&
      t.perTask * (|tasks| as real) == t.total
  {
    var n := |tasks| as real;
    var total := clock(1) - clock(0);
    assert (total / n) * n == total;
  }

  /**
   * Task return values are discarded: two behaviours that raise the same
   * exceptions at the same calls give the same result, whatever they return.
   */
  lemma ReturnValuesIgnored(tasks: seq<Task>, run1: Behaviour, run2: Behaviour, clock: nat -> real)
    requires forall k :: 0 <= k < |tasks| ==>
      Outcome(tasks, run1, k).Raised? == Outcome(tasks, run2, k).Raised?
    requires forall k :: 0 <= k < |tasks| && Outcome(tasks, run1, k).Raised? ==>
      Outcome(tasks, run1, k).exception == Outcome(tasks, run2, k).exception
    ensures SequentialRun(tasks, run1, clock) == SequentialRun(tasks, run2, clock)
  {
    FirstRaiseFromAgrees(tasks, run1, run2, 0);
  }

  /** With a clock that never runs backwards every reported duration is non-negative. */
  lemma SequentialDurationsNonNegative(tasks: seq<Task>, run: Behaviour, clock: nat -> real)
    requires clock(0) <= clock(1)
    requires SequentialRun(tasks, run, clock).Ok?
    ensures var t := SequentialRun(tasks, run, clock).value;
      t.dispatch >= 0.0 && t.wait >= 0.0 && t.perTask >= 0.0 && t.total >= 0.0
  {
    var n := |tasks| as real;
    var total := clock(1) - clock(0);
    assert (total / n) * n == total;
  }
}
