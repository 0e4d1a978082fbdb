/**
 * pipelines/pool.py: submits a batch to an EasyPool of the requested size,
 * waits for every result and times the dispatch, the wait and the whole run.
 *
 * The clock is the sequence of time.time() readings the pipeline takes:
 * 0 starts the main timer, 1 is read for the dispatch message, 2 is the
 * dispatch runtime, 3 starts the collection timer, 4 is read for the wait
 * message, 5 is the wait runtime, 6 is read for the total message and 7 is
 * the total runtime.
 */
module PoolPipeline {
  import opened Values
  import opened Averages
  import opened Timing
  import opened EasyPools

  /** The handles the submission loop creates: task i with index i and args + [i]. */
  function Submissions(tasks: seq<Task>): (subs: seq<IndexedTask>)
    ensures |subs| == |tasks|
    ensures forall i :: 0 <= i < |tasks| ==>
      subs[i] == IndexedTask(i, tasks[i].func, WithWorkIndex(tasks[i].args, i))
  {
    seq(|tasks|, i requires 0 <= i < |tasks| => IndexedTask(i, tasks[i].func, WithWorkIndex(tasks[i].args, i)))
  }

  /** [runtime for _, _, runtime in results]. */
  function RuntimesOf(results: seq<TaskResult>): (xs: seq<real>)
    ensures |xs| == |results|
  {
    seq(|results|, i requires 0 <= i < |results| => results[i].runtime)
  }

  /** The runtime each of the first n workers measured, in submission order. */
  function WorkerRuntimes(settle: nat -> Settlement, n: nat): (xs: seq<real>)
    ensures |xs| == n
  {
    seq(n, i requires 0 <= i < n => settle(i).ended - settle(i).began)
  }

  /**
   * What pool_test_pipeline returns: Pool refuses a size below one; a failing
   * get propagates; an empty batch divides by zero when averaging; otherwise
   * (dispatch, wait, mean worker runtime, total).
   */
  function PoolRun(poolSize: int, tasks: seq<Task>, run: Behaviour, settle: nat -> Settlement, clock: nat -> real): Result<Runtimes> {
    if poolSize < 1 then Err(ValueError)
    else Summary(GetResultsOf(Submissions(tasks), settle, run, None), clock)
  }

  /** The tuple built from what get_results returned: a failing get propagates, an empty list divides by zero. */
  function Summary(collected: Result<seq<TaskResult>>, clock: nat -> real): Result<Runtimes> {
    var results :- collected;
    var avg :- AvgFloat(RuntimesOf(results));
    Ok(Runtimes(clock(2) - clock(0), clock(5) - clock(3), avg, clock(7) - clock(0)))
  }

  /**
   * The submission loop (pipelines/pool.py:50-53): one add_task per task, in
   * list order, task i under index i with args + [i].
   */
  method SubmitBatch(pool: EasyPool, tasks: seq<Task>)
    requires pool.live && pool.pending == []
    modifies pool
    ensures pool.live && pool.pending == Submissions(tasks)
  {
    for i := 0 to |tasks|
      invariant pool.live
      invariant pool.pending == Submissions(tasks)[..i]
    {
      var _ := pool.AddTask(i, tasks[i].func, WithWorkIndex(tasks[i].args, i));
    }
  }

  /**
   * pool_test_pipeline (pipelines/pool.py:26-74). `submitted` is the pending
   * list the pool held when collection began; `released` and `leftover` are
   * the pool's state when the pipeline returns: the explicit `del easy_pool`
   * has shut it down exactly when a tuple is returned, and its pending list
   * was emptied exactly when get_results succeeded. Without a pool (a size
   * below one) both are the empty defaults.
   */
  method PoolTestPipeline(poolSize: int, tasks: seq<Task>, run: Behaviour, settle: nat -> Settlement, clock: nat -> real)
    returns (r: Result<Runtimes>, submitted: seq<IndexedTask>, released: bool, leftover: seq<IndexedTask>)
    ensures r == PoolRun(poolSize, tasks, run, settle, clock)
    ensures submitted == if poolSize < 1 then [] else Submissions(tasks)
    ensures released <==> r.Ok?
    ensures leftover == if GetResultsOf(submitted, settle, run, None).Ok? then [] else submitted
  {
    var timer := new Timer(true, clock(0));
    var created := EasyPool.Create(poolSize, None);
    if created.Err? {
      return Err(created.error), [], false, [];
    }
    var pool := created.value;
    SubmitBatch(pool, tasks);
    submitted := pool.pending;
    assert submitted == Submissions(tasks);
    var init := timer.GetDuration(clock(2));
    r := CollectAndSummarize(pool, timer, init.value, run, settle, clock);
    released, leftover := !pool.live, pool.pending;
  }

  /**
   * The second half of pool_test_pipeline (pipelines/pool.py:56-74): time
   * get_results, average the worker runtimes, release the pool and read the
   * total; `dispatch` is the dispatch runtime already measured. The pool is
   * shut down exactly when a tuple is returned, and its pending list is
   * emptied exactly when get_results succeeds.
   */
  method CollectAndSummarize(pool: EasyPool, timer: Timer, dispatch: real, run: Behaviour, settle: nat -> Settlement, clock: nat -> real)
    returns (r: Result<Runtimes>)
    requires pool.live && pool.timeout == None
    requires timer.startTime == Some(clock(0)) && dispatch == clock(2) - clock(0)
    modifies pool
    ensures r == Summary(GetResultsOf(old(pool.pending), settle, run, None), clock)
    ensures pool.live <==> !r.Ok?
    ensures pool.pending == if GetResultsOf(old(pool.pending), settle, run, None).Ok? then [] else old(pool.pending)
  {
    var collectTimer := new Timer(true, clock(3));
    var results := pool.GetResults(run, settle);
    if results.Err? {
      return Err(results.error);
    }
    var work := collectTimer.GetDuration(clock(5));
    var avg := AvgFloat(RuntimesOf(results.value));
    if avg.Err? {
      return Err(avg.error);
    }
    pool.Finalize();
    var total := timer.GetDuration(clock(7));
    assert work.value == clock(5) - clock(3);
    r := Ok(Runtimes(dispatch, work.value, avg.value, total.value));
  }

  /**
   * The results come back with indices exactly 0..n-1 in ascending order,
   * result i being what task i returned and its runtime what worker i
   * measured.
   */
  lemma PoolResultIndices(tasks: seq<Task>, run: Behaviour, settle: nat -> Settlement)
    requires GetResultsOf(Submissions(tasks), settle, run, None).Ok?
    ensures var rs := GetResultsOf(Submissions(tasks), settle, run, None).value;
      |rs| == |tasks| &&
      forall i :: 0 <= i < |rs| ==>
        rs[i].index == i &&
        run(tasks[i].func, WithWorkIndex(tasks[i].args, i)) == Returned(rs[i].value) &&
        rs[i].runtime == settle(i).ended - settle(i).began
  {
    var subs := Submissions(tasks);
    CollectedAll(subs, |subs|, settle, run, None);
    var ts := Collected(subs, |subs|, settle, run, None).value;
    assert SortedByIndex(ts);
    SortByIndexOfSorted(ts);
  }

  /**
   * The pool is built without a timeout, so collection never gives up: the
   * pipeline can fail with ValueError, a task's exception or a division by
   * zero, never with TimeoutError.
   */
  lemma PoolNeverTimesOut(poolSize: int, tasks: seq<Task>, run: Behaviour, settle: nat -> Settlement, clock: nat -> real)
    ensures PoolRun(poolSize, tasks, run, settle, clock) != Err(TimeoutError)
  {
    var subs := Submissions(tasks);
    NoTimeoutWithoutLimit(subs, |subs|, settle, run);
  }

  /**
   * The pooled pipeline succeeds exactly when the pool size is positive, the
   * batch is non-empty and no task raises.
   */
  lemma PoolOutcome(poolSize: int, tasks: seq<Task>, run: Behaviour, settle: nat -> Settlement, clock: nat -> real)
    ensures PoolRun(poolSize, tasks, run, settle, clock).Ok? <==>
      poolSize >= 1 && |tasks| > 0 &&
      forall i :: 0 <= i < |tasks| ==> run(tasks[i].func, WithWorkIndex(tasks[i].args, i)).Returned?
    ensures poolSize < 1 ==> PoolRun(poolSize, tasks, run, settle, clock) == Err(ValueError)
    ensures poolSize >= 1 && |tasks| == 0 ==> PoolRun(poolSize, tasks, run, settle, clock) == Err(ZeroDivisionError)
  {
    var subs := Submissions(tasks);
    CollectedAll(subs, |subs|, settle, run, None);
    forall k | 0 <= k < |tasks|
      ensures Get(subs[k], settle(k), run, None).Ok? <==> run(tasks[k].func, WithWorkIndex(tasks[k].args, k)).Returned?
    {
    }
    var collected := GetResultsOf(subs, settle, run, None);
    if poolSize >= 1 && collected.Ok? {
      assert |RuntimesOf(collected.value)| == |tasks|;
    }
  }

  /**
   * The mean per-task runtime times the batch size is the sum of the
   * runtimes the workers measured, task by task.
   */
  lemma PoolPerTaskAverage(poolSize: int, tasks: seq<Task>, run: Behaviour, settle: nat -> Settlement, clock: nat -> real)
    requires PoolRun(poolSize, tasks, run, settle, clock).Ok?
    ensures PoolRun(poolSize, tasks, run, settle, clock).value.perTask * (|tasks| as real) ==
      Averages.Sum(WorkerRuntimes(settle, |tasks|))
  {
    var collected := GetResultsOf(Submissions(tasks), settle, run, None);
    assert PoolRun(poolSize, tasks, run, settle, clock) == Summary(collected, clock);
    SummaryAverage(collected, clock);
    ResultRuntimes(tasks, run, settle);
  }

  /** The runtimes collected from a successful batch are the workers' own, in task order. */
  lemma ResultRuntimes(tasks: seq<Task>, run: Behaviour, settle: nat -> Settlement)
    requires GetResultsOf(Submissions(tasks), settle, run, None).Ok?
    ensures RuntimesOf(GetResultsOf(Submissions(tasks), settle, run, None).value) == WorkerRuntimes(settle, |tasks|)
  {
    PoolResultIndices(tasks, run, settle);
    var xs := RuntimesOf(GetResultsOf(Submissions(tasks), settle, run, None).value);
    var ys := WorkerRuntimes(settle, |tasks|);
    assert forall i :: 0 <= i < |xs| ==> xs[i] == ys[i];
  }

  /** A tuple's per-task figure times the number of results is their total runtime. */
  lemma SummaryAverage(collected: Result<seq<TaskResult>>, clock: nat -> real)
    requires Summary(collected, clock).Ok?
    ensures collected.Ok?
    ensures Summary(collected, clock).value.perTask * (|collected.value| as real) == Averages.Sum(RuntimesOf(collected.value))
  {
    var xs := RuntimesOf(collected.value);
    assert Summary(collected, clock).value.perTask == AvgFloat(xs).value;
  }

  /**
   * Dispatch and total share the first reading and wait is measured in
   * between, so with a clock that never runs backwards the total covers
   * dispatch plus wait.
   */
  lemma PoolTotalCoversPhases(poolSize: int, tasks: seq<Task>, run: Behaviour, settle: nat -> Settlement, clock: nat -> real)
    requires forall i, j :: 0 <= i <= j <= 7 ==> clock(i) <= clock(j)
    requires PoolRun(poolSize, tasks, run, settle, clock).Ok?
    ensures var t := PoolRun(poolSize, tasks, run, settle, clock).value;
      t.dispatch >= 0.0 && t.wait >= 0.0 && t.total >= t.dispatch + t.wait
  {
    assert clock(0) <= clock(2) <= clock(3) <= clock(5) <= clock(7);
  }

  /**
   * Both pipelines hand task i the same arguments: its own list with i
   * appended, the list itself left as it was.
   */
  lemma SubmittedArgumentsExtendTask(tasks: seq<Task>, i: nat)
    requires i < |tasks|
    ensures var a := Submissions(tasks)[i].args;
      a[..|tasks[i].args|] == tasks[i].args && a[|tasks[i].args|] == IntV(i) && |a| == |tasks[i].args| + 1
  {
  }
}
