/**
 * easy_pool/easy_pool.py: the wrapper around a worker pool. Tasks are tagged
 * with an index when they are submitted; get_results waits for every pending
 * handle in submission order and sorts the triples it gets back by index.
 *
 * The workers themselves are not modelled. What a worker does with a task is
 * given by the workload behaviour `run`; what the collector sees of each
 * handle (the worker's clock readings around the call, and whether the result
 * was ready within the timeout) is given by a Settlement per pending position.
 */
module EasyPools {
  import opened Values

  /** IndexedTask (easy_pool.py:13-21). */
  datatype IndexedTask = IndexedTask(index: int, func: Workload, args: seq<Value>)

  /** The triple (index, result, runtime) a worker hands back. */
  datatype TaskResult = TaskResult(index: int, value: Value, runtime: real)

  /**
   * What the collector observes of one pending handle: the worker's clock
   * readings when it started and finished the task, and whether the outcome
   * was ready before the timeout expired.
   */
  datatype Settlement = Settlement(began: real, ended: real, inTime: bool)

  /**
   * process_indexed_task (easy_pool.py:48-52): runs the task between two
   * readings of the worker's clock and reports the task's own index, the
   * function's result and the elapsed time; an exception of the function
   * propagates.
   */
  function ProcessIndexedTask(task: IndexedTask, run: Behaviour, began: real, ended: real): (r: Result<TaskResult>)
    ensures r.Ok? <==> run(task.func, task.args).Returned?
    ensures r.Ok? ==> r.value.index == task.index && run(task.func, task.args) == Returned(r.value.value)
    ensures r.Ok? ==> r.value.runtime + began == ended
    ensures r.Err? ==> r.error == WorkloadError(run(task.func, task.args).exception)
  {
    match run(task.func, task.args)
    case Raised(e) => Err(WorkloadError(e))
    case Returned(v) => Ok(TaskResult(task.index, v, ended - began))
  }

  /**
   * async_result.get(timeout) (easy_pool.py:63): with a timeout, a result that
   * was not ready in time is a TimeoutError; without one, get waits.
   */
  function Get(task: IndexedTask, s: Settlement, run: Behaviour, timeout: Option<real>): Result<TaskResult> {
    if timeout.Some? && !s.inTime then Err(TimeoutError)
    else ProcessIndexedTask(task, run, s.began, s.ended)
  }

  /** The loop of get_results over the first n handles: the first failing get aborts it. */
  function Collected(pending: seq<IndexedTask>, n: nat, settle: nat -> Settlement, run: Behaviour, timeout: Option<real>): Result<seq<TaskResult>>
    requires n <= |pending|
  {
    if n == 0 then Ok([])
    else
      match Collected(pending, n - 1, settle, run, timeout)
      case Err(e) => Err(e)
      case Ok(ts) =>
        match Get(pending[n - 1], settle(n - 1), run, timeout)
        case Err(e) => Err(e)
        case Ok(t) => Ok(ts + [t])
  }

  /**
   * The collection loop succeeds exactly when every get succeeds, and then
   * holds one triple per handle, in submission order.
   */
  lemma {:induction false} CollectedAll(pending: seq<IndexedTask>, n: nat, settle: nat -> Settlement, run: Behaviour, timeout: Option<real>)
    requires n <= |pending|
    ensures Collected(pending, n, settle, run, timeout).Ok? <==>
            forall k :: 0 <= k < n ==> Get(pending[k], settle(k), run, timeout).Ok?
    ensures Collected(pending, n, settle, run, timeout).Ok? ==>
            var ts := Collected(pending, n, settle, run, timeout).value;
            |ts| == n && forall k :: 0 <= k < n ==> ts[k] == Get(pending[k], settle(k), run, timeout).value
  {
    if n > 0 {
      CollectedAll(pending, n - 1, settle, run, timeout);
    }
  }

  /**
   * When the collection loop fails, its error is that of the first failing
   * get, and every earlier get succeeded.
   */
  lemma {:induction false} CollectedFirstError(pending: seq<IndexedTask>, n: nat, settle: nat -> Settlement, run: Behaviour, timeout: Option<real>)
    requires n <= |pending|
    requires Collected(pending, n, settle, run, timeout).Err?
    ensures exists j :: (0 <= j < n && Get(pending[j], settle(j), run, timeout).Err? &&
      Get(pending[j], settle(j), run, timeout).error == Collected(pending, n, settle, run, timeout).error &&
      forall k :: 0 <= k < j ==> Get(pending[k], settle(k), run, timeout).Ok?)
  {
    var before := Collected(pending, n - 1, settle, run, timeout);
    if before.Err? {
      CollectedFirstError(pending, n - 1, settle, run, timeout);
      var j :| 0 <= j < n - 1 && Get(pending[j], settle(j), run, timeout).Err? &&
        Get(pending[j], settle(j), run, timeout).error == before.error &&
        forall k :: 0 <= k < j ==> Get(pending[k], settle(k), run, timeout).Ok?;
      assert 0 <= j < n;
    } else {
      CollectedAll(pending, n - 1, settle, run, timeout);
      var j := n - 1;
      assert Get(pending[j], settle(j), run, timeout).Err?;
      assert forall k :: 0 <= k < j ==> Get(pending[k], settle(k), run, timeout).Ok?;
    }
  }

  /** Once the loop has failed, the remaining handles are never got: the error stays. */
  lemma {:induction false} CollectedStaysFailed(pending: seq<IndexedTask>, n: nat, m: nat, settle: nat -> Settlement, run: Behaviour, timeout: Option<real>)
    requires n <= m <= |pending|
    requires Collected(pending, n, settle, run, timeout).Err?
    ensures Collected(pending, m, settle, run, timeout) == Collected(pending, n, settle, run, timeout)
    decreases m
  {
    if m > n {
      CollectedStaysFailed(pending, n, m - 1, settle, run, timeout);
    }
  }

  /**
   * What a later get_results observes of the same handles: each worker ran its
   * task once, so the clock readings around the call are the ones the first
   * collection saw, and an outcome that was ready in time stays cached. Only
   * a handle that was not ready may now be ready or still not ready.
   */
  ghost predicate LaterSettlement(settle: nat -> Settlement, retry: nat -> Settlement) {
    forall k: nat ::
      retry(k).began == settle(k).began && retry(k).ended == settle(k).ended &&
      (settle(k).inTime ==> retry(k).inTime)
  }

  /**
   * Collecting the same handles again: unless the first collection ran out of
   * time, the retry sees the same outcomes and returns exactly what the first
   * collection returned.
   */
  lemma {:induction false} RetryRepeats(pending: seq<IndexedTask>, n: nat, settle: nat -> Settlement, retry: nat -> Settlement, run: Behaviour, timeout: Option<real>)
    requires n <= |pending|
    requires LaterSettlement(settle, retry)
    ensures Collected(pending, n, settle, run, timeout) != Err(TimeoutError) ==>
      Collected(pending, n, retry, run, timeout) == Collected(pending, n, settle, run, timeout)
  {
    if n > 0 {
      RetryRepeats(pending, n - 1, settle, retry, run, timeout);
    }
  }

  /** The readings of a task that ran from 0 to 15 ms, not ready by the first timeout. */
  function Late(k: nat): Settlement { Settlement(0.0, 0.015, false) }

  /** The same readings, seen by a second get whose window reaches past 15 ms. */
  function Caught(k: nat): Settlement { Settlement(0.0, 0.015, true) }

  /** A workload behaviour that returns 0. */
  function ReturnsZero(f: Workload, args: seq<Value>): Completion { Returned(IntV(0)) }

  /**
   * A TimeoutError is not repeated by a retry: one handle whose task finishes
   * after the first get's 10 ms timeout but within the second get's window is
   * a TimeoutError the first time and a result the second time.
   */
  lemma TimeoutRetryCanSucceed()
    ensures LaterSettlement(Late, Caught)
    ensures GetResultsOf([IndexedTask(0, Sum, [])], Late, ReturnsZero, Some(0.01)) == Err(TimeoutError)
    ensures GetResultsOf([IndexedTask(0, Sum, [])], Caught, ReturnsZero, Some(0.01)) == Ok([TaskResult(0, IntV(0), 0.015)])
  {
    var pending := [IndexedTask(0, Sum, [])];
    var t := TaskResult(0, IntV(0), 0.015);
    assert Collected(pending, 0, Caught, ReturnsZero, Some(0.01)) == Ok([]);
    assert Get(pending[0], Caught(0), ReturnsZero, Some(0.01)) == Ok(t);
    assert [] + [t] == [t];
    assert Collected(pending, 1, Caught, ReturnsZero, Some(0.01)) == Ok([t]);
    assert SortByIndex([t]) == [t];
  }

  predicate SortedByIndex(s: seq<TaskResult>) {
    forall i, j :: 0 <= i < j < |s| ==> s[i].index <= s[j].index
  }

  /** Places t after every element whose index is not larger than its own. */
  function Insert(t: TaskResult, s: seq<TaskResult>): (r: seq<TaskResult>)
    ensures |r| == |s| + 1
  {
    if |s| == 0 then [t]
    else if s[|s| - 1].index <= t.index then s + [t]
    else
      var init := s[..|s| - 1];
      assert s == init + [s[|s| - 1]];
      Insert(t, init) + [s[|s| - 1]]
  }

  /** results.sort(key=lambda x: x[0]): Python's sort, stable by index. */
  function SortByIndex(s: seq<TaskResult>): (r: seq<TaskResult>)
    ensures |r| == |s|
  {
    if |s| == 0 then []
    else Insert(s[|s| - 1], SortByIndex(s[..|s| - 1]))
  }

  /** Inserting adds t and keeps every other element. */
  lemma {:induction false} InsertPermutes(t: TaskResult, s: seq<TaskResult>)
    ensures multiset(Insert(t, s)) == multiset(s) + multiset{t}
  {
    if |s| > 0 && s[|s| - 1].index > t.index {
      var init := s[..|s| - 1];
      InsertPermutes(t, init);
      assert s == init + [s[|s| - 1]];
    }
  }

  /** The sort is a permutation. */
  lemma {:induction false} SortByIndexPermutes(s: seq<TaskResult>)
    ensures multiset(SortByIndex(s)) == multiset(s)
  {
    if |s| > 0 {
      var init := s[..|s| - 1];
      SortByIndexPermutes(init);
      InsertPermutes(s[|s| - 1], SortByIndex(init));
      assert s == init + [s[|s| - 1]];
    }
  }

  lemma {:induction false} InsertSorted(t: TaskResult, s: seq<TaskResult>)
    requires SortedByIndex(s)
    ensures SortedByIndex(Insert(t, s))
  {
    if |s| > 0 && s[|s| - 1].index > t.index {
      var init, last := s[..|s| - 1], s[|s| - 1];
      InsertSorted(t, init);
      InsertPermutes(t, init);
      var r := Insert(t, init);
      forall i | 0 <= i < |r|
        ensures r[i].index <= last.index
      {
        assert r[i] in multiset(r);
        assert r[i] in multiset(init) + multiset{t};
        if r[i] != t {
          assert r[i] in init;
        }
      }
    }
  }

  lemma {:induction false} SortByIndexSorted(s: seq<TaskResult>)
    ensures SortedByIndex(SortByIndex(s))
  {
    if |s| > 0 {
      SortByIndexSorted(s[..|s| - 1]);
      InsertSorted(s[|s| - 1], SortByIndex(s[..|s| - 1]));
    }
  }

  /** An already sorted list is left as it is. */
  lemma {:induction false} SortByIndexOfSorted(s: seq<TaskResult>)
    requires SortedByIndex(s)
    ensures SortByIndex(s) == s
  {
    if |s| > 0 {
      var init := s[..|s| - 1];
      SortByIndexOfSorted(init);
      assert s == init + [s[|s| - 1]];
    }
  }

  /** [t for t in s if t.index == k]. */
  function WithIndex(k: int, s: seq<TaskResult>): seq<TaskResult> {
    if |s| == 0 then []
    else WithIndex(k, s[..|s| - 1]) + (if s[|s| - 1].index == k then [s[|s| - 1]] else [])
  }

  lemma WithIndexSnoc(k: int, s: seq<TaskResult>, x: TaskResult)
    ensures WithIndex(k, s + [x]) == WithIndex(k, s) + (if x.index == k then [x] else [])
  {
    assert (s + [x])[..|s|] == s;
  }

  lemma {:induction false} InsertKeepsTies(k: int, t: TaskResult, s: seq<TaskResult>)
    requires SortedByIndex(s)
    ensures WithIndex(k, Insert(t, s)) == WithIndex(k, s) + (if t.index == k then [t] else [])
  {
    var tk := if t.index == k then [t] else [];
    if |s| == 0 {
      WithIndexSnoc(k, [], t);
      assert [] + [t] == [t];
    } else if s[|s| - 1].index <= t.index {
      WithIndexSnoc(k, s, t);
    } else {
      var init, last := s[..|s| - 1], s[|s| - 1];
      var lk := if last.index == k then [last] else [];
      var r := Insert(t, init);
      assert Insert(t, s) == r + [last];
      assert s == init + [last];
      InsertKeepsTies(k, t, init);
      WithIndexSnoc(k, r, last);
      WithIndexSnoc(k, init, last);
      assert tk == [] || lk == [];
    }
  }

  /** The sort is stable: results with equal index keep their submission order. */
  lemma {:induction false} SortByIndexStable(k: int, s: seq<TaskResult>)
    ensures WithIndex(k, SortByIndex(s)) == WithIndex(k, s)
  {
    if |s| > 0 {
      var init := s[..|s| - 1];
      SortByIndexStable(k, init);
      SortByIndexSorted(init);
      InsertKeepsTies(k, s[|s| - 1], SortByIndex(init));
    }
  }

  /** get_results as a function of the pending handles: collect, then sort. */
  function GetResultsOf(pending: seq<IndexedTask>, settle: nat -> Settlement, run: Behaviour, timeout: Option<real>): Result<seq<TaskResult>> {
    match Collected(pending, |pending|, settle, run, timeout)
    case Err(e) => Err(e)
    case Ok(ts) => Ok(SortByIndex(ts))
  }

  /**
   * get_results returns one triple per pending handle, sorted by index, a
   * permutation of what the workers sent back.
   */
  lemma CollectSorted(pending: seq<IndexedTask>, settle: nat -> Settlement, run: Behaviour, timeout: Option<real>)
    requires GetResultsOf(pending, settle, run, timeout).Ok?
    ensures var rs := GetResultsOf(pending, settle, run, timeout).value;
      |rs| == |pending| && SortedByIndex(rs) &&
      multiset(rs) == multiset(Collected(pending, |pending|, settle, run, timeout).value)
  {
    var ts := Collected(pending, |pending|, settle, run, timeout).value;
    CollectedAll(pending, |pending|, settle, run, timeout);
    SortByIndexSorted(ts);
    SortByIndexPermutes(ts);
  }

  /** Without a timeout no get fails with TimeoutError: collection waits for every worker. */
  lemma {:induction false} NoTimeoutWithoutLimit(pending: seq<IndexedTask>, n: nat, settle: nat -> Settlement, run: Behaviour)
    requires n <= |pending|
    ensures Collected(pending, n, settle, run, None) != Err(TimeoutError)
  {
    if n > 0 {
      NoTimeoutWithoutLimit(pending, n - 1, settle, run);
    }
  }

  class EasyPool {
    const poolSize: int
    const timeout: Option<real>
    /** Whether the `pool` attribute still exists, i.e. shutdown has not run. */
    var live: bool
    /** async_results: one pending handle per add_task, in call order. */
    var pending: seq<IndexedTask>

    constructor(poolSize: int, timeout: Option<real>)
      requires poolSize >= 1
      ensures this.poolSize == poolSize && this.timeout == timeout
      ensures live && pending == []
    {
      this.poolSize := poolSize;
      this.timeout := timeout;
      live := true;
      pending := [];
    }

    /**
     * EasyPool(pool_size, timeout) (easy_pool.py:42-46): stores both
     * unchanged and starts with no pending handle; Pool(processes=n) refuses
     * n < 1 with ValueError.
     */
    static method Create(poolSize: int, timeout: Option<real>) returns (r: Result<EasyPool>)
      ensures r.Err? <==> poolSize < 1
      ensures r.Err? ==> r.error == ValueError
      ensures r.Ok? ==> fresh(r.value) && r.value.live && r.value.pending == []
      ensures r.Ok? ==> r.value.poolSize == poolSize && r.value.timeout == timeout
    {
      if poolSize < 1 {
        return Err(ValueError);
      }
      var pool := new EasyPool(poolSize, timeout);
      r := Ok(pool);
    }

    /**
     * add_task (easy_pool.py:54-58): appends exactly one pending handle for
     * (index, func, args); after shutdown the deleted `pool` attribute makes it
     * an AttributeError.
     */
    method AddTask(index: int, func: Workload, args: seq<Value>) returns (r: Result<()>)
      modifies this
      ensures live == old(live)
      ensures r == if old(live) then Ok(()) else Err(AttributeError)
      ensures pending == if old(live) then old(pending) + [IndexedTask(index, func, args)] else old(pending)
    {
      if !live {
        return Err(AttributeError);
      }
      pending := pending + [IndexedTask(index, func, args)];
      r := Ok(());
    }

    /**
     * get_results (easy_pool.py:60-69): gets every pending handle in order,
     * sorts the triples by index and clears the pending list. A failing get
     * propagates before the list is cleared.
     */
    method GetResults(run: Behaviour, settle: nat -> Settlement) returns (r: Result<seq<TaskResult>>)
      modifies this
      ensures r == GetResultsOf(old(pending), settle, run, timeout)
      ensures pending == if r.Ok? then [] else old(pending)
      ensures live == old(live)
    {
      var results: seq<TaskResult> := [];
      for k := 0 to |pending|
        invariant Collected(pending, k, settle, run, timeout) == Ok(results)
      {
        var got := Get(pending[k], settle(k), run, timeout);
        if got.Err? {
          CollectedStaysFailed(pending, k + 1, |pending|, settle, run, timeout);
          return Err(got.error);
        }
        results := results + [got.value];
      }
      results := SortByIndex(results);
      pending := [];
      r := Ok(results);
    }

    /** shutdown (easy_pool.py:71-76): terminates the workers once; later calls do nothing. */
    method Shutdown()
      modifies this
      ensures !live
      ensures pending == old(pending)
      ensures !old(live) ==> unchanged(this)
    {
      if !live {
        return;
      }
      live := false;
    }

    /** __del__ (easy_pool.py:78-79): delegates to shutdown. */
    method Finalize()
      modifies this
      ensures !live
      ensures pending == old(pending)
      ensures !old(live) ==> unchanged(this)
    {
      Shutdown();
    }
  }

  /**
   * Collecting twice, then shutting down twice: after a successful collection
   * an immediate second one returns nothing; after a failed one the handles
   * are still pending and are collected again under `retry`, which repeats a
   * workload's exception but may turn a TimeoutError into results; the second
   * shutdown is harmless.
   */
  method DrainThenShutdownTwice(pool: EasyPool, run: Behaviour, settle: nat -> Settlement, retry: nat -> Settlement)
    returns (first: Result<seq<TaskResult>>, second: Result<seq<TaskResult>>)
    requires LaterSettlement(settle, retry)
    modifies pool
    ensures first == GetResultsOf(old(pool.pending), settle, run, pool.timeout)
    ensures first.Ok? ==> second == Ok([])
    ensures first.Err? ==> second == GetResultsOf(old(pool.pending), retry, run, pool.timeout)
    ensures first.Err? && first.error != TimeoutError ==> second == first
    ensures !pool.live
  {
    ghost var handles := old(pool.pending);
    first := pool.GetResults(run, settle);
    second := pool.GetResults(run, retry);
    RetryRepeats(handles, |handles|, settle, retry, run, pool.timeout);
    pool.Shutdown();
    pool.Shutdown();
  }
}
