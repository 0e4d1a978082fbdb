/**
 * pipelines/handler.py: run_pipeline builds the runner table, then for each
 * iteration obtains a task list (built once for a given function, drawn
 * afresh in random mode with the task arguments as the requested task
 * types), exits when the list is empty, and runs one round over the runners.
 */
module Handler {
  import opened Values
  import opened Averages
  import opened Runners
  import opened TaskLists
  import opened RandomTaskLists
  import opened Orchestration

  /** The keyword parameters Runner declares (util/runner.py:5). */
  const RunnerParameters: seq<string> := ["name", "workers", "job_details", "job_count"]

  /** The keywords run_pipeline passes to Runner (pipelines/handler.py:33-38). */
  const HandlerKeywords: seq<string> := ["name", "workers", "task_details", "task_count"]

  /** A call by keyword binds when the callee declares every keyword passed. */
  predicate KeywordsBind(params: seq<string>, keywords: seq<string>) {
    forall k :: k in keywords ==> k in params
  }

  /** Runner declares no task_details parameter, so the handler's call cannot bind. */
  lemma HandlerKeywordsRejected()
    ensures !KeywordsBind(RunnerParameters, HandlerKeywords)
  {
    assert HandlerKeywords[2] == "task_details";
    assert "task_details" !in RunnerParameters;
  }

  /**
   * The runner-table loop as written (pipelines/handler.py:27-38): the
   * Runner(...) call for the first worker count raises TypeError for its
   * unexpected keyword, so no table is built unless the worker list is empty.
   */
  method BuildRunnersAsWritten(workers: seq<int>, details: string, jobCount: int)
    returns (r: Result<map<string, Runner>>)
    ensures r.Err? <==> |workers| > 0
    ensures r.Err? ==> r.error == TypeError
    ensures r.Ok? ==> r.value == map[]
  {
    HandlerKeywordsRejected();
    var table: map<string, Runner> := map[];
    if |workers| > 0 && !KeywordsBind(RunnerParameters, HandlerKeywords) {
      return Err(TypeError);
    }
    r := Ok(table);
  }

  /**
   * What run_pipeline is asked to run: the task function (None in random
   * mode), its arguments (the requested task types in random mode), the task
   * count and the image read at the start. Iteration i of random mode
   * consults draw source randints(i) and parameter oracle params(i).
   */
  datatype Job = Job(func: Option<Workload>, args: seq<Value>, count: int, img: Value,
                     randints: nat -> RandInt, params: nat -> ((nat, Workload) -> seq<Value>))

  /** Every iteration's draw source keeps its draws in range. */
  ghost predicate WellDrawn(job: Job) {
    forall i: nat :: DrawsInRange(job.randints(i))
  }

  /**
   * The task list of iteration i: the given function's list, the same every
   * time, or a fresh random list for the requested types.
   */
  function TasksAt(job: Job, i: nat): Result<seq<Task>>
    requires WellDrawn(job)
  {
    if job.func.Some? then Ok(Repeated(job.count, job.func.value, job.args))
    else RandomTaskListOf(job.count, job.args, job.img, job.randints(i), job.params(i))
  }

  /** The task list each iteration runs, by iteration number. */
  type IterationLists = nat -> Result<seq<Task>>

  /** The task lists of a job. */
  ghost function IterationListsOf(job: Job): IterationLists
    requires WellDrawn(job)
  {
    (i: nat) => TasksAt(job, i)
  }

  /** lists gives, for every iteration, the task list of job. */
  ghost predicate ListsMatch(lists: IterationLists, job: Job) {
    WellDrawn(job) &&
    forall i: nat {:trigger TasksAt(job, i)} :: lists(i) == TasksAt(job, i)
  }

  /** IterationListsOf is the task lists of its job. */
  lemma IterationListsOfMatch(job: Job)
    requires WellDrawn(job)
    ensures ListsMatch(IterationListsOf(job), job)
  {
  }

  /**
   * The tuples of the first n rounds, oldest first, or the first failure: a
   * random list that cannot be drawn, an empty list (sys.exit(1)) or a
   * failing round.
   */
  function History(lists: IterationLists, rounds: Rounds, n: nat): (h: Result<seq<seq<Runtimes>>>)
    ensures h.Ok? ==> |h.value| == n
  {
    if n == 0 then Ok([])
    else
      var earlier :- History(lists, rounds, n - 1);
      var tasks :- lists(n - 1);
      if |tasks| == 0 then Err(SystemExit(1))
      else
        var round :- rounds(tasks, n - 1);
        Ok(earlier + [round])
  }

  /** Once an iteration has failed, every longer run fails the same way. */
  lemma {:induction false} HistoryStaysFailed(lists: IterationLists, rounds: Rounds, n: nat, m: nat)
    requires n <= m
    requires History(lists, rounds, n).Err?
    ensures History(lists, rounds, m) == History(lists, rounds, n)
    decreases m - n
  {
    if n < m {
      HistoryStaysFailed(lists, rounds, n, m - 1);
    }
  }

  /**
   * Iteration n + 1 after n successful ones: it fails when its task list
   * cannot be drawn, exits when the list is empty, and otherwise extends the
   * history by its round or fails with it.
   */
  lemma HistoryNext(lists: IterationLists, rounds: Rounds, n: nat)
    requires History(lists, rounds, n).Ok?
    ensures lists(n).Err? ==> History(lists, rounds, n + 1) == Err(lists(n).error)
    ensures lists(n) == Ok([]) ==> History(lists, rounds, n + 1) == Err(SystemExit(1))
    ensures lists(n).Ok? && |lists(n).value| > 0 ==>
      var round := rounds(lists(n).value, n);
      (round.Ok? ==> History(lists, rounds, n + 1) == Ok(History(lists, rounds, n).value + [round.value])) &&
      (round.Err? ==> History(lists, rounds, n + 1) == Err(round.error))
  {
  }

  /**
   * The task list iteration index runs (pipelines/handler.py:55-58): a
   * fresh random list in random mode, otherwise the list built before the
   * loop.
   */
  method IterationTasks(job: Job, tasks: seq<Task>, index: nat) returns (r: Result<seq<Task>>)
    requires WellDrawn(job)
    requires job.func.Some? ==> tasks == Repeated(job.count, job.func.value, job.args)
    ensures r == TasksAt(job, index)
  {
    if job.func.None? {
      r := GetRandomTaskList(job.count, job.args, job.img, job.randints(index), job.params(index));
    } else {
      r := Ok(tasks);
    }
  }

  /**
   * run_pipeline with the Runner call corrected to job_details/job_count
   * (pipelines/handler.py:15-85). The outcome is the history of all
   * iterations; on success every runner, in key order, holds one tuple per
   * iteration: the one its run of that round returned. The closing
   * print_runtimes (pipelines/handler.py:84) averages every runner's tuples,
   * so with no iteration and at least one runner it divides by zero. `rounds` names the
   * rounds of the table built (RoundsOf(DistinctCounts(workers), world), by
   * RoundsOfMatch).
   */
  method RunPipeline(job: Job, workers: seq<int>, iterations: int, details: string, world: World,
                     ghost lists: IterationLists, ghost rounds: Rounds)
    returns (r: Result<map<string, Runner>>, counts: seq<int>)
    requires ListsMatch(lists, job)
    requires RoundsMatch(rounds, DistinctCounts(workers), world)
    ensures counts == DistinctCounts(workers)
    ensures var h := History(lists, rounds, Max0(iterations));
      (r.Ok? <==> h.Ok? && (Max0(iterations) > 0 || |counts| == 0)) &&
      (r.Err? ==> r.error == if h.Err? then h.error else ZeroDivisionError)
    ensures r.Ok? ==> RunnerTable(counts, r.value, details, job.count)
    ensures r.Ok? ==>
      var h := History(lists, rounds, Max0(iterations)).value;
      (forall i :: 0 <= i < |h| ==> |h[i]| == |counts|) &&
      forall s :: 0 <= s < |counts| ==> RunnersOf(counts, r.value)[s].runtimes == Column(h, s)
  {
    var table;
    counts, table := BuildRunners(workers, details, job.count);
    RunnersDistinct(counts, table, details, job.count);
    ghost var runners := RunnersOf(counts, table);
    var tasks: seq<Task> := [];
    if job.func.Some? {
      tasks := GetTaskList(job.count, job.func.value, job.args);
    }
    var failure := RunIterations(job, tasks, counts, table, runners, Max0(iterations), world, lists, rounds);
    if failure.Some? {
      return Err(failure.value), counts;
    }
    assert forall s :: 0 <= s < |counts| ==> |runners[s].runtimes| == Max0(iterations);
    if Max0(iterations) == 0 && |counts| > 0 {
      assert |runners[0].runtimes| == 0;
    }
    failure := PrintRuntimes(counts, table, runners);
    if failure.Some? {
      return Err(failure.value), counts;
    }
    r := Ok(table);
  }

  /**
   * The iteration loop of run_pipeline (pipelines/handler.py:50-82), started
   * with the list built for a given function (empty in random mode): the
   * first failure of History(lists, rounds, n), or none, in which case runner s
   * has gained column s of the history.
   */
  method RunIterations(job: Job, tasks: seq<Task>, counts: seq<int>, table: map<string, Runner>,
                       ghost runners: seq<Runner>, n: nat, world: World, ghost lists: IterationLists, ghost rounds: Rounds)
    returns (failure: Option<Error>)
    requires ListsMatch(lists, job)
    requires RoundsMatch(rounds, counts, world)
    requires RunnersInOrder(counts, table, runners)
    requires job.func.Some? ==> tasks == Repeated(job.count, job.func.value, job.args)
    modifies table.Values
    ensures var h := History(lists, rounds, n);
      (failure.None? <==> h.Ok?) && (failure.Some? ==> failure.value == h.error)
    ensures History(lists, rounds, n).Ok? ==>
      var h := History(lists, rounds, n).value;
      (forall i :: 0 <= i < |h| ==> |h[i]| == |counts|) &&
      forall s :: 0 <= s < |counts| ==> runners[s].runtimes == old(runners[s].runtimes) + Column(h, s)
  {
    var current := tasks;
    ghost var history: seq<seq<Runtimes>> := [];
    for index := 0 to n
      invariant History(lists, rounds, index) == Ok(history)
      invariant forall i :: 0 <= i < |history| ==> |history[i]| == |counts|
      invariant job.func.Some? ==> current == Repeated(job.count, job.func.value, job.args)
      invariant forall s :: 0 <= s < |counts| ==> runners[s].runtimes == old(runners[s].runtimes) + Column(history, s)
    {
      var next, round := Iteration(job, current, counts, table, runners, world, lists, rounds, index, history);
      if next.Err? {
        HistoryStaysFailed(lists, rounds, index + 1, n);
        return Some(next.error);
      }
      current := next.value;
      ColumnsSnoc(history, round, |counts|);
      history := history + [round];
    }
    failure := None;
  }

  /**
   * One pass of the iteration loop (pipelines/handler.py:51-71): the task
   * list of iteration index, sys.exit(1) when it is empty, then one round.
   * It fails exactly as History fails at index + 1; otherwise it returns the
   * list it ran and the round it appended to the history, each runner
   * having gained its tuple.
   */
  method Iteration(job: Job, current: seq<Task>, counts: seq<int>, table: map<string, Runner>,
                   ghost runners: seq<Runner>, world: World, ghost lists: IterationLists, ghost rounds: Rounds,
                   index: nat, ghost history: seq<seq<Runtimes>>)
    returns (next: Result<seq<Task>>, ghost round: seq<Runtimes>)
    requires ListsMatch(lists, job)
    requires RoundsMatch(rounds, counts, world)
    requires RunnersInOrder(counts, table, runners)
    requires History(lists, rounds, index) == Ok(history)
    requires job.func.Some? ==> current == Repeated(job.count, job.func.value, job.args)
    modifies table.Values
    ensures next.Err? ==> History(lists, rounds, index + 1) == Err(next.error)
    ensures next.Ok? ==> History(lists, rounds, index + 1) == Ok(history + [round]) && |round| == |counts|
    ensures next.Ok? && job.func.Some? ==> next.value == Repeated(job.count, job.func.value, job.args)
    ensures next.Ok? ==> forall s :: 0 <= s < |counts| ==> runners[s].runtimes == old(runners[s].runtimes) + [round[s]]
  {
    HistoryNext(lists, rounds, index);
    next := IterationTasks(job, current, index);
    if next.Err? {
      return next, [];
    }
    if |next.value| == 0 {
      return Err(SystemExit(1)), [];
    }
    var ran := RunIteration(counts, table, runners, next.value, world, rounds, index);
    if ran.Err? {
      return Err(ran.error), [];
    }
    round := ran.value;
  }

  /**
   * With a given function and no tasks to build, the first iteration exits
   * with status 1 before any runner runs.
   */
  lemma EmptyListExits(job: Job, lists: IterationLists, rounds: Rounds, n: nat)
    requires ListsMatch(lists, job)
    requires job.func.Some? && job.count <= 0 && n >= 1
    ensures History(lists, rounds, n) == Err(SystemExit(1))
  {
    assert lists(0) == TasksAt(job, 0) == Ok([]);
    assert History(lists, rounds, 1) == Err(SystemExit(1));
    HistoryStaysFailed(lists, rounds, 1, n);
  }

  /**
   * In random mode with task types that select no option, the first draw
   * fails with ValueError.
   */
  lemma NoOptionsFails(job: Job, lists: IterationLists, rounds: Rounds, n: nat)
    requires ListsMatch(lists, job)
    requires job.func.None? && |SelectedOptions(job.args)| == 0 && job.count > 0 && n >= 1
    ensures History(lists, rounds, n) == Err(ValueError)
  {
    assert lists(0) == TasksAt(job, 0) == Err(ValueError);
    assert History(lists, rounds, 1) == Err(ValueError);
    HistoryStaysFailed(lists, rounds, 1, n);
  }
}
