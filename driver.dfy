/**
 * main.py: the command-line driver. It maps the configured task name to a
 * workload, builds the task list once (none in random mode), runs every
 * runner once per iteration in test_pipeline and gathers one CSV row per
 * runner under a fixed header.
 *
 * The image read at start-up is the parameter `img`, str() of argument values
 * is `render`; the random draws, the random-parameter functions, the workload
 * behaviour and the clock readings are oracles as in the rest of the model.
 */
module Driver {
  import opened Values
  import opened Averages
  import opened Runners
  import opened TaskLists
  import opened TaskParsing
  import opened RandomTaskLists
  import opened SequentialPipeline
  import opened PoolPipeline
  import opened Orchestration

  /** The workload a configuration names (None for random) and its arguments. */
  datatype Selection = Selection(func: Option<Workload>, args: seq<Value>)

  /**
   * The if/elif dispatch on config.task (main.py:154-179): nine names select
   * their workload, "img" with the loaded image as its only argument;
   * "random" selects no function; any other name exits with status 1.
   */
  function SelectTask(task: string, args: seq<Value>, img: Value): (r: Result<Selection>)
    ensures r.Err? ==> r.error == SystemExit(1)
    ensures r.Ok? && r.value.func.None? ==> task == "random" && r.value.args == args
    ensures r.Ok? && r.value.func.Some? ==>
      task == OptionName(r.value.func.value) &&
      r.value.args == if r.value.func.value == Img then [img] else args
  {
    if task == "sum" then Ok(Selection(Some(Sum), args))
    else if task == "multi" then Ok(Selection(Some(Multi), args))
    else if task == "io" then Ok(Selection(Some(Io), args))
    else if task == "zip" then Ok(Selection(Some(Zip), args))
    else if task == "tensor" then Ok(Selection(Some(Tensor), args))
    else if task == "sort" then Ok(Selection(Some(Sort), args))
    else if task == "matrix" then Ok(Selection(Some(Matrix), args))
    else if task == "img" then Ok(Selection(Some(Img), [img]))
    else if task == "password" then Ok(Selection(Some(Password), args))
    else if task == "random" then Ok(Selection(None, args))
    else Err(SystemExit(1))
  }

  /** Every option name selects its own workload; "random" selects none. */
  lemma SelectKnownTask(w: Workload, args: seq<Value>, img: Value)
    ensures SelectTask(OptionName(w), args, img) == Ok(Selection(Some(w), if w == Img then [img] else args))
    ensures SelectTask("random", args, img) == Ok(Selection(None, args))
  {
    match w
    case Sum =>
    case Multi =>
    case Io =>
    case Zip =>
    case Tensor =>
    case Sort =>
    case Matrix =>
    case Password =>
    case Img =>
  }

  /** Any name that is neither an option name nor "random" exits with status 1. */
  lemma SelectUnknownTask(task: string, args: seq<Value>, img: Value)
    requires task != "random" && forall w :: task != OptionName(w)
    ensures SelectTask(task, args, img) == Err(SystemExit(1))
  {
    assert task != OptionName(Sum) && task != OptionName(Multi) && task != OptionName(Io);
    assert task != OptionName(Zip) && task != OptionName(Tensor) && task != OptionName(Sort);
    assert task != OptionName(Matrix) && task != OptionName(Img) && task != OptionName(Password);
  }

  /**
   * The driver and the task parser accept the same names and pick the same
   * workload for each; a name the driver refuses is one the parser rejects.
   */
  lemma SelectAgreesWithParser(task: string, args: seq<Value>, img: Value, render: Value -> string, load: Value -> Value)
    ensures SelectTask(task, args, img).Ok? && ParseOf(task, args, render, load).Ok? ==>
      SelectTask(task, args, img).value.func == ParseOf(task, args, render, load).value.func
    ensures SelectTask(task, args, img).Err? ==> ParseOf(task, args, render, load) == Err(TypeError)
  {
    ParseSelects(task, args, render, load);
    if SelectTask(task, args, img).Err? {
      forall w
        ensures task != OptionName(w)
      {
        SelectKnownTask(w, args, img);
      }
      SelectKnownTask(Sum, args, img);
    }
  }

  /** The list main hands to test_pipeline: none in random mode, else task_count copies. */
  function InitialTasksOf(task: string, args: seq<Value>, count: int, img: Value): Result<seq<Task>> {
    var selection :- SelectTask(task, args, img);
    if selection.func.None? then Ok([])
    else Ok(Repeated(count, selection.func.value, selection.args))
  }

  /**
   * The selection and the initial list (main.py:154-190): get_task_list
   * builds the copies, random mode starts with no list.
   */
  method InitialTasks(task: string, args: seq<Value>, count: int, img: Value) returns (r: Result<seq<Task>>)
    ensures r == InitialTasksOf(task, args, count, img)
  {
    var selection := SelectTask(task, args, img);
    if selection.Err? {
      return Err(selection.error);
    }
    if selection.value.func.None? {
      r := Ok([]);
    } else {
      var tasks := GetTaskList(count, selection.value.func.value, selection.value.args);
      r := Ok(tasks);
    }
  }

  /**
   * test_pipeline switches to random lists exactly when the initial list is
   * empty: in random mode, and also for a named task whose task_count is
   * zero or less.
   */
  lemma InitialTasksEmpty(task: string, args: seq<Value>, count: int, img: Value)
    requires InitialTasksOf(task, args, count, img).Ok?
    ensures InitialTasksOf(task, args, count, img).value == [] <==> task == "random" || count <= 0
  {
    var selection := SelectTask(task, args, img).value;
    if selection.func.Some? {
      assert task != "random";
      assert |Repeated(count, selection.func.value, selection.args)| == Max0(count);
    }
  }

  /** job_details (main.py:79-81): the first task's arguments joined by "x", or "N/A". */
  function JobDetails(tasks: seq<Task>, render: Value -> string): (details: string)
    ensures |tasks| > 0 ==> details == XDetails(tasks[0].args, render)
  {
    if |tasks| > 0 then XDetails(tasks[0].args, render) else "N/A"
  }

  /**
   * For a plain workload the driver reports the same details as the task
   * parser does for that name and those arguments; with no task it reports
   * "N/A".
   */
  lemma JobDetailsAgreeWithParser(w: Workload, args: seq<Value>, count: int, render: Value -> string, load: Value -> Value)
    requires JoinsWithX(w) && count > 0
    ensures JobDetails(Repeated(count, w, args), render) == ParseOf(OptionName(w), args, render, load).value.details
    ensures JobDetails([], render) == "N/A"
  {
    ParsePlainName(w, args, render, load);
    assert Repeated(count, w, args)[0] == Task(w, args);
  }

  /** The entries of main's own get_random_task_list for the given draws. */
  function MainRandomTaskListOf(count: int, img: Value, randint: RandInt, params: (nat, Workload) -> seq<Value>): seq<Task>
    requires DrawsInRange(randint)
  {
    seq(Max0(count), k requires 0 <= k < Max0(count) =>
      var w := AllWorkloads[Draw(randint, k, |AllWorkloads|)];
      Task(w, if w == Img then [img] else params(k, w)))
  }

  /**
   * get_random_task_list (main.py:236-267): task_count entries, each drawn
   * among the nine options in pool order; img entries take [img] as their
   * arguments, the others the parameters generated for them.
   */
  method MainGetRandomTaskList(count: int, img: Value, randint: RandInt, params: (nat, Workload) -> seq<Value>)
    returns (tasks: seq<Task>)
    requires DrawsInRange(randint)
    ensures tasks == MainRandomTaskListOf(count, img, randint, params)
  {
    ghost var spec := MainRandomTaskListOf(count, img, randint, params);
    tasks := [];
    for k := 0 to Max0(count)
      invariant tasks == spec[..k]
    {
      assert spec[..k + 1] == spec[..k] + [spec[k]];
      var w := AllWorkloads[Draw(randint, k, |AllWorkloads|)];
      var args := if w == Img then [img] else params(k, w);
      tasks := tasks + [Task(w, args)];
    }
    assert spec[..Max0(count)] == spec;
  }

  /**
   * main's random list has task_count entries, and draws the same workloads
   * as the work_wrapper list asked for every type; the two differ only in
   * the arguments of img entries, [img] here and [[img]] there.
   */
  lemma MainRandomMatchesWrapper(count: int, img: Value, randint: RandInt, params: (nat, Workload) -> seq<Value>)
    requires DrawsInRange(randint)
    ensures var mine := MainRandomTaskListOf(count, img, randint, params);
      var theirs := RandomTaskListOf(count, [], img, randint, params);
      theirs.Ok? && |mine| == |theirs.value| == Max0(count) &&
      forall k :: 0 <= k < |mine| ==>
        mine[k].func == theirs.value[k].func &&
        mine[k].args == (if mine[k].func == Img then [img] else theirs.value[k].args)
  {
    assert SelectedOptions([]) == AllWorkloads;
  }

  /**
   * What test_pipeline is given: the initial list, the task count, the image
   * and, per iteration i, the draw source randints(i) and parameter oracle
   * params(i).
   */
  datatype MainJob = MainJob(tasks: seq<Task>, count: int, img: Value,
                             randints: nat -> RandInt, params: nat -> ((nat, Workload) -> seq<Value>))

  /** Every iteration's draw source keeps its draws in range. */
  ghost predicate MainDrawn(job: MainJob) {
    forall i: nat :: DrawsInRange(job.randints(i))
  }

  /** The list iteration i runs: the initial one, or a fresh random one when that is empty. */
  function MainTasksAt(job: MainJob, i: nat): (tasks: seq<Task>)
    requires MainDrawn(job)
    ensures |job.tasks| > 0 ==> tasks == job.tasks
    ensures |job.tasks| == 0 ==> |tasks| == Max0(job.count)
  {
    if |job.tasks| == 0 then MainRandomTaskListOf(job.count, job.img, job.randints(i), job.params(i))
    else job.tasks
  }

  /** The task list each iteration of test_pipeline runs, by iteration number. */
  type MainLists = nat -> seq<Task>

  /** The task lists of a job. */
  ghost function MainListsOf(job: MainJob): MainLists
    requires MainDrawn(job)
  {
    (i: nat) => MainTasksAt(job, i)
  }

  /** lists gives, for every iteration, the task list of job. */
  ghost predicate MainListsMatch(lists: MainLists, job: MainJob) {
    MainDrawn(job) &&
    forall i: nat {:trigger MainTasksAt(job, i)} :: lists(i) == MainTasksAt(job, i)
  }

  /** MainListsOf is the task lists of its job. */
  lemma MainListsOfMatch(job: MainJob)
    requires MainDrawn(job)
    ensures MainListsMatch(MainListsOf(job), job)
  {
  }

  /**
   * The tuples of the first n rounds of test_pipeline, oldest first, or the
   * first failing round. Unlike run_pipeline it has no empty-list check.
   */
  function MainHistory(lists: MainLists, rounds: Rounds, n: nat): (h: Result<seq<seq<Runtimes>>>)
    ensures h.Ok? ==> |h.value| == n
  {
    if n == 0 then Ok([])
    else
      var earlier :- MainHistory(lists, rounds, n - 1);
      var round :- rounds(lists(n - 1), n - 1);
      Ok(earlier + [round])
  }

  /** Once a round has failed, every longer run fails the same way. */
  lemma {:induction false} MainHistoryStaysFailed(lists: MainLists, rounds: Rounds, n: nat, m: nat)
    requires n <= m
    requires MainHistory(lists, rounds, n).Err?
    ensures MainHistory(lists, rounds, m) == MainHistory(lists, rounds, n)
    decreases m - n
  {
    if n < m {
      MainHistoryStaysFailed(lists, rounds, n, m - 1);
    }
  }

  /**
   * test_pipeline (main.py:63-118). The runners are keyed as in run_pipeline
   * and carry the job details of the initial list; the outcome is the history
   * of all iterations, and on success runner s, in key order, holds column s
   * of it: one tuple per iteration. The closing print_runtimes averages every
   * runner's tuples, so with no iteration and at least one runner a history
   * that succeeded still ends in a ZeroDivisionError.
   */
  method TestPipeline(job: MainJob, workers: seq<int>, iterations: int, render: Value -> string, world: World,
                      ghost lists: MainLists, ghost rounds: Rounds)
    returns (r: Result<map<string, Runner>>, counts: seq<int>)
    requires MainListsMatch(lists, job)
    requires RoundsMatch(rounds, DistinctCounts(workers), world)
    ensures counts == DistinctCounts(workers)
    ensures var h := MainHistory(lists, rounds, Max0(iterations));
      (r.Ok? <==> h.Ok? && (Max0(iterations) > 0 || |counts| == 0)) &&
      (r.Err? ==> r.error == if h.Err? then h.error else ZeroDivisionError)
    ensures r.Ok? ==> RunnerTable(counts, r.value, JobDetails(job.tasks, render), job.count)
    ensures r.Ok? ==>
      var h := MainHistory(lists, rounds, Max0(iterations)).value;
      (forall i :: 0 <= i < |h| ==> |h[i]| == |counts|) &&
      forall s :: 0 <= s < |counts| ==>
        RunnersOf(counts, r.value)[s].runtimes == Column(h, s) &&
        |RunnersOf(counts, r.value)[s].runtimes| == Max0(iterations)
  {
    var details := JobDetails(job.tasks, render);
    var table;
    counts, table := BuildRunners(workers, details, job.count);
    RunnersDistinct(counts, table, details, job.count);
    ghost var runners := RunnersOf(counts, table);
    var failure := TestIterations(job, counts, table, runners, Max0(iterations), world, lists, rounds);
    if failure.Some? {
      return Err(failure.value), counts;
    }
    assert forall s :: 0 <= s < |counts| ==> |runners[s].runtimes| == Max0(iterations);
    if Max0(iterations) == 0 && |counts| > 0 {
      assert |runners[0].runtimes| == 0;
    }
    failure := PrintRuntimes(counts, table, runners);
    if failure.Some? {
      return Err(failure.value), counts;
    }
    r := Ok(table);
  }

  /**
   * The iteration loop of test_pipeline (main.py:87-115): random mode is
   * fixed before the loop; each iteration draws a fresh list in random mode
   * and runs one round. The first failure of MainHistory, or none, in which
   * case runner s has gained column s of the history.
   */
  method TestIterations(job: MainJob, counts: seq<int>, table: map<string, Runner>, ghost runners: seq<Runner>,
                        n: nat, world: World, ghost lists: MainLists, ghost rounds: Rounds)
    returns (failure: Option<Error>)
    requires MainListsMatch(lists, job)
    requires RoundsMatch(rounds, counts, world)
    requires RunnersInOrder(counts, table, runners)
    modifies table.Values
    ensures var h := MainHistory(lists, rounds, n);
      (failure.None? <==> h.Ok?) && (failure.Some? ==> failure.value == h.error)
    ensures MainHistory(lists, rounds, n).Ok? ==>
      var h := MainHistory(lists, rounds, n).value;
      (forall i :: 0 <= i < |h| ==> |h[i]| == |counts|) &&
      forall s :: 0 <= s < |counts| ==> runners[s].runtimes == old(runners[s].runtimes) + Column(h, s)
  {
    var useRandom := |job.tasks| == 0;
    var tasks := job.tasks;
    ghost var history: seq<seq<Runtimes>> := [];
    for index := 0 to n
      invariant MainHistory(lists, rounds, index) == Ok(history)
      invariant forall i :: 0 <= i < |history| ==> |history[i]| == |counts|
      invariant useRandom <==> |job.tasks| == 0
      invariant !useRandom ==> tasks == job.tasks
      invariant forall s :: 0 <= s < |counts| ==> runners[s].runtimes == old(runners[s].runtimes) + Column(history, s)
    {
      if useRandom {
        tasks := MainGetRandomTaskList(job.count, job.img, job.randints(index), job.params(index));
      }
      assert tasks == MainTasksAt(job, index);
      var round := RunIteration(counts, table, runners, tasks, world, rounds, index);
      if round.Err? {
        MainHistoryStaysFailed(lists, rounds, index + 1, n);
        return Some(round.error);
      }
      ColumnsSnoc(history, round.value, |counts|);
      history := history + [round.value];
    }
    failure := None;
  }

  /** Every pipeline refuses an empty list: no run of it yields a tuple. */
  lemma EmptyRunFails(n: int, world: World, j: nat)
    ensures RunOf(n, [], world, j).Err?
  {
    if n == 0 {
      SequentialOutcome([], world.run(j), world.clock(j));
    } else {
      PoolOutcome(n, [], world.run(j), world.settle(j), world.clock(j));
    }
  }

  /**
   * test_pipeline has no empty-list guard: when the initial list is empty and
   * task_count is zero or less, every random list is empty too and the first
   * round fails as soon as there is a runner.
   */
  lemma MainEmptyListFails(job: MainJob, lists: MainLists, counts: seq<int>, world: World, rounds: Rounds, n: nat)
    requires MainListsMatch(lists, job)
    requires RoundsMatch(rounds, counts, world)
    requires job.tasks == [] && job.count <= 0 && |counts| > 0 && n >= 1
    ensures MainHistory(lists, rounds, n).Err?
  {
    assert lists(0) == MainTasksAt(job, 0) == [];
    var base := RoundBase(0, |counts|);
    RoundOutcome(counts, [], world, base);
    EmptyRunFails(counts[0], world, base);
    assert rounds([], 0) == RoundOf(counts, [], world, base);
    assert MainHistory(lists, rounds, 1).Err?;
    MainHistoryStaysFailed(lists, rounds, 1, n);
  }

  /** The header row of the results file (main.py:203-214). */
  const CsvHeader: seq<Cell> := [TextCell("Name"), TextCell("Workers"), TextCell("Job details"), TextCell("Job count"),
                                 TextCell("Time: init"), TextCell("Time: work"), TextCell("Time: task avg"), TextCell("Time: total")]

  /** csv_data: the header, then each runner's to_csv rows in key order, or the first runner's error. */
  function CsvDataOf(runners: seq<Runner>): Result<seq<seq<Cell>>>
    reads set i | 0 <= i < |runners| :: runners[i]
  {
    if |runners| == 0 then Ok([CsvHeader])
    else
      var earlier :- CsvDataOf(runners[..|runners| - 1]);
      var rows :- runners[|runners| - 1].ToCsv();
      Ok(earlier + rows)
  }

  /** The results table can be built exactly when every runner has recorded a tuple. */
  lemma {:induction false} CsvDataDefined(runners: seq<Runner>)
    ensures CsvDataOf(runners).Ok? <==> forall i :: 0 <= i < |runners| ==> |runners[i].runtimes| > 0
  {
    if |runners| > 0 {
      var init := runners[..|runners| - 1];
      assert forall i :: 0 <= i < |init| ==> init[i] == runners[i];
      CsvDataDefined(init);
    }
  }

  /**
   * The results table has the header and then one row per runner, in key
   * order; every row, header included, has eight cells.
   */
  lemma {:induction false} CsvDataRows(runners: seq<Runner>)
    requires CsvDataOf(runners).Ok?
    ensures var rows := CsvDataOf(runners).value;
      |rows| == |runners| + 1 && rows[0] == CsvHeader &&
      (forall i :: 0 <= i < |rows| ==> |rows[i]| == 8) &&
      forall i :: 0 <= i < |runners| ==> runners[i].ToCsv().Ok? && rows[i + 1] == runners[i].ToCsv().value[0]
  {
    if |runners| > 0 {
      var init := runners[..|runners| - 1];
      assert forall i :: 0 <= i < |init| ==> init[i] == runners[i];
      CsvDataRows(init);
    }
  }

  /**
   * The row-gathering loop of main (main.py:202-216): the header, then
   * runner.to_csv() of every runner in key order.
   */
  method CsvData(counts: seq<int>, table: map<string, Runner>, ghost runners: seq<Runner>) returns (r: Result<seq<seq<Cell>>>)
    requires RunnersInOrder(counts, table, runners)
    ensures r == CsvDataOf(runners)
  {
    var data := [CsvHeader];
    for s := 0 to |counts|
      invariant CsvDataOf(runners[..s]) == Ok(data)
    {
      assert runners[..s + 1][..s] == runners[..s];
      var rows := table[RunnerKey(counts[s])].ToCsv();
      if rows.Err? {
        CsvDataStaysFailed(runners, s + 1);
        return Err(rows.error);
      }
      data := data + rows.value;
    }
    assert runners[..|counts|] == runners;
    r := Ok(data);
  }

  /** Once a prefix of the runners fails, the whole table fails the same way. */
  lemma {:induction false} CsvDataStaysFailed(runners: seq<Runner>, n: nat)
    requires n <= |runners|
    requires CsvDataOf(runners[..n]).Err?
    ensures CsvDataOf(runners) == CsvDataOf(runners[..n])
    decreases |runners| - n
  {
    if n < |runners| {
      assert runners[..n + 1][..n] == runners[..n];
      CsvDataStaysFailed(runners, n + 1);
    } else {
      assert runners[..n] == runners;
    }
  }

  /**
   * The checks on the configured waits (main.py:144-152): a negative wait
   * after an iteration, then a negative wait after a runner, exits with
   * status 1; absent waits are accepted.
   */
  function CheckWaits(afterIteration: Option<real>, afterRunner: Option<real>): (r: Option<Error>)
    ensures r.None? <==> (afterIteration.None? || afterIteration.value >= 0.0) && (afterRunner.None? || afterRunner.value >= 0.0)
    ensures r.Some? ==> r.value == SystemExit(1)
  {
    if afterIteration.Some? && afterIteration.value < 0.0 then Some(SystemExit(1))
    else if afterRunner.Some? && afterRunner.value < 0.0 then Some(SystemExit(1))
    else None
  }
}
