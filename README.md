# Parallel task performance tester, modelled in Dafny

The repository is a benchmarking harness for Python workloads. A
configuration names a workload ("sum", "multi", "io", "zip", "tensor",
"sort", "matrix", "img", "password" or "random"), a task count, a number of
iterations and a list of worker counts. Every worker count gets a Runner,
kept in a dict under the key `sequential` (no workers) or `parallel_{n}`.
In each iteration every runner runs the batch once:

- the sequential pipeline calls the tasks one after the other;
- the pool pipeline submits them to an EasyPool of n workers and collects
  the results sorted by task index.

Either pipeline returns a 4-tuple of durations `(dispatch, wait, mean per
task, total)`. The runner records it. At the end, main.py writes one CSV row
per runner: its four descriptive fields, then the component-wise averages of
its tuples.

This project models that bookkeeping in Dafny:

- the runner table;
- the iteration and dispatch loops of `run_pipeline` and `test_pipeline`;
- both pipelines and the EasyPool submission and collection;
- the Runner accumulator and the averaging;
- the Timer;
- task-list construction and parsing;
- the arithmetic of the summing, password and image workloads.

Everything the harness cannot control is a parameter of the model:

- the wall clock (the k-th `time.time()` reading of a run);
- the random draws;
- what a workload function returns or raises (a `Behaviour`);
- what the collector observes of each worker (a `Settlement`: the worker's
  start and end readings and whether it finished within the timeout);
- SHA-256, `str()` of argument values and `cv2.imread`.

Pipeline runs are numbered in the order they happen. Run j consults the j-th
behaviour, settlements and clock of a `World`. Durations are exact `real`s.

Modules follow the source files:

| module | file |
|---|---|
| `Values` | shared vocabulary |
| `Text` | `str(int)`, `join`/`split` |
| `Averages` | util/math.py |
| `Timing` | util/timer.py |
| `Runners` | util/runner.py |
| `EasyPools` | easy_pool/easy_pool.py |
| `SequentialPipeline` | pipelines/sequential.py |
| `PoolPipeline` | pipelines/pool.py |
| `Orchestration` | the runner table and round loop shared by handler.py and main.py |
| `Handler` | pipelines/handler.py |
| `Driver` | main.py |
| `TaskLists` | work_wrapper/task_list.py |
| `RandomTaskLists` | work_wrapper/random_task_list.py |
| `TaskParsing` | work_wrapper/task_parser.py |
| `Summing` | work/sum.py, work/math.py |
| `Passwords` | work/password.py |
| `Images` | work/img.py |
| `Generator` | util/generator.py |

Notes on the code as written:

- **Raising a string.** `raise (f"...")` in task_parser.py raises a `str`.
  Python 3 turns that into a TypeError, so an unknown task name is modelled
  as a TypeError.
- **handler.py cannot build its runners.** `run_pipeline` passes keywords
  that Runner does not declare. For a non-empty worker list the first Runner
  call raises TypeError, so no table is built; with no workers the loop makes
  no call and the table is empty. See Findings. The rest of the model uses
  the corrected call.
- **print_runtimes can raise.** Both pipelines end with `print_runtimes`,
  which averages each runner's tuples. With no iteration (an iteration count
  of zero or less) and at least one runner, that average divides by zero.
- **Two `get_random_task_list` functions.** The one in main.py gives img
  entries the argument list `[img]`. The one in work_wrapper gives `[[img]]`.
  Both are modelled, and `Driver.MainRandomMatchesWrapper` states how they
  differ.
- **No empty-list guard in test_pipeline.** `test_pipeline` has no guard
  against an empty list, unlike `run_pipeline`, so a non-positive task count
  in random mode ends in a failing run
  (`Driver.MainEmptyListFails`).

## Model

| member | source | states |
|---|---|---|
| Values.WithWorkIndex | pipelines/pool.py:52 | the arguments passed to task i are a new list: the task's own arguments followed by i |
| Values.OptionNameInjective | work_wrapper/random_task_list.py:24-38 | distinct workloads have distinct option names |
| Averages.AvgFloat | util/math.py:1-5 | the mean times the length is the sum; the empty list is a ZeroDivisionError and only it |
| Averages.AvgBetweenExtremes | util/math.py:5 | the mean of a non-empty list lies between its minimum and its maximum |
| Averages.AvgWithin | util/math.py:5 | the mean of values that all lie in [lo, hi] lies in [lo, hi] |
| Averages.SumBounds | util/math.py:5 | n values in [lo, hi] sum to between n*lo and n*hi |
| Averages.SumConstant | util/math.py:5 | n copies of x sum to n*x |
| Averages.AvgConstant | util/math.py:5 | the mean of n > 0 copies of x, a singleton included, is x |
| Averages.AvgFromTupleList | util/math.py:8-19 | component k is avg_float of the k-th projection; an empty list is a ZeroDivisionError and only it |
| Averages.AvgFromTupleListConstant | util/math.py:14-19 | averaging n > 0 copies of a tuple gives that tuple |
| Timing.Timer.constructor | util/timer.py:6-10 | a timer started now holds the reading; otherwise it has no start |
| Timing.Timer.Start | util/timer.py:12-13 | the start becomes the current reading, replacing any earlier one |
| Timing.Timer.GetDuration | util/timer.py:15-16 | start plus duration is the current reading; a never-started timer is a TypeError; the start is left alone |
| Runners.Runner.constructor | util/runner.py:5-10 | the four descriptive fields are stored unchanged and no runtime is recorded |
| Runners.Runner.AddRuntime | util/runner.py:12-13 | exactly one tuple is appended at the end; the earlier ones are unchanged |
| Runners.Runner.AvgRuntimes | util/runner.py:15-16 | the component-wise mean of the recorded tuples; with none recorded, a ZeroDivisionError and only then |
| Runners.Runner.ToCsv | util/runner.py:18-27 | one row of eight cells: name, workers, job details, job count, then the four averages in order; fails exactly when nothing was recorded |
| Runners.ConstantRunsAverage | util/runner.py:15-16 | a runner that recorded the same tuple every time averages to that tuple |
| EasyPools.ProcessIndexedTask | easy_pool/easy_pool.py:48-52 | the triple carries the task's own index, the function's return value and end minus start; an exception propagates |
| EasyPools.CollectedAll | easy_pool/easy_pool.py:61-64 | the get loop succeeds exactly when every get succeeds, and then holds one triple per handle in submission order |
| EasyPools.CollectedFirstError | easy_pool/easy_pool.py:62-64 | a failed get loop reports the error of the first failing get, and every earlier get succeeded |
| EasyPools.CollectedStaysFailed | easy_pool/easy_pool.py:62-64 | after the first failing get no later handle changes the outcome |
| EasyPools.InsertPermutes | easy_pool/easy_pool.py:66 | an insertion step of the sort adds its element and keeps every other |
| EasyPools.InsertSorted | easy_pool/easy_pool.py:66 | inserting into a list sorted by index keeps it sorted |
| EasyPools.SortByIndexPermutes | easy_pool/easy_pool.py:66 | sorting by index is a permutation |
| EasyPools.SortByIndexSorted | easy_pool/easy_pool.py:66 | the sorted results are in ascending index order |
| EasyPools.SortByIndexOfSorted | easy_pool/easy_pool.py:66 | results already in index order are left as they are |
| EasyPools.InsertKeepsTies | easy_pool/easy_pool.py:66 | an insertion step keeps the order of results that share an index |
| EasyPools.SortByIndexStable | easy_pool/easy_pool.py:66 | the sort is stable: results with equal index keep their submission order |
| EasyPools.CollectSorted | easy_pool/easy_pool.py:60-69 | a successful get_results returns one triple per handle, sorted by index, a permutation of what the workers sent |
| EasyPools.NoTimeoutWithoutLimit | easy_pool/easy_pool.py:42-44 | without a timeout no get fails with TimeoutError |
| EasyPools.EasyPool.constructor | easy_pool/easy_pool.py:42-46 | pool size and timeout are stored unchanged, the pool is live and nothing is pending |
| EasyPools.EasyPool.Create | easy_pool/easy_pool.py:42-46 | It returns ValueError exactly when the size is below one, and otherwise a fresh, live pool with no pending handle that keeps the given size and timeout. |
| EasyPools.EasyPool.AddTask | easy_pool/easy_pool.py:54-58 | exactly one handle (index, func, args) is appended and earlier ones are untouched; after shutdown it is an AttributeError and nothing changes |
| EasyPools.EasyPool.GetResults | easy_pool/easy_pool.py:60-69 | the result is get_results of the pending handles; on success the pending list is cleared, on failure it is kept and no partial list is returned |
| EasyPools.EasyPool.Shutdown | easy_pool/easy_pool.py:71-76 | afterwards the pool is gone; a second call changes nothing |
| EasyPools.EasyPool.Finalize | easy_pool/easy_pool.py:78-79 | delegates to shutdown, with the same effect |
| EasyPools.DrainThenShutdownTwice | easy_pool/easy_pool.py:60-79 | after a successful collection a second one returns []; after a failed one the retry collects the same handles again under the later settlements and repeats a workload's exception; shutting down twice leaves the pool shut |
| EasyPools.RetryRepeats | easy_pool/easy_pool.py:60-64 | collecting the same handles again, with the same worker readings and every ready outcome still ready, gives the same result unless the first collection timed out |
| EasyPools.TimeoutRetryCanSucceed | easy_pool/easy_pool.py:60-64 | a task that finishes after the first get's 10 ms timeout is a TimeoutError the first time and its result on a second get |
| SequentialPipeline.CallsFor | pipelines/sequential.py:22-25 | task i is called with its own function and its arguments plus i |
| SequentialPipeline.FirstRaise | pipelines/sequential.py:22-25 | every call before the returned position returns, and the call at it raises |
| SequentialPipeline.FirstRaiseFromAt | pipelines/sequential.py:22-25 | a raising call preceded only by returning calls is the first raise |
| SequentialPipeline.FirstRaiseFromAgrees | pipelines/sequential.py:22-25 | behaviours that raise at the same calls have the same first raise |
| SequentialPipeline.SequentialTestPipeline | pipelines/sequential.py:4-33 | the tuple is SequentialRun; the calls made are the prefix of the list up to and including the first raising call, and none after it |
| SequentialPipeline.SequentialOutcome | pipelines/sequential.py:22-28 | success iff the list is non-empty and no call raises; the empty list is a ZeroDivisionError; a raise reports the first raising call's exception |
| SequentialPipeline.SequentialShape | pipelines/sequential.py:27-33 | dispatch is 0, wait equals total, total is the timer's duration, and the per-task figure times the count is the total |
| SequentialPipeline.ReturnValuesIgnored | pipelines/sequential.py:25 | task return values do not affect the result |
| SequentialPipeline.SequentialDurationsNonNegative | pipelines/sequential.py:27-33 | with a clock that does not run backwards, every reported duration is non-negative |
| PoolPipeline.Submissions | pipelines/pool.py:50-53 | one handle per task, task i with index i and args + [i] |
| PoolPipeline.SubmitBatch | pipelines/pool.py:50-53 | the pool's pending list becomes exactly the submissions, in list order |
| PoolPipeline.PoolTestPipeline | pipelines/pool.py:26-74 | the tuple is PoolRun; what was submitted; the pool ends shut down exactly when a tuple is returned, and its pending list ends empty exactly when get_results succeeded |
| PoolPipeline.CollectAndSummarize | pipelines/pool.py:56-74 | the tuple is the summary of get_results on the pending handles; the pool is left live exactly when no tuple is returned, and its pending list is emptied exactly when get_results succeeds |
| PoolPipeline.PoolResultIndices | pipelines/pool.py:50-61 | results come back with indices exactly 0..n-1 in order; result i is task i's return value and worker i's runtime |
| PoolPipeline.ResultRuntimes | pipelines/pool.py:61-65 | the runtimes averaged are the workers' own, in task order |
| PoolPipeline.SummaryAverage | pipelines/pool.py:65 | the per-task figure times the number of results is the sum of their runtimes |
| PoolPipeline.PoolPerTaskAverage | pipelines/pool.py:65 | the per-task figure times the batch size is the sum of the workers' runtimes |
| PoolPipeline.PoolNeverTimesOut | pipelines/pool.py:48 | the pool has no timeout, so the pipeline never fails with TimeoutError |
| PoolPipeline.PoolOutcome | pipelines/pool.py:26-74 | success iff pool size >= 1, the list is non-empty and no task raises; a size below one is a ValueError; an empty list is a ZeroDivisionError |
| PoolPipeline.PoolTotalCoversPhases | pipelines/pool.py:46-72 | with a non-decreasing clock, dispatch and wait are non-negative and total >= dispatch + wait |
| PoolPipeline.SubmittedArgumentsExtendTask | pipelines/pool.py:52 | the submitted arguments are the task's own list, unchanged, followed by the index |
| Text.Decimal | pipelines/handler.py:29 | the rendering is non-empty and starts with '-' exactly for negative numbers |
| Text.ParseNatDigits | pipelines/handler.py:29 | reading back the decimal digits of n gives n |
| Text.DecimalInjective | pipelines/handler.py:29 | different ints render differently |
| Text.SplitJoin | work_wrapper/task_parser.py:29 | joining parts that do not contain the separator is undone by splitting on it |
| Text.DecimalHasNoSeparator | work_wrapper/task_parser.py:29 | a rendered int never contains a letter or ';' separator |
| Orchestration.RunnerKeyInjective | pipelines/handler.py:28-31 | different worker counts get different keys |
| Orchestration.DistinctCounts | pipelines/handler.py:27-38 | the counts in order of first appearance, each once, exactly those configured |
| Orchestration.KeyOrderDistinct | pipelines/handler.py:27-38 | the table has one key per distinct count and no repeated key |
| Orchestration.TableInsert | pipelines/handler.py:33-38 | storing a new runner under a count's key keeps the table well formed, a repeated count keeping its place |
| Orchestration.BuildRunners | pipelines/handler.py:26-38 | one fresh, empty runner per distinct count, keyed sequential / parallel_{n}, later duplicates replacing earlier ones; also main.py:72-85 |
| Orchestration.RunnersDistinct | pipelines/handler.py:26-38 | the runners in key order are distinct objects with their counts' worker numbers |
| Orchestration.OutcomeAt | pipelines/handler.py:66-71 | runner s of a round gives run base + s |
| Orchestration.AllOkIff | pipelines/handler.py:66-71 | a round's outcomes are all values exactly when none failed |
| Orchestration.AllOkStaysFailed | pipelines/handler.py:66-71 | once a runner has failed, later runners do not change the outcome |
| Orchestration.RoundOutcome | pipelines/handler.py:66-71 | a round succeeds iff every runner's run succeeds, and runner s contributes run base + s's tuple |
| Orchestration.RunOne | pipelines/handler.py:68-71 | a runner without workers runs the sequential pipeline, any other the pool pipeline with its count |
| Orchestration.RunSlot | pipelines/handler.py:68-71 | one runner's run, its tuple appended to its runtimes exactly when the run succeeds |
| Orchestration.RunRound | pipelines/handler.py:66-71 | every runner in key order runs once and gains its tuple; a failing run ends the round with its error |
| Orchestration.PrintRuntimes | util/runner.py:29-42 | the walk over the runners in key order fails exactly when some runner recorded no tuple, and then with ZeroDivisionError |
| Orchestration.RunIteration | pipelines/handler.py:66-71 | the round of iteration i, with each runner's tuple appended; also main.py:100-105 |
| Orchestration.RoundBaseIsProduct | pipelines/handler.py:50-71 | iteration i's runs are numbered from i * width, so no two rounds share a run |
| Orchestration.ColumnsSnoc | pipelines/handler.py:66-71 | adding a round adds each runner's tuple at the end of that runner's column |
| Handler.HandlerKeywordsRejected | pipelines/handler.py:33-38 | Runner declares no task_details parameter, so the handler's keywords do not bind |
| Handler.BuildRunnersAsWritten | pipelines/handler.py:27-38 | as written, any non-empty worker list is a TypeError and no table is built |
| Handler.HistoryStaysFailed | pipelines/handler.py:50-63 | once an iteration fails, every longer run fails the same way |
| Handler.HistoryNext | pipelines/handler.py:50-71 | iteration n+1 fails on a list that cannot be drawn, exits on an empty list, else appends its round or fails with it |
| Handler.IterationTasks | pipelines/handler.py:55-58 | random mode draws a fresh list each iteration; otherwise the list built before the loop is reused |
| Handler.Iteration | pipelines/handler.py:51-71 | one iteration extends the history by its round, each runner gaining its tuple, or fails exactly as the history does |
| Handler.RunIterations | pipelines/handler.py:50-82 | the loop fails exactly as the history does; otherwise runner s has gained column s of it |
| Handler.RunPipeline | pipelines/handler.py:15-85 | with the Runner call corrected: a runner table for the distinct counts, and runner s holding one tuple per iteration, its run of each round; or the history's first failure; a history that succeeded with no iteration and at least one runner ends in print_runtimes' ZeroDivisionError |
| Handler.EmptyListExits | pipelines/handler.py:45-63 | a given function with task_count <= 0 exits with status 1 in the first iteration |
| Handler.NoOptionsFails | pipelines/handler.py:55-58 | random mode with task types that select nothing fails with ValueError at the first draw |
| Driver.SelectTask | main.py:154-179 | nine names select their workload, img with the loaded image as its only argument; random selects none; any other name exits with status 1 |
| Driver.SelectKnownTask | main.py:156-176 | every option name selects its own workload, and random selects none |
| Driver.SelectUnknownTask | main.py:177-179 | any other name exits with status 1 |
| Driver.SelectAgreesWithParser | main.py:154-179 | main and the task parser pick the same workload for each name, and a name main refuses the parser rejects |
| Driver.InitialTasks | main.py:185-190 | random mode starts with no list; otherwise task_count copies of the selected pair |
| Driver.InitialTasksEmpty | main.py:185-190 | the initial list is empty iff the task is random or task_count <= 0, so random mode is on exactly then |
| Driver.JobDetails | main.py:79-81 | the first task's arguments joined by x when there is a task |
| Driver.JobDetailsAgreeWithParser | main.py:79-81 | for a plain workload the details equal the parser's; with no task they are N/A |
| Driver.MainGetRandomTaskList | main.py:236-267 | task_count entries drawn among the nine options, img entries taking [img], the others their generated parameters |
| Driver.MainRandomMatchesWrapper | main.py:236-267 | the same length and workloads as the work_wrapper list for all types; only img arguments differ |
| Driver.MainTasksAt | main.py:87-97 | a non-empty initial list is reused each iteration; an empty one is replaced by a random list of task_count entries |
| Driver.MainHistoryStaysFailed | main.py:91-105 | once a round fails, every longer run fails the same way |
| Driver.TestIterations | main.py:87-115 | random mode is fixed before the loop; the loop fails exactly as the history does, else runner s gains column s |
| Driver.TestPipeline | main.py:63-118 | a runner table with the initial list's job details; runner s holds exactly one tuple per iteration, its run of each round; or the first failure; a history that succeeded with no iteration and at least one runner ends in print_runtimes' ZeroDivisionError |
| Driver.EmptyRunFails | main.py:100-105 | neither pipeline yields a tuple for an empty list |
| Driver.MainEmptyListFails | main.py:87-105 | an empty initial list with task_count <= 0 fails in the first round when there is a runner |
| Driver.CsvDataDefined | main.py:215-216 | the results table can be built iff every runner recorded a tuple |
| Driver.CsvDataRows | main.py:202-216 | the header, then one row per runner in key order; every row has eight cells, matching the header |
| Driver.CsvData | main.py:202-216 | the loop builds CsvDataOf of the runners in key order, or the first runner's error |
| Driver.CsvDataStaysFailed | main.py:215-216 | once a runner's row fails, the table fails the same way |
| Driver.CheckWaits | main.py:144-152 | accepted iff each configured wait is absent or non-negative; otherwise exit status 1 |
| TaskLists.Repeated | work_wrapper/task_list.py:5-6 | task_count entries, none when it is zero or less |
| TaskLists.GetTaskList | work_wrapper/task_list.py:1-7 | task_count copies of the same (func, args) pair, none depending on its position; also main.py:227-233 |
| RandomTaskLists.MatchingIn | work_wrapper/random_task_list.py:46-49 | every option added for a type carries that type's name |
| RandomTaskLists.MatchingInCount | work_wrapper/random_task_list.py:46-49 | a type adds each pool entry of its name as often as the pool holds it, and nothing else |
| RandomTaskLists.Concat | work_wrapper/random_task_list.py:44-49 | every selected option was requested by name |
| RandomTaskLists.PoolHoldsEachOnce | work_wrapper/random_task_list.py:24-38 | the option pool holds each workload exactly once |
| RandomTaskLists.MatchingName | work_wrapper/random_task_list.py:46-49 | a pool name selects exactly its own workload, once |
| RandomTaskLists.MatchingUnknown | work_wrapper/random_task_list.py:46-49 | a name outside the pool selects nothing |
| RandomTaskLists.SelectedByName | work_wrapper/random_task_list.py:44-49 | requesting the names of a list selects exactly that list: request order is kept and repeats are repeated |
| RandomTaskLists.ConcatByName | work_wrapper/random_task_list.py:44-49 | requesting the names of a list, in order, selects exactly that list |
| RandomTaskLists.ConcatSnoc | work_wrapper/random_task_list.py:44-49 | one more requested type appends its own options |
| RandomTaskLists.SelectedSkipsUnknown | work_wrapper/random_task_list.py:46-49 | an unknown requested type adds no option |
| RandomTaskLists.SelectOptions | work_wrapper/random_task_list.py:40-49 | the whole pool for no requested type, else the requested options in request order |
| RandomTaskLists.Draw | work_wrapper/random_task_list.py:57 | randint(0, n-1) indexes the option list |
| RandomTaskLists.GetRandomTaskList | work_wrapper/random_task_list.py:19-67 | the loop builds RandomTaskListOf for the draws, failing with ValueError at once when nothing is selected |
| RandomTaskLists.RandomTaskListShape | work_wrapper/random_task_list.py:54-67 | exactly task_count entries, each a selected option, img ones with [[img]] and the others their parameters; ValueError iff task_count > 0 and nothing is selected |
| TaskParsing.Items | work_wrapper/task_parser.py:58 | iterating a list or tuple yields its items, a string its characters; anything else is a TypeError |
| TaskParsing.ParseOf | work_wrapper/task_parser.py:26-81 | failures are TypeError or IndexError; the argument list keeps its length and all but its first slot |
| TaskParsing.ParseSelects | work_wrapper/task_parser.py:26-79 | a parsed name selects the workload of that name, random selects none, and any other name is a TypeError |
| TaskParsing.ParsePlainName | work_wrapper/task_parser.py:27-53 | the seven plain names keep their arguments and join them by x |
| TaskParsing.XDetailsSplit | work_wrapper/task_parser.py:29 | x-joined details split back into the rendered arguments when none contains x |
| TaskParsing.IntDetailsDetermineArgs | work_wrapper/task_parser.py:27-53 | two integer argument lists with the same details are equal |
| TaskParsing.ParseImg | work_wrapper/task_parser.py:55-63 | img replaces the first argument by one loaded image per path, in order, keeps the rest, and joins the paths by ';' |
| TaskParsing.ParsePassword | work_wrapper/task_parser.py:65-69 | password needs four arguments, fewer is an IndexError, and the arguments are kept |
| TaskParsing.ParseTask | work_wrapper/task_parser.py:26-81 | the result is ParseOf of the caller's list; on success the list is rewritten in place to the parsed arguments, on failure it is unchanged |
| TaskParsing.TaskWrapper.constructor | work_wrapper/task_parser.py:18-21 | the three parse results are stored as fields |
| TaskParsing.TaskWrapper.Create | work_wrapper/task_parser.py:18-21 | a wrapper exists iff the parse succeeds; it keeps the caller's own list, rewritten by the parse |
| TaskParsing.TaskWrapper.ToString | work_wrapper/task_parser.py:23-24 | the function's name, then the details in parentheses; no function is an AttributeError |
| Summing.SummingTask | work/sum.py:4-8 | returns size for size >= 0 and 0 otherwise; the work index is unused; also work/math.py:4-8 |
| Summing.SizeRandomParams | work/sum.py:11-13 | one integer argument in [10000, 10000000]; also work/math.py:18-25 |
| Passwords.GeneratePasswords | work/password.py:74-95 | the loop builds PasswordsOf for the draws; an empty length range is a ValueError |
| Passwords.PasswordsShape | work/password.py:87-95 | exactly passwords_count alphanumeric passwords, each with length within the range |
| Passwords.CeilDivBounds | work/password.py:60 | a <= b * ceil(a / b) < a + b |
| Passwords.CorrectPoolSize | work/password.py:56-63 | the pool covers the correct count; it is the stored list when large enough; nothing stored and correct > 0 is a ZeroDivisionError |
| Passwords.CorrectPool | work/password.py:58-63 | the pool has the computed size and holds only stored passwords |
| Passwords.Shuffle | work/password.py:69 | the shuffle is a permutation |
| Passwords.GenerateTestPasswords | work/password.py:43-71 | a permutation of `correct` stored passwords and test_count - correct generated ones; the exact error conditions |
| Passwords.CountMatches | work/password.py:31-40 | the match count is at most the number of tests |
| Passwords.MatchCount | work/password.py:31-40 | the loop counts the tests whose hash is a stored hash |
| Passwords.CountMatchesPermutation | work/password.py:31-40 | the count does not depend on the order of the tests |
| Passwords.CountMatchesAllStored | work/password.py:29-40 | every test drawn from the stored passwords matches |
| Passwords.MatchBounds | work/password.py:29-40 | the count lies between the number drawn from the stored passwords and the number of tests |
| Passwords.PasswordHashingAndCheckingTask | work/password.py:10-40 | the count lies between the correct count and the number of tests; errors are ValueError or ZeroDivisionError |
| Passwords.PasswordRandomParams | work/password.py:103-121 | stored count in [1000, 10000], tried count in [100, 1000], min length in [6, 20] below max in [21, 30], and the ratio |
| Images.ImgCrop | work/img.py:25-35 | a taller image keeps every column and int(w*ar) rows from (h - crop_h) // 2, any other every row and int(h*ar) columns from (w - crop_w) // 2; the region lies inside the image |
| Images.SquareCrop | work/img.py:25-35 | with ratio 1.0 the crop is the centred square of side min(h, w) |
| Images.ImgResize | work/img.py:16-22 | the longer side becomes max_size and the other its positive truncated scaled length; no rows and no columns is a ZeroDivisionError; otherwise an empty source or a scaled side that truncates to zero is refused by cv2.resize, and only those fail |
| Images.ScaledSide | work/img.py:19 | int(side * max / longer) is at most max, is the floor of the exact quotient, and is zero exactly when side * max < longer |
| Images.ProcessImageShape | work/img.py:8-10 | a non-empty image comes out 512 x 512; an empty one divides by zero |
| Images.ResizeSquare | work/img.py:16-22 | a non-empty square resizes to 512 x 512 |
| Images.ImgManipulationTask | work/img.py:5-13 | one output per input, in order, or the first failure; the work index is unused |
| Images.ManipulatedStaysFailed | work/img.py:7-11 | the first failing image decides the outcome |
| Images.ManipulatedAllSquare | work/img.py:5-13 | a batch of non-empty images gives one 512 x 512 image per input |
| Generator.AlphabetLayout | util/generator.py:8 | 62 distinct characters: lowercase, then uppercase, then digits, exactly the ASCII alphanumerics |
| Generator.GenerateRandomStr | util/generator.py:5-10 | `length` alphanumeric characters, none for a negative length |
| Generator.GenerateDefaultStr | util/generator.py:5 | the default length is 6 |

## Findings

| source | as written | input that shows it | evidently intended | confidence | as-written member | corrected member |
|---|---|---|---|---|---|---|
| pipelines/handler.py:33-38 | `Runner(name=..., workers=..., task_details=..., task_count=...)`, but Runner's parameters are `job_details` and `job_count` (util/runner.py:5) | `run_pipeline(..., workers=[0], ...)`: the first Runner call raises TypeError for the unexpected keyword `task_details` | pass `job_details=task_details, job_count=task_count`, as main.py:83-85 does | not executed | Handler.BuildRunnersAsWritten | Handler.RunPipeline |

## Left out

- Real parallelism is not modelled. `multiprocessing.Pool`, `apply_async`, `terminate` and the fork start method become the per-handle `Settlement` and the task `Behaviour`.
- What a workload does with its arguments is not modelled. The `Behaviour` oracle decides it, so the effect of main.py's `[img]` arguments inside the image task is outside the model.
- The wall clock is not modelled. Every `time.time()` reading is an input.
- `get_duration_str` (timedelta formatting), `print`, the text that `print_runtimes` prints, `time.sleep` and `gc.collect` are left out. They produce output or wait and do not affect any value. The averaging inside `print_runtimes`, which can raise, is modelled by `Orchestration.PrintRuntimes`.
- Python floats are not modelled. Durations and means are exact reals.
- `multiplication_task` (floating-point products) is not part of this model, and neither is the contrast step of the image task (`img_enhance_contrast`, cv2 CLAHE). Their effect is left to the `Behaviour`; the contrast step keeps the shape.
- work/io.py, work/zip.py, work/tensor.py, work/sort.py and work/matrix_inv.py are not part of this model. Their functions are workloads named by `Workload` and run through the `Behaviour`.
- The float product `int(test_count * ratio)` in generate_test_passwords is given as the integer `correct`.
- `random.uniform(0.1, 0.9)` is given as the ratio.
- File and configuration handling is left out: `util/csv.py`, `util/config.py`, `RuntimeConfig`, argparse and json loading in `main`, `os.makedirs`, the dated CSV file name and `cv2.imread` (an input `img`, or the `load` oracle in the parser).
- `custom_task` (main.py:58-60) is not modelled. Nothing in the core calls it.
- Randomness is modelled as explicit draws. This covers `random.seed`, `randint` (a `RandInt` that stays in range), `choices` (positions), `sample` (distinct positions) and `shuffle` (Fisher–Yates swap choices).
- SHA-256 is an abstract total function `hash`.
- Aliasing of argument lists is not modelled, because task lists are values:
  - get_task_list's entries sharing one args list;
  - the shared `[img]` list in main.py's random list;
  - the `.copy()` in work_wrapper's.
  The one in-place rewrite the source performs, task_parser's `task_args[0] = imgs`, is modelled on an array (`TaskParsing.ParseTask`).
- Duplicate source functions are modelled once:
  - `get_task_list` of main.py and of work_wrapper/task_list.py, by `TaskLists.GetTaskList`;
  - `summing_task` and its params of work/sum.py and work/math.py, by `Summing`.
- `EasyPools.EasyPool.GetResults`: after `shutdown` has terminated the workers, the handles are still collected through their settlements. What a terminated pool's handles deliver is left to the `Settlement` oracle.
- `Passwords.PasswordHashingAndCheckingTask`: states the bounds on the match count and which errors can occur, not the exact condition for each error. `Passwords.GenerateTestPasswords` and `Passwords.GeneratePasswords` state those conditions.
- `Handler.RunPipeline` models the runner table with the corrected Runner keywords (see Findings). As written it stops at its first Runner call, which `Handler.BuildRunnersAsWritten` models.
