/**
 * The orchestration shared by pipelines/handler.py and main.py: one Runner
 * per distinct worker count, kept in a dict keyed "sequential" or
 * "parallel_{n}", and one round per iteration in which every runner, in the
 * dict's insertion order, runs its pipeline once and records the tuple.
 *
 * A dict that is assigned an existing key keeps the key's position and takes
 * the new value, so its iteration order is the order in which the distinct
 * worker counts first appear. The model keeps that order as a sequence of
 * distinct counts next to the map from keys to runners.
 *
 * Pipeline runs are numbered in the order they happen; run j consults the
 * j-th task behaviour, worker settlements and clock of a World.
 */
module Orchestration {
  import opened Values
  import opened Text
  import opened Averages
  import opened Runners
  import opened EasyPools
  import opened SequentialPipeline
  import opened PoolPipeline

  /** The key of the runner for a worker count (pipelines/handler.py:28-31, main.py:74-77). */
  function RunnerKey(n: int): string {
    if n != 0 then "parallel_" + Decimal(n) else "sequential"
  }

  /** Different worker counts get different keys. */
  lemma RunnerKeyInjective(a: int, b: int)
    ensures RunnerKey(a) == RunnerKey(b) <==> a == b
  {
    if RunnerKey(a) == RunnerKey(b) {
      assert RunnerKey(a)[0] == RunnerKey(b)[0];
      if a != 0 && b != 0 {
        assert RunnerKey(a)[9..] == Decimal(a);
        assert RunnerKey(b)[9..] == Decimal(b);
        DecimalInjective(a, b);
      }
    }
  }

  /** The worker counts in the order they first appear, each once. */
  function DistinctCounts(workers: seq<int>): (counts: seq<int>)
    ensures forall i, j :: 0 <= i < j < |counts| ==> counts[i] != counts[j]
    ensures forall n :: n in counts <==> n in workers
  {
    if |workers| == 0 then []
    else
      var init := DistinctCounts(workers[..|workers| - 1]);
      var n := workers[|workers| - 1];
      assert workers == workers[..|workers| - 1] + [n];
      if n in init then init else init + [n]
  }

  /** The dict's keys in iteration order. */
  function KeyOrder(counts: seq<int>): (keys: seq<string>)
    ensures |keys| == |counts|
    ensures forall i :: 0 <= i < |counts| ==> keys[i] == RunnerKey(counts[i])
  {
    seq(|counts|, i requires 0 <= i < |counts| => RunnerKey(counts[i]))
  }

  /**
   * The runner table has one key per distinct worker count and no repeated
   * key, whatever repeats the configured list holds.
   */
  lemma KeyOrderDistinct(workers: seq<int>)
    ensures var keys := KeyOrder(DistinctCounts(workers));
      (forall i, j :: 0 <= i < j < |keys| ==> keys[i] != keys[j]) &&
      (forall n :: n in workers <==> RunnerKey(n) in keys)
  {
    var counts := DistinctCounts(workers);
    var keys := KeyOrder(counts);
    forall i, j | 0 <= i < j < |keys|
      ensures keys[i] != keys[j]
    {
      RunnerKeyInjective(counts[i], counts[j]);
    }
    forall n
      ensures n in workers <==> RunnerKey(n) in keys
    {
      if RunnerKey(n) in keys {
        var i :| 0 <= i < |keys| && keys[i] == RunnerKey(n);
        RunnerKeyInjective(n, counts[i]);
      }
      if n in workers {
        var i :| 0 <= i < |counts| && counts[i] == n;
        assert keys[i] == RunnerKey(n);
      }
    }
  }

  /** The keys of a list of distinct worker counts. */
  function KeySet(counts: seq<int>): set<string> {
    set n | n in counts :: RunnerKey(n)
  }

  lemma KeySetSnoc(counts: seq<int>, n: int)
    ensures KeySet(counts + [n]) == KeySet(counts) + {RunnerKey(n)}
  {
    assert forall m :: m in counts + [n] <==> m in counts || m == n;
  }

  /**
   * The runner dict: exactly one key per count, the runner under key
   * RunnerKey(n) was built for n workers with the given details and count,
   * and different keys hold different Runner objects.
   */
  ghost predicate RunnerTable(counts: seq<int>, table: map<string, Runner>, details: string, jobCount: int) {
    table.Keys == KeySet(counts) &&
    (forall n :: n in counts ==>
      var runner := table[RunnerKey(n)];
      runner.name == RunnerKey(n) && runner.workers == n &&
      runner.jobDetails == details && runner.jobCount == jobCount) &&
    (forall a, b :: a in counts && b in counts && a != b ==> table[RunnerKey(a)] != table[RunnerKey(b)])
  }

  /** Storing a new runner for n keeps the table well formed. */
  lemma TableInsert(counts: seq<int>, table: map<string, Runner>, details: string, jobCount: int, n: int, runner: Runner)
    requires RunnerTable(counts, table, details, jobCount)
    requires runner.name == RunnerKey(n) && runner.workers == n
    requires runner.jobDetails == details && runner.jobCount == jobCount
    requires runner !in table.Values
    ensures RunnerTable(if n in counts then counts else counts + [n], table[RunnerKey(n) := runner], details, jobCount)
  {
    var counts' := if n in counts then counts else counts + [n];
    var table' := table[RunnerKey(n) := runner];
    OtherKeysKept(counts, table, n, runner);
    if n !in counts {
      KeySetSnoc(counts, n);
    } else {
      assert RunnerKey(n) in KeySet(counts);
    }
    assert table'.Keys == KeySet(counts');
    assert forall m :: m in counts' <==> m in counts || m == n;
    InsertedFields(counts, table, details, jobCount, n, runner);
    InsertedDistinct(counts, table, details, jobCount, n, runner);
  }

  lemma InsertedFields(counts: seq<int>, table: map<string, Runner>, details: string, jobCount: int, n: int, runner: Runner)
    requires RunnerTable(counts, table, details, jobCount)
    requires runner.name == RunnerKey(n) && runner.workers == n
    requires runner.jobDetails == details && runner.jobCount == jobCount
    ensures forall m :: m in counts || m == n ==>
      var r := table[RunnerKey(n) := runner][RunnerKey(m)];
      r.name == RunnerKey(m) && r.workers == m && r.jobDetails == details && r.jobCount == jobCount
  {
    OtherKeysKept(counts, table, n, runner);
  }

  lemma InsertedDistinct(counts: seq<int>, table: map<string, Runner>, details: string, jobCount: int, n: int, runner: Runner)
    requires RunnerTable(counts, table, details, jobCount)
    requires runner !in table.Values
    ensures forall a, b :: (a in counts || a == n) && (b in counts || b == n) && a != b ==>
      table[RunnerKey(n) := runner][RunnerKey(a)] != table[RunnerKey(n) := runner][RunnerKey(b)]
  {
    OtherKeysKept(counts, table, n, runner);
  }

  /** Storing under n's key leaves every other count's runner in place. */
  lemma OtherKeysKept(counts: seq<int>, table: map<string, Runner>, n: int, runner: Runner)
    requires table.Keys == KeySet(counts)
    ensures forall m :: m in counts && m != n ==>
      RunnerKey(m) in table && table[RunnerKey(n) := runner][RunnerKey(m)] == table[RunnerKey(m)] &&
      table[RunnerKey(m)] in table.Values
  {
    forall m | m in counts && m != n
      ensures RunnerKey(m) != RunnerKey(n) && RunnerKey(m) in table
    {
      RunnerKeyInjective(m, n);
      assert RunnerKey(m) in KeySet(counts);
    }
  }

  /**
   * The runner-table loop (pipelines/handler.py:26-38, main.py:72-85): one
   * new Runner per configured count; a repeated count replaces the earlier
   * runner under the same key, which keeps its place in the order.
   */
  method BuildRunners(workers: seq<int>, details: string, jobCount: int)
    returns (counts: seq<int>, table: map<string, Runner>)
    ensures counts == DistinctCounts(workers)
    ensures RunnerTable(counts, table, details, jobCount)
    ensures forall n :: n in counts ==> fresh(table[RunnerKey(n)]) && table[RunnerKey(n)].runtimes == []
  {
    counts, table := [], map[];
    for i := 0 to |workers|
      invariant counts == DistinctCounts(workers[..i])
      invariant RunnerTable(counts, table, details, jobCount)
      invariant forall n :: n in counts ==> fresh(table[RunnerKey(n)]) && table[RunnerKey(n)].runtimes == []
    {
      assert workers[..i + 1][..i] == workers[..i];
      var n := workers[i];
      var key := if n != 0 then "parallel_" + Decimal(n) else "sequential";
      var runner := new Runner(key, n, details, jobCount);
      TableInsert(counts, table, details, jobCount, n, runner);
      forall m | m in counts && m != n
        ensures RunnerKey(m) != key
      {
        RunnerKeyInjective(m, n);
      }
      table := table[key := runner];
      if n !in counts {
        counts := counts + [n];
      }
    }
    assert workers[..|workers|] == workers;
  }

  /** The behaviours, worker settlements and clock readings of every pipeline run. */
  datatype World = World(run: nat -> Behaviour, settle: nat -> (nat -> Settlement), clock: nat -> (nat -> real))

  /** Run j for a runner with n workers: sequential for 0, pooled otherwise. */
  function RunOf(n: int, tasks: seq<Task>, world: World, j: nat): Result<Runtimes> {
    if n == 0 then SequentialRun(tasks, world.run(j), world.clock(j))
    else PoolRun(n, tasks, world.run(j), world.settle(j), world.clock(j))
  }

  /** The outcomes of one round's runs, numbered base, base + 1, ... in key order. */
  function Outcomes(counts: seq<int>, tasks: seq<Task>, world: World, base: nat): (rs: seq<Result<Runtimes>>)
    ensures |rs| == |counts|
  {
    if |counts| == 0 then []
    else Outcomes(counts[..|counts| - 1], tasks, world, base) + [RunOf(counts[|counts| - 1], tasks, world, base + |counts| - 1)]
  }

  /** Outcome s is what run base + s of runner s gives. */
  lemma {:induction false} OutcomeAt(counts: seq<int>, tasks: seq<Task>, world: World, base: nat, s: nat)
    requires s < |counts|
    ensures Outcomes(counts, tasks, world, base)[s] == RunOf(counts[s], tasks, world, base + s)
  {
    if s < |counts| - 1 {
      var init := counts[..|counts| - 1];
      OutcomeAt(init, tasks, world, base, s);
    }
  }

  /** Every value, or the first failure. */
  function AllOk(rs: seq<Result<Runtimes>>): (r: Result<seq<Runtimes>>)
    ensures r.Ok? ==> (|r.value| == |rs| && forall s :: 0 <= s < |rs| ==> rs[s] == Ok(r.value[s]))
  {
    if |rs| == 0 then Ok([])
    else
      var init :- AllOk(rs[..|rs| - 1]);
      var t :- rs[|rs| - 1];
      Ok(init + [t])
  }

  /** What runner s of a round numbered from base gives. */
  function RunAt(counts: seq<int>, s: nat, tasks: seq<Task>, world: World, base: nat): Result<Runtimes>
    requires s < |counts|
  {
    RunOf(counts[s], tasks, world, base + s)
  }

  /** outcomes lists, runner by runner, what each run of the round gives. */
  ghost predicate OutcomesOf(outcomes: seq<Result<Runtimes>>, counts: seq<int>, tasks: seq<Task>, world: World, base: nat) {
    |outcomes| == |counts| &&
    forall s {:trigger RunAt(counts, s, tasks, world, base)} :: 0 <= s < |counts| ==>
      outcomes[s] == RunAt(counts, s, tasks, world, base)
  }

  /** Outcomes lists the round's runs. */
  lemma OutcomesListsRuns(counts: seq<int>, tasks: seq<Task>, world: World, base: nat)
    ensures OutcomesOf(Outcomes(counts, tasks, world, base), counts, tasks, world, base)
  {
    forall s | 0 <= s < |counts|
      ensures Outcomes(counts, tasks, world, base)[s] == RunAt(counts, s, tasks, world, base)
    {
      OutcomeAt(counts, tasks, world, base, s);
    }
  }

  /** One more value extends the values of a prefix that had no failure. */
  lemma AllOkSnoc(rs: seq<Result<Runtimes>>, n: nat)
    requires n < |rs|
    ensures AllOk(rs[..n + 1]) == if AllOk(rs[..n]).Err? then AllOk(rs[..n])
      else if rs[n].Err? then Err(rs[n].error) else Ok(AllOk(rs[..n]).value + [rs[n].value])
  {
    assert rs[..n + 1][..n] == rs[..n];
  }

  /** Once a prefix has failed, the whole list fails the same way. */
  lemma {:induction false} AllOkStaysFailed(rs: seq<Result<Runtimes>>, n: nat)
    requires n <= |rs|
    requires AllOk(rs[..n]).Err?
    ensures AllOk(rs) == AllOk(rs[..n])
    decreases |rs| - n
  {
    if n < |rs| {
      assert rs[..n + 1][..n] == rs[..n];
      AllOkStaysFailed(rs, n + 1);
    } else {
      assert rs[..n] == rs;
    }
  }

  /**
   * One round over the runners in order: the tuple of every runner, or the
   * failure of the first runner that fails.
   */
  function RoundOf(counts: seq<int>, tasks: seq<Task>, world: World, base: nat): Result<seq<Runtimes>> {
    AllOk(Outcomes(counts, tasks, world, base))
  }

  /** A list of outcomes is all values exactly when no outcome is a failure. */
  lemma {:induction false} AllOkIff(rs: seq<Result<Runtimes>>)
    ensures AllOk(rs).Ok? <==> forall s :: 0 <= s < |rs| ==> rs[s].Ok?
  {
    if |rs| > 0 {
      var init := rs[..|rs| - 1];
      AllOkIff(init);
      assert forall s :: 0 <= s < |init| ==> init[s] == rs[s];
    }
  }

  /**
   * A round succeeds exactly when every runner's run succeeds, and then
   * runner s contributes the tuple of run base + s.
   */
  lemma RoundOutcome(counts: seq<int>, tasks: seq<Task>, world: World, base: nat)
    ensures RoundOf(counts, tasks, world, base).Ok? <==>
      forall s :: 0 <= s < |counts| ==> RunOf(counts[s], tasks, world, base + s).Ok?
    ensures RoundOf(counts, tasks, world, base).Ok? ==>
      var ts := RoundOf(counts, tasks, world, base).value;
      |ts| == |counts| && forall s :: 0 <= s < |counts| ==> RunOf(counts[s], tasks, world, base + s) == Ok(ts[s])
  {
    var rs := Outcomes(counts, tasks, world, base);
    AllOkIff(rs);
    forall s | 0 <= s < |counts|
      ensures rs[s] == RunOf(counts[s], tasks, world, base + s)
    {
      OutcomeAt(counts, tasks, world, base, s);
    }
  }

  /**
   * The dispatch loop of one iteration (pipelines/handler.py:66-71,
   * main.py:100-105): each runner, in key order, runs the sequential
   * pipeline when it has no workers and the pool pipeline with its worker
   * count otherwise, and records the tuple; a failing run ends the loop.
   */
  method RunRound(counts: seq<int>, table: map<string, Runner>, ghost runners: seq<Runner>,
                  tasks: seq<Task>, world: World, base: nat, ghost outcomes: seq<Result<Runtimes>>)
    returns (r: Result<seq<Runtimes>>)
    requires RunnersInOrder(counts, table, runners)
    requires OutcomesOf(outcomes, counts, tasks, world, base)
    modifies table.Values
    ensures r == AllOk(outcomes)
    ensures r.Ok? ==> |r.value| == |counts|
    ensures r.Ok? ==> forall s :: 0 <= s < |counts| ==>
      runners[s].runtimes == old(runners[s].runtimes) + [r.value[s]]
  {
    var done: seq<Runtimes> := [];
    for s := 0 to |counts|
      invariant AllOk(outcomes[..s]) == Ok(done) && |done| == s
      invariant forall t :: 0 <= t < |counts| ==>
        runners[t].runtimes == old(runners[t].runtimes) + (if t < s then [done[t]] else [])
    {
      assert outcomes[..s + 1][..s] == outcomes[..s];
      var runner := table[RunnerKey(counts[s])];
      ghost var previous := done;
      var result := RunSlot(runner, counts, s, tasks, world, base, outcomes);
      AllOkSnoc(outcomes, s);
      if result.Err? {
        AllOkStaysFailed(outcomes, s + 1);
        return Err(result.error);
      }
      done := done + [result.value];
      forall t | 0 <= t < |counts|
        ensures runners[t].runtimes == old(runners[t].runtimes) + (if t < s + 1 then [done[t]] else [])
      {
        if t != s {
          assert runners[t] != runner;
          assert t < s ==> done[t] == previous[t];
        }
      }
    }
    assert outcomes[..|counts|] == outcomes;
    r := Ok(done);
  }

  /**
   * print_runtimes(runners) (util/runner.py:29-42): every runner, in key
   * order, prints the mean of its tuples; the first runner that recorded
   * none divides by zero. The printed text is not modelled.
   */
  method PrintRuntimes(counts: seq<int>, table: map<string, Runner>, ghost runners: seq<Runner>)
    returns (failure: Option<Error>)
    requires RunnersInOrder(counts, table, runners)
    ensures failure.None? <==> forall s :: 0 <= s < |runners| ==> |runners[s].runtimes| > 0
    ensures failure.Some? ==> failure.value == ZeroDivisionError
  {
    for s := 0 to |counts|
      invariant forall t :: 0 <= t < s ==> |runners[t].runtimes| > 0
    {
      var avgs := table[RunnerKey(counts[s])].AvgRuntimes();
      if avgs.Err? {
        return Some(avgs.error);
      }
    }
    return None;
  }

  /**
   * The runners the dict holds, in key order: runner s sits under the key of
   * counts[s], has counts[s] workers, and no runner appears twice.
   */
  ghost predicate RunnersInOrder(counts: seq<int>, table: map<string, Runner>, runners: seq<Runner>) {
    |runners| == |counts| &&
    (forall s :: 0 <= s < |counts| ==>
      RunnerKey(counts[s]) in table && table[RunnerKey(counts[s])] == runners[s] && runners[s].workers == counts[s]) &&
    (forall i, j :: 0 <= i < j < |runners| ==> runners[i] != runners[j])
  }

  /** The runners in key order. */
  ghost function RunnersOf(counts: seq<int>, table: map<string, Runner>): (runners: seq<Runner>)
    requires forall n :: n in counts ==> RunnerKey(n) in table
    ensures |runners| == |counts|
    ensures forall i :: 0 <= i < |counts| ==> runners[i] == table[RunnerKey(counts[i])] && runners[i] in table.Values
  {
    seq(|counts|, i requires 0 <= i < |counts| => table[RunnerKey(counts[i])])
  }

  /** In a runner table the runners in key order are distinct objects with the counts' worker numbers. */
  lemma RunnersDistinct(counts: seq<int>, table: map<string, Runner>, details: string, jobCount: int)
    requires RunnerTable(counts, table, details, jobCount)
    requires forall i, j :: 0 <= i < j < |counts| ==> counts[i] != counts[j]
    ensures forall n :: n in counts ==> RunnerKey(n) in table
    ensures RunnersInOrder(counts, table, RunnersOf(counts, table))
  {
    forall n | n in counts
      ensures RunnerKey(n) in table
    {
      assert RunnerKey(n) in KeySet(counts);
    }
    var runners := RunnersOf(counts, table);
    forall i, j | 0 <= i < j < |counts|
      ensures runners[i] != runners[j]
    {
      assert counts[i] in counts && counts[j] in counts;
    }
    forall i | 0 <= i < |counts|
      ensures runners[i].workers == counts[i]
    {
      assert counts[i] in counts;
    }
  }

  /** One runner's turn: run its pipeline and, if that returns, record the tuple. */
  method RunSlot(runner: Runner, counts: seq<int>, s: nat, tasks: seq<Task>, world: World, base: nat,
                 ghost outcomes: seq<Result<Runtimes>>)
    returns (r: Result<Runtimes>)
    requires s < |counts| && runner.workers == counts[s]
    requires OutcomesOf(outcomes, counts, tasks, world, base)
    modifies runner
    ensures r == outcomes[s]
    ensures runner.runtimes == old(runner.runtimes) + (if r.Ok? then [r.value] else [])
  {
    r := RunOne(runner.workers, tasks, world, base + s);
    assert r == RunAt(counts, s, tasks, world, base);
    if r.Ok? {
      runner.AddRuntime(r.value);
    }
  }

  /** One pipeline run, chosen by the runner's worker count (pipelines/handler.py:68-71). */
  method RunOne(n: int, tasks: seq<Task>, world: World, j: nat) returns (r: Result<Runtimes>)
    ensures r == RunOf(n, tasks, world, j)
  {
    if n == 0 {
      var invoked;
      r, invoked := SequentialTestPipeline(tasks, world.run(j), world.clock(j));
    } else {
      var submitted, released, leftover;
      r, submitted, released, leftover := PoolTestPipeline(n, tasks, world.run(j), world.settle(j), world.clock(j));
    }
  }

  /** The tuples runner s recorded over a history of rounds, oldest first. */
  function Column(history: seq<seq<Runtimes>>, s: nat): (col: seq<Runtimes>)
    requires forall i :: 0 <= i < |history| ==> s < |history[i]|
    ensures |col| == |history|
    ensures forall i :: 0 <= i < |history| ==> col[i] == history[i][s]
  {
    seq(|history|, i requires 0 <= i < |history| => history[i][s])
  }

  /** The first run number of iteration i. */
  function RoundBase(i: nat, width: nat): nat {
    if i == 0 then 0 else RoundBase(i - 1, width) + width
  }

  /** Round i starts at run i * width, so no two rounds share a run number. */
  lemma {:induction false} RoundBaseIsProduct(i: nat, width: nat)
    ensures RoundBase(i, width) == i * width
  {
    if i > 0 {
      RoundBaseIsProduct(i - 1, width);
      assert (i - 1) * width + width == i * width;
    }
  }

  /** The tuples one round over the runners gives for a task list in iteration i. */
  type Rounds = (seq<Task>, nat) -> Result<seq<Runtimes>>

  /** The rounds of a runner table: iteration i numbers its runs from i * |counts| on. */
  function RoundsOf(counts: seq<int>, world: World): Rounds {
    (tasks: seq<Task>, i: nat) => RoundOf(counts, tasks, world, RoundBase(i, |counts|))
  }

  /** Adding a round of width w adds each runner's tuple to its column. */
  lemma ColumnsSnoc(history: seq<seq<Runtimes>>, round: seq<Runtimes>, w: nat)
    requires forall i :: 0 <= i < |history| ==> |history[i]| == w
    requires |round| == w
    ensures forall s :: 0 <= s < w ==> Column(history + [round], s) == Column(history, s) + [round[s]]
  {
    forall s | 0 <= s < w
      ensures Column(history + [round], s) == Column(history, s) + [round[s]]
    {
      ColumnSnoc(history, round, s);
    }
  }

  /** Adding a round adds its tuple for runner s to that runner's column. */
  lemma ColumnSnoc(history: seq<seq<Runtimes>>, round: seq<Runtimes>, s: nat)
    requires forall i :: 0 <= i < |history| ==> s < |history[i]|
    requires s < |round|
    ensures Column(history + [round], s) == Column(history, s) + [round[s]]
  {
    assert |Column(history + [round], s)| == |Column(history, s) + [round[s]]|;
  }

  /**
   * rounds gives, for every task list and iteration, the round the runner
   * table for counts runs in world.
   */
  ghost predicate RoundsMatch(rounds: Rounds, counts: seq<int>, world: World) {
    forall tasks: seq<Task>, i: nat {:trigger RoundOf(counts, tasks, world, RoundBase(i, |counts|))} ::
      rounds(tasks, i) == RoundOf(counts, tasks, world, RoundBase(i, |counts|))
  }

  /** RoundsOf is the rounds of its runner table. */
  lemma RoundsOfMatch(counts: seq<int>, world: World)
    ensures RoundsMatch(RoundsOf(counts, world), counts, world)
  {
  }

  /**
   * One round of iteration index over the runner table (pipelines/handler.py:66-71,
   * main.py:100-105): the round `rounds` names, each runner's tuple appended
   * to its runtimes.
   */
  method RunIteration(counts: seq<int>, table: map<string, Runner>, ghost runners: seq<Runner>,
                      tasks: seq<Task>, world: World, ghost rounds: Rounds, index: nat)
    returns (r: Result<seq<Runtimes>>)
    requires RunnersInOrder(counts, table, runners)
    requires RoundsMatch(rounds, counts, world)
    modifies table.Values
    ensures r == rounds(tasks, index)
    ensures r.Ok? ==> |r.value| == |counts| && forall s :: 0 <= s < |counts| ==>
      runners[s].runtimes == old(runners[s].runtimes) + [r.value[s]]
  {
    var base := RoundBase(index, |counts|);
    OutcomesListsRuns(counts, tasks, world, base);
    r := RunRound(counts, table, runners, tasks, world, base, Outcomes(counts, tasks, world, base));
    assert r == RoundOf(counts, tasks, world, base);
  }
}
