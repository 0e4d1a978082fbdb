/**
 * util/runner.py: the per-configuration accumulator of pipeline runs. A
 * Runner keeps every 4-tuple a pipeline returned, in the order they were
 * added, and derives the component-wise averages and a CSV row from them.
 * There is no throughput figure and no guard against an empty run list:
 * averaging before any run divides by zero, as in the source.
 */
module Runners {
  import opened Values
  import opened Averages

  /** One cell of a CSV row. */
  datatype Cell = TextCell(text: string) | IntCell(n: int) | RealCell(x: real)

  function RuntimeCells(t: Runtimes): seq<Cell> {
    [RealCell(t.dispatch), RealCell(t.wait), RealCell(t.perTask), RealCell(t.total)]
  }

  class Runner {
    const name: string
    const workers: int
    const jobDetails: string
    const jobCount: int
    /** The tuples recorded by add_runtime, oldest first. */
    var runtimes: seq<Runtimes>

    /** Runner(name, workers, job_details, job_count) (util/runner.py:5-10). */
    constructor(name: string, workers: int, jobDetails: string, jobCount: int)
      ensures this.name == name && this.workers == workers
      ensures this.jobDetails == jobDetails && this.jobCount == jobCount
      ensures runtimes == []
    {
      this.name := name;
      this.workers := workers;
      this.jobDetails := jobDetails;
      this.jobCount := jobCount;
      runtimes := [];
    }

    /** add_runtime: appends one tuple; the earlier ones stay as they were. */
    method AddRuntime(runtime: Runtimes)
      modifies this
      ensures runtimes == old(runtimes) + [runtime]
    {
      runtimes := runtimes + [runtime];
    }

    /**
     * get_avg_runtimes: the component-wise mean of the recorded tuples; with
     * none recorded, a division by zero. Reading it changes nothing.
     */
    function AvgRuntimes(): (r: Result<Runtimes>)
      reads this
      ensures r.Err? <==> |runtimes| == 0
      ensures r.Err? ==> r.error == ZeroDivisionError
      ensures r.Ok? ==> forall k :: 0 <= k < 4 ==> AvgFloat(Project(runtimes, k)) == Ok(Component(r.value, k))
    {
      AvgFromTupleList(runtimes)
    }

    /**
     * to_csv: a single row of eight cells, the four descriptive fields followed
     * by the four averages in tuple order.
     */
    function ToCsv(): (rows: Result<seq<seq<Cell>>>)
      reads this
      ensures rows.Err? <==> |runtimes| == 0
      ensures rows.Err? ==> rows.error == ZeroDivisionError
      ensures rows.Ok? ==> |rows.value| == 1 && |rows.value[0]| == 8
      ensures rows.Ok? ==> rows.value[0][..4] == [TextCell(name), IntCell(workers), TextCell(jobDetails), IntCell(jobCount)]
      ensures rows.Ok? ==> forall k :: 0 <= k < 4 ==> rows.value[0][4 + k] == RealCell(Component(AvgRuntimes().value, k))
    {
      match AvgRuntimes()
      case Err(e) => Err(e)
      case Ok(avg) =>
        Ok([[TextCell(name), IntCell(workers), TextCell(jobDetails), IntCell(jobCount)] + RuntimeCells(avg)])
    }
  }

  /** A runner that recorded the same tuple every time reports that tuple as its average. */
  lemma ConstantRunsAverage(runner: Runner, t: Runtimes)
    requires |runner.runtimes| > 0
    requires forall i :: 0 <= i < |runner.runtimes| ==> runner.runtimes[i] == t
    ensures runner.AvgRuntimes() == Ok(t)
  {
    assert runner.runtimes == seq(|runner.runtimes|, _ => t);
    AvgFromTupleListConstant(t, |runner.runtimes|);
  }
}
