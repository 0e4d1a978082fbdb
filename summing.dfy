/**
 * work/sum.py and the identical summing task of work/math.py: a counting loop
 * used as a CPU-bound workload, and the random size its parameters are drawn
 * from. multiplication_task itself (floating point) is not part of this model;
 * its random parameters are drawn exactly like the summing task's.
 */
module Summing {
  import opened Values

  /**
   * summing_task(size, work_index): adds one per iteration of range(size),
   * so the result is size, or 0 when the range is empty; work_index is unused.
   */
  method SummingTask(size: int, workIndex: int) returns (out: int)
    ensures out == Max0(size)
    ensures size >= 0 ==> out == size
    ensures size <= 0 ==> out == 0
  {
    out := 0;
    var i := 0;
    while i < size
      invariant out == i
      invariant 0 <= i <= Max0(size)
      decreases size - i
    {
      out := out + 1;
      i := i + 1;
    }
  }

  const MinRandomSize: int := 10000
  const MaxRandomSize: int := 10000000

  /**
   * summing_task_random_params and multiplication_task_random_params: a
   * one-element argument list holding randint(10000, 10000000), draw k.
   */
  function SizeRandomParams(randint: RandInt, k: nat): (params: seq<Value>)
    requires DrawsInRange(randint)
    ensures |params| == 1 && params[0].IntV?
    ensures MinRandomSize <= params[0].i <= MaxRandomSize
  {
    [IntV(randint(k, MinRandomSize, MaxRandomSize))]
  }
}
