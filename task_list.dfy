/**
 * work_wrapper/task_list.py, and its identical copy in main.py: a task list
 * made of `task_count` copies of one (function, arguments) pair.
 */
module TaskLists {
  import opened Values

  /** count copies of (func, args); none when count <= 0. */
  function Repeated(count: int, func: Workload, args: seq<Value>): (tasks: seq<Task>)
    ensures |tasks| == Max0(count)
  {
    seq(Max0(count), _ => Task(func, args))
  }

  /**
   * get_task_list (work_wrapper/task_list.py:1-6): appends the same pair once
   * per iteration of range(task_count); no entry depends on its position.
   */
  method GetTaskList(count: int, func: Workload, args: seq<Value>) returns (tasks: seq<Task>)
    ensures |tasks| == Max0(count)
    ensures forall i :: 0 <= i < |tasks| ==> tasks[i] == Task(func, args)
    ensures tasks == Repeated(count, func, args)
  {
    tasks := [];
    for i := 0 to Max0(count)
      invariant |tasks| == i
      invariant forall k :: 0 <= k < i ==> tasks[k] == Task(func, args)
    {
      tasks := tasks + [Task(func, args)];
    }
  }
}
