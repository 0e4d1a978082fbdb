/**
 * The vocabulary shared by the whole benchmark model: the exceptions the
 * modelled code raises, the dynamically typed argument values that task lists
 * carry, the closed menu of workloads, and the Result/Option wrappers.
 */
module Values {

  /** The Python exceptions that the modelled code can raise. */
  datatype Error =
    | ZeroDivisionError            // x / 0, in particular the mean of an empty list
    | TimeoutError                 // AsyncResult.get waited longer than the pool's timeout
    | ValueError                   // randint on an empty range, Pool(processes < 1), sample of a negative size
    | TypeError                    // bad keyword arguments, a non-iterable value, arithmetic on None, raising a str
    | IndexError                   // indexing an argument list past its end
    | AttributeError               // an attribute of None, or one that was deleted
    | SystemExit(code: int)        // sys.exit(code)
    | OpenCvError                  // cv2.resize given an empty source or a target with a zero side
    | WorkloadError(exception: string)  // a workload function raised this exception

  datatype Result<+T> = Ok(value: T) | Err(error: Error) {
    predicate IsFailure() { Err? }
    function PropagateFailure<U>(): Result<U>
      requires Err?
    {
      Err(error)
    }
    function Extract(): T
      requires Ok?
    {
      value
    }
  }

  datatype Option<+T> = None | Some(value: T)

  /** Height and width of an image; the pixels themselves are not modelled. */
  datatype Shape = Shape(h: nat, w: nat)

  /** The argument values that travel in task lists (JSON values and images). */
  datatype Value =
    | IntV(i: int)
    | FloatV(f: real)
    | StrV(s: string)
    | NoneV
    | ListV(items: seq<Value>)
    | TupleV(items: seq<Value>)
    | ImageV(shape: Shape)

  /** The closed menu of workloads, in the order of the random-task option pool. */
  datatype Workload = Sum | Multi | Io | Zip | Tensor | Sort | Matrix | Password | Img

  const AllWorkloads: seq<Workload> := [Sum, Multi, Io, Zip, Tensor, Sort, Matrix, Password, Img]

  /** The name by which a configuration or a task-type list selects a workload. */
  function OptionName(w: Workload): string {
    match w
    case Sum => "sum"
    case Multi => "multi"
    case Io => "io"
    case Zip => "zip"
    case Tensor => "tensor"
    case Sort => "sort"
    case Matrix => "matrix"
    case Password => "password"
    case Img => "img"
  }

  /** Distinct workloads have distinct option names. */
  lemma OptionNameInjective(a: Workload, b: Workload)
    ensures OptionName(a) == OptionName(b) ==> a == b
  {
    if OptionName(a) == OptionName(b) {
      assert OptionName(a)[0] == OptionName(b)[0];
      assert |OptionName(a)| == |OptionName(b)|;
    }
  }

  /** The `__name__` of the Python function that implements a workload. */
  function FunctionName(w: Workload): string {
    match w
    case Sum => "summing_task"
    case Multi => "multiplication_task"
    case Io => "io_task"
    case Zip => "file_compression_task"
    case Tensor => "tensor_task"
    case Sort => "sorting_task"
    case Matrix => "matrix_inversion_task"
    case Password => "password_hashing_and_checking_task"
    case Img => "img_manipulation_task"
  }

  /** One entry of a task list: the workload and its declared arguments. */
  datatype Task = Task(func: Workload, args: seq<Value>)

  /**
   * task_args + [index]: both pipelines pass the batch position as a trailing
   * "work index" argument, in a new list.
   */
  function WithWorkIndex(args: seq<Value>, index: nat): (r: seq<Value>)
    ensures |r| == |args| + 1 && r[..|args|] == args && r[|args|] == IntV(index)
  {
    args + [IntV(index)]
  }

  /** What a single call of a workload function does: return a value or raise. */
  datatype Completion = Returned(value: Value) | Raised(exception: string)

  /** The behaviour of the workload functions, given as a parameter of the model. */
  type Behaviour = (Workload, seq<Value>) -> Completion

  /**
   * random.randint(lo, hi) as the k-th draw of a random source. The model
   * only consults a draw when lo <= hi; the source raises ValueError otherwise.
   */
  type RandInt = (nat, int, int) -> int

  /** What randint promises: every draw lies in its closed range. */
  ghost predicate DrawsInRange(randint: RandInt) {
    forall k: nat, lo: int, hi: int :: lo <= hi ==> lo <= randint(k, lo, hi) <= hi
  }

  function Max0(n: int): nat {
    if n < 0 then 0 else n
  }
}
