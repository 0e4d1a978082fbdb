/**
 * work_wrapper/task_parser.py: turns a configured task name and its argument
 * list into the workload to run, the (possibly rewritten) argument list and a
 * details string for the report.
 *
 * `render` is Python's str() on argument values and `load` is the image
 * reader applied to each image path; both are parameters of the model.
 */
module TaskParsing {
  import opened Values
  import opened Text

  /** What parse_task returns: the workload (None for random), the arguments and the details. */
  datatype Parsed = Parsed(func: Option<Workload>, args: seq<Value>, details: string)

  /** [str(x) for x in xs]. */
  function Rendered(xs: seq<Value>, render: Value -> string): (strs: seq<string>)
    ensures |strs| == |xs|
    ensures forall i :: 0 <= i < |xs| ==> strs[i] == render(xs[i])
  {
    seq(|xs|, i requires 0 <= i < |xs| => render(xs[i]))
  }

  /** [imread(p) for p in paths]. */
  function Loaded(paths: seq<Value>, load: Value -> Value): (imgs: seq<Value>)
    ensures |imgs| == |paths|
    ensures forall i :: 0 <= i < |paths| ==> imgs[i] == load(paths[i])
  {
    seq(|paths|, i requires 0 <= i < |paths| => load(paths[i]))
  }

  /**
   * What `for x in v` iterates over: the items of a list or tuple, the
   * one-character strings of a string; anything else is not iterable.
   */
  function Items(v: Value): (r: Result<seq<Value>>)
    ensures r.Err? <==> !(v.ListV? || v.TupleV? || v.StrV?)
    ensures r.Err? ==> r.error == TypeError
    ensures v.ListV? || v.TupleV? ==> r == Ok(v.items)
    ensures v.StrV? ==> (r.Ok? && |r.value| == |v.s| &&
      forall i :: 0 <= i < |v.s| ==> r.value[i] == StrV([v.s[i]]))
  {
    match v
    case ListV(items) => Ok(items)
    case TupleV(items) => Ok(items)
    case StrV(s) => Ok(seq(|s|, i requires 0 <= i < |s| => StrV([s[i]])))
    case _ => Err(TypeError)
  }

  /** The seven workloads whose details are their arguments joined by "x". */
  predicate JoinsWithX(w: Workload) {
    w != Img && w != Password
  }

  /** The x-joined details of a plain workload. */
  function XDetails(args: seq<Value>, render: Value -> string): string {
    Join("x", Rendered(args, render))
  }

  /**
   * parse_task (work_wrapper/task_parser.py:26-81). Seven names keep their
   * arguments and join them by "x"; img needs a first argument it can
   * iterate, loads one image per path into a new first argument and joins the
   * paths by ";"; password needs four arguments; random has no function; any
   * other name raises a str, which Python rejects with a TypeError.
   */
  function ParseOf(task: string, args: seq<Value>, render: Value -> string, load: Value -> Value): (r: Result<Parsed>)
    ensures r.Err? ==> r.error == TypeError || r.error == IndexError
    ensures r.Ok? ==> |r.value.args| == |args|
    ensures r.Ok? ==> forall i :: 1 <= i < |args| ==> r.value.args[i] == args[i]
  {
    if task == "sum" then Ok(Parsed(Some(Sum), args, XDetails(args, render)))
    else if task == "multi" then Ok(Parsed(Some(Multi), args, XDetails(args, render)))
    else if task == "io" then Ok(Parsed(Some(Io), args, XDetails(args, render)))
    else if task == "zip" then Ok(Parsed(Some(Zip), args, XDetails(args, render)))
    else if task == "tensor" then Ok(Parsed(Some(Tensor), args, XDetails(args, render)))
    else if task == "sort" then Ok(Parsed(Some(Sort), args, XDetails(args, render)))
    else if task == "matrix" then Ok(Parsed(Some(Matrix), args, XDetails(args, render)))
    else if task == "img" then
      if |args| == 0 then Err(IndexError)
      else
        var paths :- Items(args[0]);
        Ok(Parsed(Some(Img), args[0 := ListV(Loaded(paths, load))], Join(";", Rendered(paths, render))))
    else if task == "password" then
      if |args| < 4 then Err(IndexError)
      else Ok(Parsed(Some(Password), args,
        render(args[0]) + "/" + render(args[1]) + "; " + render(args[2]) + "; " + render(args[3])))
    else if task == "random" then
      Ok(Parsed(None, args, if |args| == 0 then "any" else Join(";", Rendered(args, render))))
    else Err(TypeError)
  }

  /**
   * The parser accepts exactly the nine option names and "random": a
   * successful parse of a name selects the workload of that name, "random"
   * selects none, and any other name is a TypeError.
   */
  lemma ParseSelects(task: string, args: seq<Value>, render: Value -> string, load: Value -> Value)
    ensures var r := ParseOf(task, args, render, load);
      r.Ok? ==> ((r.value.func.None? <==> task == "random") &&
        (r.value.func.Some? ==> task == OptionName(r.value.func.value)))
    ensures (forall w :: task != OptionName(w)) && task != "random" ==>
      ParseOf(task, args, render, load) == Err(TypeError)
  {
    if (forall w :: task != OptionName(w)) && task != "random" {
      assert task != OptionName(Sum) && task != OptionName(Multi) && task != OptionName(Io);
      assert task != OptionName(Zip) && task != OptionName(Tensor) && task != OptionName(Sort);
      assert task != OptionName(Matrix) && task != OptionName(Img) && task != OptionName(Password);
    }
  }

  /**
   * Each of the seven plain names selects its own workload, keeps the
   * argument list and reports it joined by "x".
   */
  lemma ParsePlainName(w: Workload, args: seq<Value>, render: Value -> string, load: Value -> Value)
    requires JoinsWithX(w)
    ensures ParseOf(OptionName(w), args, render, load) == Ok(Parsed(Some(w), args, XDetails(args, render)))
  {
  }

  /**
   * When no rendered argument contains an "x", splitting the details on "x"
   * gives back the rendered arguments one by one.
   */
  lemma XDetailsSplit(args: seq<Value>, render: Value -> string)
    requires |args| >= 1
    requires forall i :: 0 <= i < |args| ==> 'x' !in render(args[i])
    ensures Split(XDetails(args, render), 'x') == Rendered(args, render)
  {
    SplitJoin(Rendered(args, render), 'x');
  }

  /** str() renders an int in decimal. */
  ghost predicate RendersIntsInDecimal(render: Value -> string) {
    forall n :: render(IntV(n)) == Decimal(n)
  }

  /**
   * For integer arguments the x-joined details identify them: two non-empty
   * integer argument lists with the same details are the same list.
   */
  lemma IntDetailsDetermineArgs(a: seq<Value>, b: seq<Value>, render: Value -> string)
    requires RendersIntsInDecimal(render)
    requires |a| >= 1 && |b| >= 1
    requires forall i :: 0 <= i < |a| ==> a[i].IntV?
    requires forall i :: 0 <= i < |b| ==> b[i].IntV?
    requires XDetails(a, render) == XDetails(b, render)
    ensures a == b
  {
    forall i | 0 <= i < |a|
      ensures 'x' !in render(a[i])
    {
      DecimalHasNoSeparator(a[i].i, 'x');
    }
    forall i | 0 <= i < |b|
      ensures 'x' !in render(b[i])
    {
      DecimalHasNoSeparator(b[i].i, 'x');
    }
    XDetailsSplit(a, render);
    XDetailsSplit(b, render);
    assert Rendered(a, render) == Rendered(b, render);
    forall i | 0 <= i < |a|
      ensures a[i] == b[i]
    {
      assert Decimal(a[i].i) == Decimal(b[i].i);
      DecimalInjective(a[i].i, b[i].i);
    }
  }

  /**
   * img replaces the first argument by one loaded image per path, in path
   * order, keeps the other arguments, and reports the paths joined by ";";
   * when no rendered path contains a ";" the details split back into them.
   */
  lemma ParseImg(args: seq<Value>, render: Value -> string, load: Value -> Value)
    requires |args| >= 1 && Items(args[0]).Ok?
    ensures var paths := Items(args[0]).value;
      var r := ParseOf("img", args, render, load);
      r.Ok? && r.value.func == Some(Img) &&
      r.value.args[0] == ListV(Loaded(paths, load)) &&
      r.value.args[1..] == args[1..] &&
      ((|paths| >= 1 && forall i :: 0 <= i < |paths| ==> ';' !in render(paths[i])) ==>
        Split(r.value.details, ';') == Rendered(paths, render))
  {
    var paths := Items(args[0]).value;
    if |paths| >= 1 && forall i :: 0 <= i < |paths| ==> ';' !in render(paths[i]) {
      SplitJoin(Rendered(paths, render), ';');
    }
  }

  /** Password details need four arguments; fewer is an IndexError. */
  lemma ParsePassword(args: seq<Value>, render: Value -> string, load: Value -> Value)
    ensures ParseOf("password", args, render, load).Err? <==> |args| < 4
    ensures |args| < 4 ==> ParseOf("password", args, render, load).error == IndexError
    ensures |args| >= 4 ==> ParseOf("password", args, render, load).value.args == args
  {
  }

  /**
   * parse_task on a mutable argument list: the img branch writes the loaded
   * images into slot 0 of the caller's own list. On failure the list is left
   * as it was.
   */
  method ParseTask(task: string, args: array<Value>, render: Value -> string, load: Value -> Value)
    returns (r: Result<Parsed>)
    modifies args
    ensures r == ParseOf(task, old(args[..]), render, load)
    ensures r.Ok? ==> args[..] == r.value.args
    ensures r.Err? ==> args[..] == old(args[..])
  {
    if task == "sum" {
      r := Ok(Parsed(Some(Sum), args[..], XDetails(args[..], render)));
    } else if task == "multi" {
      r := Ok(Parsed(Some(Multi), args[..], XDetails(args[..], render)));
    } else if task == "io" {
      r := Ok(Parsed(Some(Io), args[..], XDetails(args[..], render)));
    } else if task == "zip" {
      r := Ok(Parsed(Some(Zip), args[..], XDetails(args[..], render)));
    } else if task == "tensor" {
      r := Ok(Parsed(Some(Tensor), args[..], XDetails(args[..], render)));
    } else if task == "sort" {
      r := Ok(Parsed(Some(Sort), args[..], XDetails(args[..], render)));
    } else if task == "matrix" {
      r := Ok(Parsed(Some(Matrix), args[..], XDetails(args[..], render)));
    } else if task == "img" {
      if args.Length == 0 {
        return Err(IndexError);
      }
      var items := Items(args[0]);
      if items.Err? {
        return Err(items.error);
      }
      var paths := items.value;
      var imgs: seq<Value> := [];
      for k := 0 to |paths|
        invariant imgs == Loaded(paths, load)[..k]
      {
        imgs := imgs + [load(paths[k])];
      }
      assert imgs == Loaded(paths, load);
      var details := Join(";", Rendered(paths, render));
      args[0] := ListV(imgs);
      assert args[..] == old(args[..])[0 := ListV(imgs)];
      r := Ok(Parsed(Some(Img), args[..], details));
    } else if task == "password" {
      if args.Length < 4 {
        return Err(IndexError);
      }
      var details := render(args[0]) + "/" + render(args[1]) + "; " + render(args[2]) + "; " + render(args[3]);
      r := Ok(Parsed(Some(Password), args[..], details));
    } else if task == "random" {
      var details := if args.Length == 0 then "any" else Join(";", Rendered(args[..], render));
      r := Ok(Parsed(None, args[..], details));
    } else {
      r := Err(TypeError);
    }
  }

  /** A parsed task: its workload, its argument list and its details. */
  class TaskWrapper {
    var func: Option<Workload>
    var args: array<Value>
    var details: string

    /** The three parse results stored as fields. */
    constructor(func: Option<Workload>, args: array<Value>, details: string)
      ensures this.func == func && this.args == args && this.details == details
    {
      this.func := func;
      this.args := args;
      this.details := details;
    }

    /**
     * TaskWrapper(task, task_args) (work_wrapper/task_parser.py:18-21): parses
     * and keeps the caller's own list as its arguments, so the img rewrite
     * is visible to the caller; a failed parse creates no wrapper.
     */
    static method Create(task: string, args: array<Value>, render: Value -> string, load: Value -> Value)
      returns (r: Result<TaskWrapper>)
      modifies args
      ensures var spec := ParseOf(task, old(args[..]), render, load);
        r.Ok? <==> spec.Ok?
      ensures r.Err? ==> r.error == ParseOf(task, old(args[..]), render, load).error && args[..] == old(args[..])
      ensures r.Ok? ==> (fresh(r.value) && r.value.args == args &&
        Parsed(r.value.func, args[..], r.value.details) == ParseOf(task, old(args[..]), render, load).value)
    {
      var parsed := ParseTask(task, args, render, load);
      if parsed.Err? {
        return Err(parsed.error);
      }
      var wrapper := new TaskWrapper(parsed.value.func, args, parsed.value.details);
      r := Ok(wrapper);
    }

    /**
     * str(wrapper) (work_wrapper/task_parser.py:23-24): the function's name
     * with the details in parentheses; a random wrapper has no function, so
     * reading its name is an AttributeError.
     */
    function ToString(): (s: Result<string>)
      reads this
      ensures s.Err? <==> func.None?
      ensures s.Err? ==> s.error == AttributeError
      ensures s.Ok? ==> var name := FunctionName(func.value);
        |s.value| == |name| + |details| + 2 &&
        s.value[..|name|] == name && s.value[|name|] == '(' &&
        s.value[|name| + 1..|s.value| - 1] == details && s.value[|s.value| - 1] == ')'
    {
      match func
      case None => Err(AttributeError)
      case Some(w) => Ok(FunctionName(w) + "(" + details + ")")
    }
  }
}
