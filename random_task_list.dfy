/**
 * work_wrapper/random_task_list.py: a task list of fixed length whose entries
 * are drawn at random among the workloads the requested task types select.
 * randint is the draw oracle; `params(k, w)` is what the random-parameter
 * function of workload w returns for entry k.
 */
module RandomTaskLists {
  import opened Values

  /**
   * The pool entries, among ws and in their order, whose name equals the
   * requested type t.
   */
  function MatchingIn(t: Value, ws: seq<Workload>): (m: seq<Workload>)
    ensures forall i :: 0 <= i < |m| ==> t == StrV(OptionName(m[i])) && m[i] in ws
  {
    if |ws| == 0 then []
    else
      var w := ws[|ws| - 1];
      MatchingIn(t, ws[..|ws| - 1]) + (if t == StrV(OptionName(w)) then [w] else [])
  }

  /** Each entry of ws named t is kept as often as ws holds it; no other is kept. */
  lemma {:induction false} MatchingInCount(t: Value, ws: seq<Workload>, w: Workload)
    ensures multiset(MatchingIn(t, ws))[w] == if t == StrV(OptionName(w)) then multiset(ws)[w] else 0
  {
    if |ws| > 0 {
      var last := ws[|ws| - 1];
      assert ws == ws[..|ws| - 1] + [last];
      MatchingInCount(t, ws[..|ws| - 1], w);
    }
  }

  /** The options one requested type adds, scanning the pool in its order. */
  function Matching(t: Value): seq<Workload> {
    MatchingIn(t, AllWorkloads)
  }

  /** The options a non-empty list of requested types adds, type by type. */
  function Concat(types: seq<Value>): (options: seq<Workload>)
    ensures forall i :: 0 <= i < |options| ==> StrV(OptionName(options[i])) in types
  {
    if |types| == 0 then []
    else Concat(types[..|types| - 1]) + Matching(types[|types| - 1])
  }

  /** task_options: the whole pool for no requested type, else the requested ones in request order. */
  function SelectedOptions(types: seq<Value>): seq<Workload> {
    if |types| == 0 then AllWorkloads else Concat(types)
  }

  /** A pool name selects exactly its own workload, once. */
  lemma MatchingName(w: Workload)
    ensures Matching(StrV(OptionName(w))) == [w]
  {
    PoolHoldsEachOnce(w);
    MatchingInOnce(AllWorkloads, w);
  }

  /** Every workload appears exactly once in the option pool. */
  lemma PoolHoldsEachOnce(w: Workload)
    ensures multiset(AllWorkloads)[w] == 1
  {
  }

  /** In a list holding w once, w's name selects exactly [w]. */
  lemma MatchingInOnce(ws: seq<Workload>, w: Workload)
    requires multiset(ws)[w] == 1
    ensures MatchingIn(StrV(OptionName(w)), ws) == [w]
  {
    var m := MatchingIn(StrV(OptionName(w)), ws);
    forall v
      ensures multiset(m)[v] == multiset{w}[v]
    {
      OptionNameInjective(v, w);
      MatchingInCount(StrV(OptionName(w)), ws, v);
    }
    assert multiset(m) == multiset{w};
    assert m[0] in multiset(m);
  }

  /** A value that names no pool entry selects nothing. */
  lemma MatchingUnknown(t: Value)
    requires forall w :: t != StrV(OptionName(w))
    ensures Matching(t) == []
  {
    forall v
      ensures multiset(Matching(t))[v] == 0
    {
      MatchingInCount(t, AllWorkloads, v);
    }
    assert multiset(Matching(t)) == multiset{};
  }

  /** The option names of ws, as requested task types. */
  function Names(ws: seq<Workload>): (types: seq<Value>)
    ensures |types| == |ws|
    ensures forall i :: 0 <= i < |ws| ==> types[i] == StrV(OptionName(ws[i]))
  {
    if |ws| == 0 then [] else Names(ws[..|ws| - 1]) + [StrV(OptionName(ws[|ws| - 1]))]
  }

  /**
   * Requesting the names of ws, in that order, selects exactly ws: request
   * order is kept and a repeated name repeats its option.
   */
  lemma SelectedByName(ws: seq<Workload>)
    requires |ws| > 0
    ensures SelectedOptions(Names(ws)) == ws
  {
    ConcatByName(ws);
  }

  lemma {:induction false} ConcatByName(ws: seq<Workload>)
    ensures Concat(Names(ws)) == ws
  {
    if |ws| > 0 {
      var init, last := ws[..|ws| - 1], ws[|ws| - 1];
      assert ws == init + [last];
      assert Names(ws) == Names(init) + [StrV(OptionName(last))];
      ConcatByName(init);
      ConcatNameSnoc(Names(init), last);
    }
  }

  /** Requesting one more pool name appends its workload. */
  lemma ConcatNameSnoc(types: seq<Value>, w: Workload)
    ensures Concat(types + [StrV(OptionName(w))]) == Concat(types) + [w]
  {
    ConcatSnoc(types, StrV(OptionName(w)));
    MatchingName(w);
  }

  /** One more requested type appends its own options. */
  lemma ConcatSnoc(types: seq<Value>, t: Value)
    ensures Concat(types + [t]) == Concat(types) + Matching(t)
  {
    assert (types + [t])[..|types|] == types;
  }

  /** A requested type that names nothing adds no option. */
  lemma SelectedSkipsUnknown(types: seq<Value>, t: Value)
    requires forall w :: t != StrV(OptionName(w))
    ensures Concat(types + [t]) == Concat(types)
  {
    ConcatSnoc(types, t);
    MatchingUnknown(t);
  }

  /** The nested loops that build task_options (work_wrapper/random_task_list.py:40-49). */
  method SelectOptions(types: seq<Value>) returns (options: seq<Workload>)
    ensures options == SelectedOptions(types)
  {
    if |types| == 0 {
      return AllWorkloads;
    }
    options := [];
    for i := 0 to |types|
      invariant options == Concat(types[..i])
    {
      assert types[..i + 1][..i] == types[..i];
      for j := 0 to |AllWorkloads|
        invariant options == Concat(types[..i]) + MatchingIn(types[i], AllWorkloads[..j])
      {
        assert AllWorkloads[..j + 1][..j] == AllWorkloads[..j];
        if types[i] == StrV(OptionName(AllWorkloads[j])) {
          options := options + [AllWorkloads[j]];
        }
      }
      assert AllWorkloads[..|AllWorkloads|] == AllWorkloads;
    }
    assert types[..|types|] == types;
  }

  /** The arguments of a drawn entry: a copy of [[img]] for img, fresh parameters otherwise. */
  function EntryArgs(w: Workload, img: Value, params: (nat, Workload) -> seq<Value>, k: nat): seq<Value> {
    if w == Img then [ListV([img])] else params(k, w)
  }

  /** randint(0, n - 1): an index into a non-empty option list. */
  function Draw(randint: RandInt, k: nat, n: nat): (i: nat)
    requires DrawsInRange(randint) && n > 0
    ensures i < n
  {
    var d := randint(k, 0, n - 1);
    assert 0 <= d <= n - 1;
    d
  }

  /** What get_random_task_list returns for the given draws. */
  function RandomTaskListOf(count: int, types: seq<Value>, img: Value, randint: RandInt, params: (nat, Workload) -> seq<Value>): Result<seq<Task>>
    requires DrawsInRange(randint)
  {
    var options := SelectedOptions(types);
    if count > 0 && |options| == 0 then Err(ValueError)
    else Ok(seq(Max0(count), k requires 0 <= k < Max0(count) =>
      var w := options[Draw(randint, k, |options|)];
      Task(w, EntryArgs(w, img, params, k))))
  }

  /**
   * get_random_task_list (work_wrapper/random_task_list.py:19-67): one
   * entry per iteration of range(task_count), each drawn among the selected
   * options; with no option selected, the first randint(0, -1) raises.
   */
  method GetRandomTaskList(count: int, types: seq<Value>, img: Value, randint: RandInt, params: (nat, Workload) -> seq<Value>)
    returns (r: Result<seq<Task>>)
    requires DrawsInRange(randint)
    ensures r == RandomTaskListOf(count, types, img, randint, params)
  {
    var options := SelectOptions(types);
    if count > 0 && |options| == 0 {
      // the first draw, randint(0, -1), has an empty range
      return Err(ValueError);
    }
    ghost var spec := RandomTaskListOf(count, types, img, randint, params).value;
    var taskList: seq<Task> := [];
    for k := 0 to Max0(count)
      invariant taskList == spec[..k]
    {
      assert spec[..k + 1] == spec[..k] + [spec[k]];
      var w := options[Draw(randint, k, |options|)];
      taskList := taskList + [Task(w, EntryArgs(w, img, params, k))];
    }
    assert spec[..Max0(count)] == spec;
    r := Ok(taskList);
  }

  /**
   * The random list has exactly task_count entries (none for a count of zero
   * or less), each a selected option; img entries carry [[img]], the others
   * the parameters drawn for them.
   */
  lemma RandomTaskListShape(count: int, types: seq<Value>, img: Value, randint: RandInt, params: (nat, Workload) -> seq<Value>)
    requires DrawsInRange(randint)
    ensures RandomTaskListOf(count, types, img, randint, params).Err? <==> count > 0 && |SelectedOptions(types)| == 0
    ensures RandomTaskListOf(count, types, img, randint, params).Err? ==>
      RandomTaskListOf(count, types, img, randint, params).error == ValueError
    ensures RandomTaskListOf(count, types, img, randint, params).Ok? ==>
      var tasks := RandomTaskListOf(count, types, img, randint, params).value;
      |tasks| == Max0(count) &&
      forall k :: 0 <= k < |tasks| ==>
        tasks[k].func in SelectedOptions(types) &&
        tasks[k].args == (if tasks[k].func == Img then [ListV([img])] else params(k, tasks[k].func))
  {
  }
}
