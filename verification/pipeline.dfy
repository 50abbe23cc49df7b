/**
 * The meaning of the generated `call_fn`. Its body is evaluated by a small
 * interpreter that knows the handful of forms the manager emits (the
 * `partition` name, `filter(self.filter, ...)`, the filtering generator,
 * `nsmallest(len(partition), ..., key=cmp_to_key(self.preference))` and the
 * action list comprehension) and fails on anything else. The main theorem
 * says that for every combination of stages the body computes
 * filter, then stable sort, then map.
 */
module PipelineMeaning {
  import opened Wrappers
  import opened PyAst
  import opened Ranking
  import opened Manager

  /**
   * What a call of the generated function works with: the partition, and
   * the three stage methods with `self` and the call's extra arguments
   * already bound (each reads only its own element arguments).
   */
  datatype Env<!V> = Env(partition: seq<V>, filter: V -> bool, preference: (V, V) -> int, action: V -> V)

  /** A call of a local bound to `self.<attr>`, whose first argument is the comprehension variable. */
  predicate IsStageCall(e: Expr, locals: map<string, string>, attr: string) {
    && e.Call? && e.func.Name? && e.func.id in locals && locals[e.func.id] == attr
    && |e.args| >= 1 && e.args[0] == ArgRef(Arg(ChosenName))
  }

  /** The elements an expression of the generated body evaluates to; `None` for any form the manager does not emit. */
  function EvalElements<V>(e: Expr, env: Env<V>, locals: map<string, string>): Option<seq<V>>
    decreases e
  {
    match e
    case Name(id) =>
      if id == PartitionName then Some(env.partition) else None
    case Call(func, args, kws) =>
      if func == Name("filter") && |args| == 2 && args[0] == Attribute(Name(ClassArgName), FilterFnName) && kws == [] then
        match EvalElements(args[1], env, locals)
        case Some(src) => Some(Filter(env.filter, src))
        case None => None
      else if func == Name("nsmallest") && |args| == 2 && args[0] == LenOfPartition && kws == [PreferenceKey] then
        match EvalElements(args[1], env, locals)
        case Some(src) => Some(NSmallest(|env.partition|, env.preference, src))
        case None => None
      else
        None
    case GeneratorExp(elt, target, iter, ifs) =>
      if elt == Name(ChosenName) && target == Name(ChosenName) && |ifs| == 1
        && IsStageCall(ifs[0], locals, FilterFnName)
      then
        match EvalElements(iter, env, locals)
        case Some(src) => Some(Filter(env.filter, src))
        case None => None
      else
        None
    case ListComp(elt, target, iter, ifs) =>
      if target == Name(ChosenName) && ifs == [] && IsStageCall(elt, locals, ActionFnName) then
        match EvalElements(iter, env, locals)
        case Some(src) => Some(Map(env.action, src))
        case None => None
      else
        None
    case _ => None
  }

  /** Runs `local = self.<attr>` statements, then evaluates the returned expression. */
  function EvalBody<V>(body: seq<Stmt>, env: Env<V>, locals: map<string, string>): Option<seq<V>>
    decreases |body|
  {
    if body == [] then None
    else
      match body[0]
      case Assign(target, value, _) =>
        if value.Attribute? && value.value == Name(ClassArgName) then
          EvalBody(body[1..], env, locals[target := value.attr])
        else
          None
      case Return(value) => EvalElements(value, env, locals)
  }

  /** The partition, or the filter's survivors in their input order. */
  function Survivors<V>(env: Env<V>, hasFilter: bool): seq<V> {
    if hasFilter then Filter(env.filter, env.partition) else env.partition
  }

  /** The survivors, stably sorted by the preference when there is one. */
  function Ranked<V>(env: Env<V>, hasFilter: bool, hasPreference: bool): seq<V> {
    var survivors := Survivors(env, hasFilter);
    if hasPreference then Sort(env.preference, survivors) else survivors
  }

  /** The pipeline a controller computes: filter, then rank, then act. */
  function Pipeline<V>(env: Env<V>, hasFilter: bool, hasPreference: bool, hasAction: bool): (r: seq<V>)
    ensures |r| == |Survivors(env, hasFilter)|
    ensures !hasAction ==> multiset(r) == multiset(Survivors(env, hasFilter))
  {
    var ranked := Ranked(env, hasFilter, hasPreference);
    if hasAction then Map(env.action, ranked) else ranked
  }

  lemma EvalPartition<V>(env: Env<V>, locals: map<string, string>)
    ensures EvalElements(Name(PartitionName), env, locals) == Some(env.partition)
  {
  }

  lemma EvalBuiltinFilter<V>(env: Env<V>, locals: map<string, string>)
    ensures EvalElements(BuiltinFilterOfPartition, env, locals) == Some(Filter(env.filter, env.partition))
  {
    EvalPartition(env, locals);
  }

  lemma EvalFilterGenerator<V>(sig: StageSignature, env: Env<V>, locals: map<string, string>)
    requires GeneratedFilterFnName in locals && locals[GeneratedFilterFnName] == FilterFnName
    ensures EvalElements(GeneratorExp(Name(ChosenName), Name(ChosenName), Name(PartitionName), [FilterCall(sig)]), env, locals)
      == Some(Filter(env.filter, env.partition))
  {
    assert IsStageCall(FilterCall(sig), locals, FilterFnName);
    EvalPartition(env, locals);
  }

  lemma EvalPreference<V>(elements: Expr, src: seq<V>, env: Env<V>, locals: map<string, string>)
    requires EvalElements(elements, env, locals) == Some(src)
    ensures EvalElements(PreferenceExpression(elements), env, locals)
      == Some(NSmallest(|env.partition|, env.preference, src))
  {
  }

  lemma EvalActionComprehension<V>(sig: StageSignature, iter: Expr, src: seq<V>, env: Env<V>, locals: map<string, string>)
    requires GeneratedActionFnName in locals && locals[GeneratedActionFnName] == ActionFnName
    requires EvalElements(iter, env, locals) == Some(src)
    ensures EvalElements(ListComp(ActionCall(sig), Name(ChosenName), iter, []), env, locals) == Some(Map(env.action, src))
  {
    assert IsStageCall(ActionCall(sig), locals, ActionFnName);
  }

  /** The filter stage's expression, in either of its two forms, keeps the survivors in order. */
  lemma FilterExpressionMeaning<V>(sig: StageSignature, env: Env<V>, locals: map<string, string>)
    requires GeneratedFilterFnName in locals && locals[GeneratedFilterFnName] == FilterFnName
    ensures EvalElements(FilterExpression(sig), env, locals) == Some(Filter(env.filter, env.partition))
  {
    if FilterExpression(sig) == BuiltinFilterOfPartition {
      EvalBuiltinFilter(env, locals);
    } else {
      EvalFilterGenerator(sig, env, locals);
    }
  }

  /** The element expression evaluates to the ranked survivors. */
  lemma ElementsExpressionMeaning<V>(
    f: Option<StageSignature>, p: Option<StageSignature>, env: Env<V>, locals: map<string, string>)
    requires f.Some? ==> GeneratedFilterFnName in locals && locals[GeneratedFilterFnName] == FilterFnName
    ensures EvalElements(ElementsExpression(f, p), env, locals) == Some(Ranked(env, f.Some?, p.Some?))
  {
    var filtered := if f.Some? then FilterExpression(f.value) else Name(PartitionName);
    var survivors := Survivors(env, f.Some?);
    if f.Some? {
      FilterExpressionMeaning(f.value, env, locals);
    } else {
      EvalPartition(env, locals);
    }
    assert EvalElements(filtered, env, locals) == Some(survivors);
    if p.Some? {
      EvalPreference(filtered, survivors, env, locals);
      assert |survivors| <= |env.partition|;
    }
  }

  /** The locals the setup statements bind. */
  function SetupLocals(a: Option<StageSignature>, f: Option<StageSignature>): map<string, string> {
    var withAction: map<string, string> := if a.Some? then map[GeneratedActionFnName := ActionFnName] else map[];
    if f.Some? then withAction[GeneratedFilterFnName := FilterFnName] else withAction
  }

  lemma EvalReturn<V>(ret: Expr, env: Env<V>, locals: map<string, string>)
    ensures EvalBody([Return(ret)], env, locals) == EvalElements(ret, env, locals)
  {
  }

  lemma EvalSetup<V>(target: string, attr: string, lineno: int, rest: seq<Stmt>, env: Env<V>, locals: map<string, string>)
    ensures EvalBody([SetupStatement(target, attr, lineno)] + rest, env, locals)
      == EvalBody(rest, env, locals[target := attr])
  {
    assert ([SetupStatement(target, attr, lineno)] + rest)[1..] == rest;
  }

  lemma EvalAfterSetup<V>(
    a: Option<StageSignature>, f: Option<StageSignature>, actionLineno: int, filterLineno: int,
    ret: Expr, env: Env<V>)
    ensures EvalBody(SetupStatements(a, f, actionLineno, filterLineno) + [Return(ret)], env, map[])
      == EvalElements(ret, env, SetupLocals(a, f))
  {
    var actionSetup := if a.Some? then [SetupStatement(GeneratedActionFnName, ActionFnName, actionLineno)] else [];
    var filterSetup := if f.Some? then [SetupStatement(GeneratedFilterFnName, FilterFnName, filterLineno)] else [];
    var withAction: map<string, string> := if a.Some? then map[GeneratedActionFnName := ActionFnName] else map[];
    assert SetupStatements(a, f, actionLineno, filterLineno) + [Return(ret)]
      == actionSetup + (filterSetup + [Return(ret)]);
    if a.Some? {
      EvalSetup(GeneratedActionFnName, ActionFnName, actionLineno, filterSetup + [Return(ret)], env, map[]);
    }
    assert EvalBody(actionSetup + (filterSetup + [Return(ret)]), env, map[])
      == EvalBody(filterSetup + [Return(ret)], env, withAction);
    if f.Some? {
      EvalSetup(GeneratedFilterFnName, FilterFnName, filterLineno, [Return(ret)], env, withAction);
    }
    EvalReturn(ret, env, SetupLocals(a, f));
  }

  /**
   * The generated body computes the pipeline, for every combination of
   * present stages: with no stages it returns `partition` itself, with no
   * action it returns the ranked survivors unchanged, and the action is
   * applied to the ranked survivors, never to the raw partition.
   */
  lemma GeneratedBodyMeaning<V>(
    a: Option<StageSignature>, f: Option<StageSignature>, p: Option<StageSignature>,
    actionLineno: int, filterLineno: int, env: Env<V>)
    ensures EvalBody(CallFunctionDef(a, f, p, actionLineno, filterLineno).body, env, map[])
      == Some(Pipeline(env, f.Some?, p.Some?, a.Some?))
  {
    var locals := SetupLocals(a, f);
    EvalAfterSetup(a, f, actionLineno, filterLineno, ReturnExpression(a, f, p), env);
    ElementsExpressionMeaning(f, p, env, locals);
    if a.Some? {
      EvalActionComprehension(a.value, ElementsExpression(f, p), Ranked(env, f.Some?, p.Some?), env, locals);
    }
  }

  /**
   * What a controller's call promises about its output: the survivors are
   * exactly the elements the filter keeps, in order; ranking permutes them,
   * sorts them by the preference and keeps equally-ranked ones in their
   * input order; and the result holds the action of each ranked element.
   */
  lemma PipelineProperties<V(!new)>(env: Env<V>, hasFilter: bool, hasPreference: bool, hasAction: bool, e: V)
    requires hasPreference ==> ConsistentComparator(env.preference)
    ensures var survivors := Survivors(env, hasFilter);
      && (hasFilter ==> forall i :: 0 <= i < |survivors| ==> env.filter(survivors[i]) && survivors[i] in env.partition)
      && (hasFilter ==> forall i :: 0 <= i < |env.partition| && env.filter(env.partition[i]) ==> env.partition[i] in survivors)
    ensures multiset(Ranked(env, hasFilter, hasPreference)) == multiset(Survivors(env, hasFilter))
    ensures hasPreference ==> Sorted(env.preference, Ranked(env, hasFilter, hasPreference))
    ensures hasPreference ==>
      EquivalentTo(env.preference, e, Ranked(env, hasFilter, hasPreference))
        == EquivalentTo(env.preference, e, Survivors(env, hasFilter))
    ensures var ranked := Ranked(env, hasFilter, hasPreference);
      var out := Pipeline(env, hasFilter, hasPreference, hasAction);
      && |out| == |ranked|
      && forall i :: 0 <= i < |ranked| ==> out[i] == if hasAction then env.action(ranked[i]) else ranked[i]
  {
    var survivors := Survivors(env, hasFilter);
    if hasFilter {
      FilterMembers(env.filter, env.partition);
    }
    if hasPreference {
      SortSorted(env.preference, survivors);
      SortStable(env.preference, e, survivors);
    }
  }

  function Identity(x: int): int {
    x
  }

  function KeepAboveTwo(x: int): bool {
    x > 2
  }

  function Ascending(a: int, b: int): int {
    a - b
  }

  lemma AboveTwoSurvivors()
    ensures Filter(KeepAboveTwo, [5, 3, 9, 1]) == [5, 3, 9]
  {
    var survivors: seq<int> := [5, 3, 9];
    assert [5, 3, 9, 1] == survivors + [1];
    FilterAppend(KeepAboveTwo, survivors, [1]);
    assert Filter(KeepAboveTwo, [1]) == [] by {
      assert [1][1..] == [];
    }
    assert Filter(KeepAboveTwo, survivors) == survivors by {
      assert survivors[1..] == [3, 9] && [3, 9][1..] == [9] && [9][1..] == [];
    }
  }

  lemma AscendingSort()
    ensures Sort(Ascending, [5, 3, 9]) == [3, 5, 9]
  {
    var one: seq<int> := [5];
    var two: seq<int> := [5, 3];
    var three: seq<int> := [5, 3, 9];
    assert Sort(Ascending, one) == [5] by {
      assert one[..0] == [];
    }
    assert Sort(Ascending, two) == [3, 5] by {
      assert two[..1] == one;
      assert Less(Ascending, 3, 5);
    }
    assert Sort(Ascending, three) == [3, 5, 9] by {
      assert three[..2] == two;
      var tail: seq<int> := [5];
      assert !Less(Ascending, 9, 3) && !Less(Ascending, 9, 5);
      assert Insert(Ascending, 9, tail) == [5, 9] by {
        assert tail[1..] == [];
      }
      assert [3, 5][1..] == tail;
    }
  }

  lemma ScenarioPipeline(env: Env<int>)
    requires env == Env([5, 3, 9, 1], KeepAboveTwo, Ascending, Identity)
    ensures Pipeline(env, true, true, true) == [3, 5, 9]
  {
    var ranked := Ranked(env, true, true);
    assert ranked == [3, 5, 9] by {
      AboveTwoSurvivors();
      AscendingSort();
    }
    assert Map(Identity, ranked) == [3, 5, 9];
  }

  /** Elements [5, 3, 9, 1], keep those above 2, rank ascending, identity action: [3, 5, 9]. */
  lemma AscendingScenario(a: StageSignature, f: StageSignature, p: StageSignature)
    ensures EvalBody(CallFunctionDef(Some(a), Some(f), Some(p), 1, 1).body,
      Env([5, 3, 9, 1], KeepAboveTwo, Ascending, Identity), map[]) == Some([3, 5, 9])
  {
    var env := Env([5, 3, 9, 1], KeepAboveTwo, Ascending, Identity);
    GeneratedBodyMeaning(Some(a), Some(f), Some(p), 1, 1, env);
    ScenarioPipeline(env);
  }
}
