/**
 * The controller manager: for the stage methods a class declares (`action`,
 * `filter`, `preference`), it generates one function
 *
 *   call_fn(self, partition, arg_0, ..., kw=default, ..., *args, **kwargs)
 *
 * whose body filters the partition, ranks the survivors with the preference
 * comparator and maps the action over them. Each stage role reserves its
 * leading parameters (`chosen` for action and filter, `a, b` for
 * preference); the extra parameters of every present stage are merged into
 * the generated signature.
 *
 * What the stage methods' signatures look like is supplied by a signature
 * helper that is not part of this model; its answers are the
 * `StageSignature` record.
 */
module Manager {
  import opened Wrappers
  import opened PyAst

  const PartitionName := "partition"
  const ChosenName := "chosen"
  const GeneratedFunctionName := "call_fn"
  const GeneratedActionFnName := "_action"
  const GeneratedFilterFnName := "_filter"
  const ClassArgName := "self"
  const PositionalArgPrefix := "arg_"
  const VarArgName := "args"
  const KwargName := "kwargs"

  const ActionFnName := "action"
  const FilterFnName := "filter"
  const PreferenceFnName := "preference"

  /** What the signature helper reports about one stage method. */
  datatype StageSignature = StageSignature(
    nonClassPositionalArgs: seq<string>,
    keywordArguments: seq<(string, Constant)>,
    hasArgUnpack: bool,
    hasKwargUnpack: bool)

  datatype Role = ActionRole | FilterRole | PreferenceRole

  /** `get_min_required_call_args`: the leading parameters a role reserves. */
  function MinRequiredCallArgs(role: Role): (r: nat)
    ensures 1 <= r <= 2
    ensures r == 2 <==> role == PreferenceRole
  {
    match role
    case ActionRole => 1     // chosen
    case FilterRole => 1     // chosen
    case PreferenceRole => 2 // a, b
  }

  /** The positional parameters a stage declares beyond the ones its role reserves (may be negative). */
  function ExtraPositionalCount(role: Role, sig: StageSignature): (r: int)
    ensures r + MinRequiredCallArgs(role) >= 0
    ensures r > 0 <==> |sig.nonClassPositionalArgs| > MinRequiredCallArgs(role)
  {
    |sig.nonClassPositionalArgs| - MinRequiredCallArgs(role)
  }

  function Max(a: int, b: int): int {
    if a >= b then a else b
  }

  // ----- positional parameter names -------------------------------------------------

  function PositionalArgName(i: nat): string {
    PositionalArgPrefix + NatToDecimal(i)
  }

  /** The parameters `arg_0 ... arg_{n-1}`; none when `n <= 0`. */
  function PositionalArgs(n: int): (r: seq<Arg>)
    ensures |r| == if n <= 0 then 0 else n
    ensures forall i :: 0 <= i < |r| ==> r[i] == Arg(PositionalArgName(i))
    decreases if n <= 0 then 0 else n
  {
    if n <= 0 then [] else PositionalArgs(n - 1) + [Arg(PositionalArgName(n - 1))]
  }

  /** `generate_positional_args`. */
  method GeneratePositionalArgs(numArgs: int) returns (args: seq<Arg>)
    ensures args == PositionalArgs(numArgs)
  {
    args := [];
    var i := 0;
    while i < numArgs
      invariant 0 <= i <= Max(numArgs, 0)
      invariant args == PositionalArgs(i)
    {
      args := args + [Arg(PositionalArgName(i))];
      i := i + 1;
    }
  }

  /** Each `ast.arg` placed, as it is, in a call's argument list. */
  function ArgRefs(xs: seq<Arg>): (r: seq<Expr>)
    ensures |r| == |xs| && forall i :: 0 <= i < |xs| ==> r[i] == ArgRef(xs[i])
  {
    seq(|xs|, i requires 0 <= i < |xs| => ArgRef(xs[i]))
  }

  // ----- the call each stage makes ----------------------------------------------------

  /**
   * The positional arguments an action or filter call passes: `chosen`, the
   * stage's own extras `arg_0 ... arg_{k-1}`, then `*args` when the stage
   * captures positional arguments.
   */
  function StageCallArgs(role: Role, sig: StageSignature): (r: seq<Expr>)
    ensures |r| == 1 + Max(ExtraPositionalCount(role, sig), 0) + (if sig.hasArgUnpack then 1 else 0)
    ensures r[0] == ArgRef(Arg(ChosenName))
    ensures sig.hasArgUnpack ==> r[|r| - 1] == Starred(Name(VarArgName))
  {
    [ArgRef(Arg(ChosenName))]
      + ArgRefs(PositionalArgs(ExtraPositionalCount(role, sig)))
      + (if sig.hasArgUnpack then [Starred(Name(VarArgName))] else [])
  }

  /** The keyword arguments a stage call passes: `kw=kw` for each of its keywords, then `**kwargs`. */
  function StageCallKeywords(sig: StageSignature): (r: seq<Keyword>)
    ensures |r| == |sig.keywordArguments| + (if sig.hasKwargUnpack then 1 else 0)
    ensures sig.hasKwargUnpack ==> r[|r| - 1] == Keyword(None, Name(KwargName))
  {
    ForwardByName(Keys(sig.keywordArguments))
      + (if sig.hasKwargUnpack then [Keyword(None, Name(KwargName))] else [])
  }

  /** `_action(chosen, arg_0, ..., *args, kw=kw, ..., **kwargs)`. */
  function ActionCall(sig: StageSignature): Expr {
    Call(Name(GeneratedActionFnName), StageCallArgs(ActionRole, sig), StageCallKeywords(sig))
  }

  /** `_filter(chosen, arg_0, ..., *args, kw=kw, ..., **kwargs)`. */
  function FilterCall(sig: StageSignature): Expr {
    Call(Name(GeneratedFilterFnName), StageCallArgs(FilterRole, sig), StageCallKeywords(sig))
  }

  /** `filter(self.filter, partition)`. */
  const BuiltinFilterOfPartition :=
    Call(Name("filter"), [Attribute(Name(ClassArgName), FilterFnName), Name(PartitionName)], [])

  /**
   * The filter stage's element expression: `filter(self.filter, partition)`
   * when the filter takes nothing but `chosen`, otherwise
   * `(chosen for chosen in partition if _filter(...))`.
   */
  function FilterExpression(sig: StageSignature): (e: Expr)
    ensures e == BuiltinFilterOfPartition <==>
      ExtraPositionalCount(FilterRole, sig) <= 0 && !sig.hasArgUnpack
        && sig.keywordArguments == [] && !sig.hasKwargUnpack
    ensures e != BuiltinFilterOfPartition ==>
      e == GeneratorExp(Name(ChosenName), Name(ChosenName), Name(PartitionName), [FilterCall(sig)])
  {
    var args := StageCallArgs(FilterRole, sig);
    var kwargs := StageCallKeywords(sig);
    if |args| + |kwargs| > MinRequiredCallArgs(FilterRole) then
      GeneratorExp(Name(ChosenName), Name(ChosenName), Name(PartitionName), [FilterCall(sig)])
    else
      BuiltinFilterOfPartition
  }

  /** `len(partition)`. */
  const LenOfPartition := Call(Name("len"), [Name(PartitionName)], [])

  /** `key=cmp_to_key(self.preference)`. */
  const PreferenceKey :=
    Keyword(Some("key"), Call(Name("cmp_to_key"), [Attribute(Name(ClassArgName), PreferenceFnName)], []))

  /**
   * `nsmallest(len(partition), <elements>, key=cmp_to_key(self.preference))`.
   * It reads only what its elements read, plus `nsmallest`, `len`,
   * `partition`, `cmp_to_key` and `self`: none of the preference's own extra
   * parameters is passed on.
   */
  function PreferenceExpression(elements: Expr): (r: Expr)
    ensures NamesOf(r) == NamesOf(elements) + {"nsmallest", "len", PartitionName, "cmp_to_key", ClassArgName}
  {
    RankingCallNames(elements);
    Call(Name("nsmallest"), [LenOfPartition, elements], [PreferenceKey])
  }

  lemma RankingCallNames(elements: Expr)
    ensures NamesOf(Call(Name("nsmallest"), [LenOfPartition, elements], [PreferenceKey]))
      == NamesOf(elements) + {"nsmallest", "len", PartitionName, "cmp_to_key", ClassArgName}
  {
    var lenNames := NamesOf(LenOfPartition);
    assert lenNames == {"len", PartitionName} by {
      NamesOfCall(Name("len"), [Name(PartitionName)], []);
      NamesOfSingleton(Name(PartitionName));
    }
    var keyNames := NamesOfKeywords([PreferenceKey]);
    assert keyNames == {"cmp_to_key", ClassArgName} by {
      NamesOfSingletonKeyword(PreferenceKey);
      NamesOfCall(Name("cmp_to_key"), [Attribute(Name(ClassArgName), PreferenceFnName)], []);
      NamesOfSingleton(Attribute(Name(ClassArgName), PreferenceFnName));
    }
    var argNames := NamesOfSeq([LenOfPartition, elements]);
    assert argNames == lenNames + NamesOf(elements) by {
      assert [LenOfPartition] + [elements] == [LenOfPartition, elements];
      NamesOfSeqAppend([LenOfPartition], [elements]);
      NamesOfSingleton(LenOfPartition);
      NamesOfSingleton(elements);
    }
    NamesOfCall(Name("nsmallest"), [LenOfPartition, elements], [PreferenceKey]);
  }

  /** `<target> = self.<attr>`, recorded at line `lineno`. */
  function SetupStatement(target: string, attr: string, lineno: int): Stmt {
    Assign(target, Attribute(Name(ClassArgName), attr), lineno)
  }

  // ----- the merged signature ---------------------------------------------------------

  function StageKeywordArguments(s: Option<StageSignature>): seq<(string, Constant)> {
    if s.Some? then s.value.keywordArguments else []
  }

  /** The keyword parameters of action, then filter, then preference, each in its own order; no deduplication. */
  function MergedKeywordArguments(a: Option<StageSignature>, f: Option<StageSignature>, p: Option<StageSignature>)
    : seq<(string, Constant)>
  {
    StageKeywordArguments(a) + StageKeywordArguments(f) + StageKeywordArguments(p)
  }

  function FoldExtra(role: Role, s: Option<StageSignature>, acc: int): int {
    if s.Some? then Max(ExtraPositionalCount(role, s.value), acc) else acc
  }

  /**
   * The number of `arg_i` parameters of the generated function: the running
   * maximum, over action, preference and filter in that order, starting at 0.
   */
  function MergedPositionalCount(a: Option<StageSignature>, f: Option<StageSignature>, p: Option<StageSignature>)
    : (m: int)
    ensures m >= 0
    ensures a.Some? ==> m >= ExtraPositionalCount(ActionRole, a.value)
    ensures f.Some? ==> m >= ExtraPositionalCount(FilterRole, f.value)
    ensures p.Some? ==> m >= ExtraPositionalCount(PreferenceRole, p.value)
    ensures || m == 0
            || (a.Some? && m == ExtraPositionalCount(ActionRole, a.value))
            || (f.Some? && m == ExtraPositionalCount(FilterRole, f.value))
            || (p.Some? && m == ExtraPositionalCount(PreferenceRole, p.value))
  {
    FoldExtra(FilterRole, f, FoldExtra(PreferenceRole, p, FoldExtra(ActionRole, a, 0)))
  }

  predicate StageHasArgUnpack(s: Option<StageSignature>) {
    s.Some? && s.value.hasArgUnpack
  }

  predicate StageHasKwargUnpack(s: Option<StageSignature>) {
    s.Some? && s.value.hasKwargUnpack
  }

  /** One parameter per keyword argument, in order. */
  function KeywordParams(kws: seq<(string, Constant)>): (r: seq<Arg>)
    ensures |r| == |kws| && forall i :: 0 <= i < |kws| ==> r[i] == Arg(kws[i].0)
  {
    seq(|kws|, i requires 0 <= i < |kws| => Arg(kws[i].0))
  }

  /** One `ast.Constant` default per keyword argument, in order. */
  function KeywordDefaults(kws: seq<(string, Constant)>): (r: seq<Expr>)
    ensures |r| == |kws| && forall i :: 0 <= i < |kws| ==> r[i] == Const(kws[i].1)
  {
    seq(|kws|, i requires 0 <= i < |kws| => Const(kws[i].1))
  }

  /**
   * `self, partition, arg_0, ..., arg_{m-1}, kw=default, ...`, with the
   * optional `*args` and `**kwargs` captures.
   */
  function ParameterList(m: int, kws: seq<(string, Constant)>, hasVarArg: bool, hasKwarg: bool): Arguments {
    Arguments(
      [],
      [Arg(ClassArgName), Arg(PartitionName)] + PositionalArgs(m) + KeywordParams(kws),
      if hasVarArg then Some(Arg(VarArgName)) else None,
      [],
      [],
      if hasKwarg then Some(Arg(KwargName)) else None,
      KeywordDefaults(kws))
  }

  /** The parameter list `get_call_signature_args` builds. */
  function MergedArguments(a: Option<StageSignature>, f: Option<StageSignature>, p: Option<StageSignature>)
    : (r: Arguments)
    ensures |r.defaults| == |MergedKeywordArguments(a, f, p)|
    ensures |r.args| == 2 + MergedPositionalCount(a, f, p) + |r.defaults|
    ensures r.vararg.Some? <==> StageHasArgUnpack(a) || StageHasArgUnpack(f) || StageHasArgUnpack(p)
    ensures r.kwarg.Some? <==> StageHasKwargUnpack(a) || StageHasKwargUnpack(f) || StageHasKwargUnpack(p)
  {
    ParameterList(
      MergedPositionalCount(a, f, p),
      MergedKeywordArguments(a, f, p),
      StageHasArgUnpack(a) || StageHasArgUnpack(f) || StageHasArgUnpack(p),
      StageHasKwargUnpack(a) || StageHasKwargUnpack(f) || StageHasKwargUnpack(p))
  }

  // ----- the generated function -------------------------------------------------------

  /** `_action = self.action` and `_filter = self.filter`, for the stages present. */
  function SetupStatements(a: Option<StageSignature>, f: Option<StageSignature>, actionLineno: int, filterLineno: int)
    : seq<Stmt>
  {
    (if a.Some? then [SetupStatement(GeneratedActionFnName, ActionFnName, actionLineno)] else [])
      + (if f.Some? then [SetupStatement(GeneratedFilterFnName, FilterFnName, filterLineno)] else [])
  }

  /** The elements expression: `partition`, filtered when a filter is present, then ranked when a preference is. */
  function ElementsExpression(f: Option<StageSignature>, p: Option<StageSignature>): Expr {
    var filtered := if f.Some? then FilterExpression(f.value) else Name(PartitionName);
    if p.Some? then PreferenceExpression(filtered) else filtered
  }

  /** What the generated function returns: the action mapped over the elements, or the elements themselves. */
  function ReturnExpression(a: Option<StageSignature>, f: Option<StageSignature>, p: Option<StageSignature>): Expr {
    if a.Some? then ListComp(ActionCall(a.value), Name(ChosenName), ElementsExpression(f, p), [])
    else ElementsExpression(f, p)
  }

  /** The whole `call_fn` definition `generate_call_method` builds. */
  function CallFunctionDef(
    a: Option<StageSignature>, f: Option<StageSignature>, p: Option<StageSignature>,
    actionLineno: int, filterLineno: int): (r: FunctionDef)
    ensures r.name == GeneratedFunctionName && r.params == MergedArguments(a, f, p)
    ensures |r.body| == 1 + (if a.Some? then 1 else 0) + (if f.Some? then 1 else 0)
    ensures forall i :: 0 <= i < |r.body| - 1 ==> r.body[i].Assign?
    ensures r.body[|r.body| - 1].Return?
  {
    FunctionDef(
      GeneratedFunctionName,
      MergedArguments(a, f, p),
      SetupStatements(a, f, actionLineno, filterLineno) + [Return(ReturnExpression(a, f, p))])
  }

  // ----- the imperative generators ----------------------------------------------------

  /** Appends one parameter and one default per keyword argument, as the merge loops do. */
  method AppendKeywordParams(args: seq<Arg>, defaults: seq<Expr>, keywordArguments: seq<(string, Constant)>)
    returns (args': seq<Arg>, defaults': seq<Expr>)
    ensures args' == args + KeywordParams(keywordArguments)
    ensures defaults' == defaults + KeywordDefaults(keywordArguments)
  {
    args', defaults' := args, defaults;
    var i := 0;
    while i < |keywordArguments|
      invariant 0 <= i <= |keywordArguments|
      invariant args' == args + KeywordParams(keywordArguments[..i])
      invariant defaults' == defaults + KeywordDefaults(keywordArguments[..i])
    {
      var (keyword, default) := keywordArguments[i];
      args' := args' + [Arg(keyword)];
      defaults' := defaults' + [Const(default)];
      assert keywordArguments[..i + 1] == keywordArguments[..i] + [keywordArguments[i]];
      i := i + 1;
    }
    assert keywordArguments[..i] == keywordArguments;
  }

  /** A stage method wrapped in its role. */
  class ControlledMethod {
    const role: Role
    const signature: StageSignature
    var currentSetupInstructionsLineno: int

    constructor (role: Role, signature: StageSignature)
      ensures this.role == role && this.signature == signature
      ensures currentSetupInstructionsLineno == 0
    {
      this.role := role;
      this.signature := signature;
      currentSetupInstructionsLineno := 0;
    }

    /** `get_new_lineno`: advance the counter and return its new value. */
    method GetNewLineno() returns (lineno: int)
      modifies this
      ensures currentSetupInstructionsLineno == old(currentSetupInstructionsLineno) + 1
      ensures lineno == currentSetupInstructionsLineno
    {
      currentSetupInstructionsLineno := currentSetupInstructionsLineno + 1;
      lineno := currentSetupInstructionsLineno;
    }

    /** The argument lists the action and filter generators build with `append` and `extend`. */
    method BuildCallArguments() returns (args: seq<Expr>, kwargs: seq<Keyword>)
      ensures args == StageCallArgs(role, signature)
      ensures kwargs == StageCallKeywords(signature)
    {
      args := [ArgRef(Arg(ChosenName))];
      var positional := GeneratePositionalArgs(|signature.nonClassPositionalArgs| - MinRequiredCallArgs(role));
      args := args + ArgRefs(positional);
      if signature.hasArgUnpack {
        args := args + [Starred(Name(VarArgName))];
      }

      var keywords := signature.keywordArguments;
      kwargs := [];
      var i := 0;
      while i < |keywords|
        invariant 0 <= i <= |keywords|
        invariant kwargs == ForwardByName(Keys(keywords[..i]))
      {
        var (keyword, _) := keywords[i];
        kwargs := kwargs + [Keyword(Some(keyword), Name(keyword))];
        assert keywords[..i + 1] == keywords[..i] + [keywords[i]];
        i := i + 1;
      }
      assert keywords[..i] == keywords;
      if signature.hasKwargUnpack {
        kwargs := kwargs + [Keyword(None, Name(KwargName))];
      }
    }

    /** `Action.generate_expression`: the action call and `_action = self.action`. */
    method GenerateActionExpression() returns (call: Expr, setup: seq<Stmt>)
      requires role == ActionRole
      modifies this
      ensures currentSetupInstructionsLineno == old(currentSetupInstructionsLineno) + 1
      ensures call == ActionCall(signature)
      ensures setup == [SetupStatement(GeneratedActionFnName, ActionFnName, currentSetupInstructionsLineno)]
    {
      var args, kwargs := BuildCallArguments();
      call := Call(Name(GeneratedActionFnName), args, kwargs);
      var lineno := GetNewLineno();
      setup := [SetupStatement(GeneratedActionFnName, ActionFnName, lineno)];
    }

    /** `Filter.generate_expression`: the filtered elements and `_filter = self.filter`. */
    method GenerateFilterExpression() returns (elements: Expr, setup: seq<Stmt>)
      requires role == FilterRole
      modifies this
      ensures currentSetupInstructionsLineno == old(currentSetupInstructionsLineno) + 1
      ensures elements == FilterExpression(signature)
      ensures setup == [SetupStatement(GeneratedFilterFnName, FilterFnName, currentSetupInstructionsLineno)]
    {
      var args, kwargs := BuildCallArguments();
      if |args| + |kwargs| > MinRequiredCallArgs(role) {
        elements := GeneratorExp(
          Name(ChosenName), Name(ChosenName), Name(PartitionName),
          [Call(Name(GeneratedFilterFnName), args, kwargs)]);
      } else {
        elements := Call(Name("filter"), [Attribute(Name(ClassArgName), FilterFnName), Name(PartitionName)], []);
      }
      var lineno := GetNewLineno();
      setup := [SetupStatement(GeneratedFilterFnName, FilterFnName, lineno)];
    }

    /** `Preference.generate_expression`: rank the given elements; no setup statement. */
    method GeneratePreferenceExpression(getElements: Expr) returns (call: Expr, setup: seq<Stmt>)
      requires role == PreferenceRole
      ensures call == PreferenceExpression(getElements)
      ensures setup == []
    {
      var keyArg := Keyword(Some("key"), Call(Name("cmp_to_key"), [Attribute(Name(ClassArgName), PreferenceFnName)], []));
      call := Call(Name("nsmallest"), [Call(Name("len"), [Name(PartitionName)], []), getElements], [keyArg]);
      setup := [];
    }
  }

  /** A class attribute: a callable with the signature its helper reports, or anything else. */
  datatype ClassAttr = Callable(signature: StageSignature) | NotCallable

  /** The stage declared under `name`, when the attribute is present and callable. */
  function ControlledAttr(attrs: map<string, ClassAttr>, name: string): Option<StageSignature> {
    if name in attrs && attrs[name].Callable? then Some(attrs[name].signature) else None
  }

  function LinenoOf(m: ControlledMethod?): int
    reads m
  {
    if m == null then 0 else m.currentSetupInstructionsLineno
  }

  class ControllerManager {
    const name: string
    const attrs: map<string, ClassAttr>
    const action: ControlledMethod?
    const filter: ControlledMethod?
    const preference: ControlledMethod?
    /** The generated function; the source keeps its unparsed text. */
    var generatedCallFn: Option<FunctionDef>
    /**
     * Whether the generated signature passes Python's duplicate-argument
     * check. When it does not, `compile` raises `SyntaxError` ("duplicate
     * argument") and the constructor propagates it, so no controller is
     * built. Whether each default's printed form is itself valid code is
     * not part of this model.
     */
    var paramNamesDistinct: bool

    /**
     * Each stage slot holds a method of its own role. Since the roles differ,
     * no two slots can hold the same object.
     */
    ghost predicate Valid() {
      && (action != null ==> action.role == ActionRole)
      && (filter != null ==> filter.role == FilterRole)
      && (preference != null ==> preference.role == PreferenceRole)
    }

    predicate HasAction()
      ensures HasAction() <==> ActionSignature().Some?
    {
      action != null
    }

    predicate HasFilter()
      ensures HasFilter() <==> FilterSignature().Some?
    {
      filter != null
    }

    predicate HasPreference()
      ensures HasPreference() <==> PreferenceSignature().Some?
    {
      preference != null
    }

    function ActionSignature(): Option<StageSignature> {
      if action == null then None else Some(action.signature)
    }

    function FilterSignature(): Option<StageSignature> {
      if filter == null then None else Some(filter.signature)
    }

    function PreferenceSignature(): Option<StageSignature> {
      if preference == null then None else Some(preference.signature)
    }

    /**
     * Picks the callable `action`, `filter` and `preference` attributes,
     * wraps each in its role and generates the call function.
     */
    constructor (name: string, attrs: map<string, ClassAttr>)
      ensures this.name == name && this.attrs == attrs
      ensures Valid()
      ensures ActionSignature() == ControlledAttr(attrs, ActionFnName)
      ensures FilterSignature() == ControlledAttr(attrs, FilterFnName)
      ensures PreferenceSignature() == ControlledAttr(attrs, PreferenceFnName)
      ensures HasAction() ==> fresh(action) && action.currentSetupInstructionsLineno == 1
      ensures HasFilter() ==> fresh(filter) && filter.currentSetupInstructionsLineno == 1
      ensures generatedCallFn ==
        Some(CallFunctionDef(ActionSignature(), FilterSignature(), PreferenceSignature(), LinenoOf(action), LinenoOf(filter)))
      ensures paramNamesDistinct <==> ParamNamesDistinct(MergedArguments(ActionSignature(), FilterSignature(), PreferenceSignature()))
    {
      var a: ControlledMethod? := null;
      var f: ControlledMethod? := null;
      var p: ControlledMethod? := null;
      if ActionFnName in attrs && attrs[ActionFnName].Callable? {
        a := new ControlledMethod(ActionRole, attrs[ActionFnName].signature);
      }
      if FilterFnName in attrs && attrs[FilterFnName].Callable? {
        f := new ControlledMethod(FilterRole, attrs[FilterFnName].signature);
      }
      if PreferenceFnName in attrs && attrs[PreferenceFnName].Callable? {
        p := new ControlledMethod(PreferenceRole, attrs[PreferenceFnName].signature);
      }
      this.name := name;
      this.attrs := attrs;
      action, filter, preference := a, f, p;
      generatedCallFn := None;
      paramNamesDistinct := false;
      new;
      var fn := GenerateCallMethod();
      assert fn.params == MergedArguments(ActionSignature(), FilterSignature(), PreferenceSignature());
      generatedCallFn := Some(fn);
      paramNamesDistinct := ParamNamesDistinct(fn.params);
    }

    /** `get_call_signature_args`. */
    method GetCallSignatureArgs() returns (r: Arguments)
      requires Valid()
      ensures r == MergedArguments(ActionSignature(), FilterSignature(), PreferenceSignature())
    {
      var args := [Arg(ClassArgName), Arg(PartitionName)];
      var posArgsToGenerate := CountPositionalArgs();
      var positional := GeneratePositionalArgs(posArgsToGenerate);
      args := args + positional;
      var defaults;
      args, defaults := AppendKeywordArguments(args);
      var varArg, kwarg := CheckArgUnpacks();
      r := Arguments([], args, varArg, [], [], kwarg, defaults);
    }

    /** The positional-parameter count `get_call_signature_args` computes. */
    method CountPositionalArgs() returns (posArgsToGenerate: int)
      requires Valid()
      ensures posArgsToGenerate == MergedPositionalCount(ActionSignature(), FilterSignature(), PreferenceSignature())
    {
      posArgsToGenerate := 0;
      if HasAction() {
        var argDifference := |action.signature.nonClassPositionalArgs| - MinRequiredCallArgs(action.role);
        posArgsToGenerate := Max(argDifference, posArgsToGenerate);
      }
      if HasPreference() {
        var argDifference := |preference.signature.nonClassPositionalArgs| - MinRequiredCallArgs(preference.role);
        posArgsToGenerate := Max(argDifference, posArgsToGenerate);
      }
      if HasFilter() {
        var argDifference := |filter.signature.nonClassPositionalArgs| - MinRequiredCallArgs(filter.role);
        posArgsToGenerate := Max(argDifference, posArgsToGenerate);
      }
    }

    /** The keyword parameters and their defaults, action's first, then filter's, then preference's. */
    method AppendKeywordArguments(prefix: seq<Arg>) returns (args: seq<Arg>, defaults: seq<Expr>)
      ensures var kws := MergedKeywordArguments(ActionSignature(), FilterSignature(), PreferenceSignature());
        args == prefix + KeywordParams(kws) && defaults == KeywordDefaults(kws)
    {
      args, defaults := prefix, [];
      ghost var kws: seq<(string, Constant)> := [];
      assert KeywordParams(kws) == [] && KeywordDefaults(kws) == [];
      if HasAction() {
        args, defaults := AppendKeywordParams(args, defaults, action.signature.keywordArguments);
        KeywordParamsAppend(prefix, kws, action.signature.keywordArguments);
        kws := kws + action.signature.keywordArguments;
      }
      assert kws == StageKeywordArguments(ActionSignature());
      assert args == prefix + KeywordParams(kws) && defaults == KeywordDefaults(kws);
      if HasFilter() {
        args, defaults := AppendKeywordParams(args, defaults, filter.signature.keywordArguments);
        KeywordParamsAppend(prefix, kws, filter.signature.keywordArguments);
        kws := kws + filter.signature.keywordArguments;
      }
      assert kws == StageKeywordArguments(ActionSignature()) + StageKeywordArguments(FilterSignature());
      assert args == prefix + KeywordParams(kws) && defaults == KeywordDefaults(kws);
      if HasPreference() {
        args, defaults := AppendKeywordParams(args, defaults, preference.signature.keywordArguments);
        KeywordParamsAppend(prefix, kws, preference.signature.keywordArguments);
        kws := kws + preference.signature.keywordArguments;
      }
      assert kws == MergedKeywordArguments(ActionSignature(), FilterSignature(), PreferenceSignature());
      assert args == prefix + KeywordParams(kws) && defaults == KeywordDefaults(kws);
    }

    /** `*args` and `**kwargs` of the generated function: present when any stage captures them. */
    method CheckArgUnpacks() returns (varArg: Option<Arg>, kwarg: Option<Arg>)
      ensures varArg.Some? <==>
        StageHasArgUnpack(ActionSignature()) || StageHasArgUnpack(FilterSignature()) || StageHasArgUnpack(PreferenceSignature())
      ensures kwarg.Some? <==>
        StageHasKwargUnpack(ActionSignature()) || StageHasKwargUnpack(FilterSignature()) || StageHasKwargUnpack(PreferenceSignature())
      ensures varArg.Some? ==> varArg.value == Arg(VarArgName)
      ensures kwarg.Some? ==> kwarg.value == Arg(KwargName)
    {
      var hasVarArg := false;
      if HasAction() {
        hasVarArg := action.signature.hasArgUnpack || hasVarArg;
      }
      if HasFilter() {
        hasVarArg := filter.signature.hasArgUnpack || hasVarArg;
      }
      if HasPreference() {
        hasVarArg := preference.signature.hasArgUnpack || hasVarArg;
      }
      varArg := if hasVarArg then Some(Arg(VarArgName)) else None;

      var hasKwarg := false;
      if HasAction() {
        hasKwarg := action.signature.hasKwargUnpack || hasKwarg;
      }
      if HasFilter() {
        hasKwarg := filter.signature.hasKwargUnpack || hasKwarg;
      }
      if HasPreference() {
        hasKwarg := preference.signature.hasKwargUnpack || hasKwarg;
      }
      kwarg := if hasKwarg then Some(Arg(KwargName)) else None;
    }

    /** `generate_call_method`, up to the point where the definition is unparsed and compiled. */
    method GenerateCallMethod() returns (fn: FunctionDef)
      requires Valid()
      modifies action, filter
      ensures action != null ==>
        action.currentSetupInstructionsLineno == old(action.currentSetupInstructionsLineno) + 1
      ensures filter != null ==>
        filter.currentSetupInstructionsLineno == old(filter.currentSetupInstructionsLineno) + 1
      ensures fn == CallFunctionDef(ActionSignature(), FilterSignature(), PreferenceSignature(), LinenoOf(action), LinenoOf(filter))
    {
      var getElements := Name(PartitionName);
      var setupStatements: seq<Stmt> := [];

      var chosenElement := Name(ChosenName);
      var actionExpr;
      if HasAction() {
        var setup;
        actionExpr, setup := action.GenerateActionExpression();
        setupStatements := setupStatements + setup;
      } else {
        actionExpr := chosenElement;
      }

      if HasFilter() {
        var setup;
        getElements, setup := filter.GenerateFilterExpression();
        setupStatements := setupStatements + setup;
      }

      if HasPreference() {
        var setup;
        getElements, setup := preference.GeneratePreferenceExpression(getElements);
        setupStatements := setupStatements + setup;
      }

      assert getElements == ElementsExpression(FilterSignature(), PreferenceSignature());
      assert setupStatements == SetupStatements(ActionSignature(), FilterSignature(), LinenoOf(action), LinenoOf(filter));
      var generatorExpr := getElements;
      if HasAction() {
        generatorExpr := ListComp(actionExpr, chosenElement, getElements, []);
      }

      assert generatorExpr == ReturnExpression(ActionSignature(), FilterSignature(), PreferenceSignature());
      var returnStatement := Return(generatorExpr);
      var bodyCode := setupStatements + [returnStatement];
      var signatureArgs := GetCallSignatureArgs();
      fn := FunctionDef(GeneratedFunctionName, signatureArgs, bodyCode);
    }
  }

  lemma KeywordParamsAppend(prefix: seq<Arg>, x: seq<(string, Constant)>, y: seq<(string, Constant)>)
    ensures prefix + KeywordParams(x) + KeywordParams(y) == prefix + KeywordParams(x + y)
    ensures KeywordDefaults(x + y) == KeywordDefaults(x) + KeywordDefaults(y)
  {
  }
}
