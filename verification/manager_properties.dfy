/**
 * Properties of the code the controller manager generates: the merged
 * signature's layout, and that every name a stage call reads is bound by
 * that signature (or is the comprehension variable `chosen`).
 */
module ManagerProperties {
  import opened Wrappers
  import opened PyAst
  import opened Manager

  /** Generated positional names never clash with each other. */
  lemma PositionalArgNamesDistinct(i: nat, j: nat)
    ensures PositionalArgName(i) == PositionalArgName(j) ==> i == j
  {
    if PositionalArgName(i) == PositionalArgName(j) {
      assert NatToDecimal(i) == PositionalArgName(i)[|PositionalArgPrefix|..];
      assert NatToDecimal(j) == PositionalArgName(j)[|PositionalArgPrefix|..];
      NatToDecimalInjective(i, j);
    }
  }

  /** Nor with the fixed names of the generated function. */
  lemma PositionalArgNameIsFresh(i: nat)
    ensures PositionalArgName(i) !in {ClassArgName, PartitionName, ChosenName, VarArgName, KwargName}
  {
    var s := PositionalArgName(i);
    assert s[0] == 'a' && s[3] == '_';
    assert s != ClassArgName by { assert ClassArgName[0] == 's'; }
    assert s != PartitionName by { assert PartitionName[0] == 'p'; }
    assert s != ChosenName by { assert ChosenName[0] == 'c'; }
    assert s != KwargName by { assert KwargName[0] == 'k'; }
    assert s != VarArgName by { assert VarArgName[3] == 's'; }
  }

  /** The positional region: `self`, `partition`, then `arg_0..arg_{m-1}`, pairwise distinct. */
  lemma PositionalRegion(m: nat, kws: seq<(string, Constant)>, hasVarArg: bool, hasKwarg: bool)
    ensures
      var r := ParameterList(m, kws, hasVarArg, hasKwarg);
      && |r.args| == 2 + m + |r.defaults|
      && r.args[0] == Arg(ClassArgName) && r.args[1] == Arg(PartitionName)
      && (forall i :: 0 <= i < m ==> r.args[2 + i] == Arg(PositionalArgName(i)))
      && (forall i, j :: 0 <= i < j < 2 + m ==> r.args[i] != r.args[j])
  {
    var r := ParameterList(m, kws, hasVarArg, hasKwarg);
    var front := [Arg(ClassArgName), Arg(PartitionName)] + PositionalArgs(m);
    assert r.args == front + KeywordParams(kws);
    forall i | 0 <= i < 2 + m
      ensures r.args[i] == front[i]
      ensures i >= 2 ==> front[i] == Arg(PositionalArgName(i - 2))
    {
      if i >= 2 {
        assert front[i] == PositionalArgs(m)[i - 2];
      }
    }
    forall i, j | 0 <= i < j < 2 + m ensures r.args[i] != r.args[j] {
      if j >= 2 {
        PositionalArgNameIsFresh(j - 2);
        if i >= 2 {
          PositionalArgNamesDistinct(i - 2, j - 2);
        }
      }
    }
  }

  /** The keyword region: the last parameters, one per keyword, each with its own default. */
  lemma KeywordRegion(m: nat, kws: seq<(string, Constant)>, hasVarArg: bool, hasKwarg: bool)
    ensures
      var r := ParameterList(m, kws, hasVarArg, hasKwarg);
      && |r.defaults| == |kws| <= |r.args|
      && (forall j :: 0 <= j < |kws| ==>
            r.args[|r.args| - |r.defaults| + j] == Arg(kws[j].0) && r.defaults[j] == Const(kws[j].1))
  {
    var r := ParameterList(m, kws, hasVarArg, hasKwarg);
    var front := [Arg(ClassArgName), Arg(PartitionName)] + PositionalArgs(m);
    var back := KeywordParams(kws);
    assert r.args == front + back;
    assert r.defaults == KeywordDefaults(kws);
    var offset := |r.args| - |r.defaults|;
    assert offset == |front|;
    forall j | 0 <= j < |kws|
      ensures r.args[offset + j] == Arg(kws[j].0) && r.defaults[j] == Const(kws[j].1)
    {
      assert r.args[offset + j] == back[j];
    }
  }

  /**
   * How Python reads a parameter list built this way: `self`, `partition` and
   * the `arg_i` are positional and pairwise distinct, and the defaults, which
   * Python aligns with the LAST parameters, fall exactly on the keyword
   * parameters, each with its own default.
   */
  predicate Layout(r: Arguments, m: nat, kws: seq<(string, Constant)>) {
    && |r.args| - |r.defaults| == 2 + m
    && r.args[0] == Arg(ClassArgName) && r.args[1] == Arg(PartitionName)
    && (forall i :: 0 <= i < m ==> r.args[2 + i] == Arg(PositionalArgName(i)))
    && (forall i, j :: 0 <= i < j < 2 + m ==> r.args[i] != r.args[j])
    && |r.defaults| == |kws|
    && (forall j :: 0 <= j < |kws| ==>
          r.args[|r.args| - |r.defaults| + j] == Arg(kws[j].0) && r.defaults[j] == Const(kws[j].1))
    && r.posonlyargs == [] && r.kwonlyargs == [] && r.kwDefaults == []
  }

  lemma ParameterListLayout(m: nat, kws: seq<(string, Constant)>, hasVarArg: bool, hasKwarg: bool)
    ensures Layout(ParameterList(m, kws, hasVarArg, hasKwarg), m, kws)
  {
    PositionalRegion(m, kws, hasVarArg, hasKwarg);
    KeywordRegion(m, kws, hasVarArg, hasKwarg);
  }

  /** The merged parameter list has that layout, with the keywords in action, filter, preference order. */
  lemma MergedArgumentsLayout(a: Option<StageSignature>, f: Option<StageSignature>, p: Option<StageSignature>)
    ensures Layout(MergedArguments(a, f, p), MergedPositionalCount(a, f, p), MergedKeywordArguments(a, f, p))
  {
    var hasVarArg := StageHasArgUnpack(a) || StageHasArgUnpack(f) || StageHasArgUnpack(p);
    var hasKwarg := StageHasKwargUnpack(a) || StageHasKwargUnpack(f) || StageHasKwargUnpack(p);
    ParameterListLayout(MergedPositionalCount(a, f, p), MergedKeywordArguments(a, f, p), hasVarArg, hasKwarg);
  }

  // ----- duplicate parameter names -------------------------------------------------

  /** The names the generated signature always or optionally binds besides the keywords: `self`, `partition`, `arg_i`. */
  function FrontNames(m: nat): seq<string> {
    [ClassArgName, PartitionName] + ArgNameSeq(PositionalArgs(m))
  }

  /** `args` and `kwargs`, for the captures present. */
  function TailNames(hasVarArg: bool, hasKwarg: bool): seq<string> {
    (if hasVarArg then [VarArgName] else []) + (if hasKwarg then [KwargName] else [])
  }

  /** A name the generated signature already binds before or after its keyword parameters. */
  predicate ReservedName(k: string, m: nat, hasVarArg: bool, hasKwarg: bool) {
    || k == ClassArgName || k == PartitionName
    || (exists i :: 0 <= i < m && k == PositionalArgName(i))
    || (hasVarArg && k == VarArgName)
    || (hasKwarg && k == KwargName)
  }

  /**
   * The keyword names pass the duplicate-argument check: no two merged keywords share a name, and none
   * is a reserved name of the signature.
   */
  predicate AdmissibleKeywordNames(m: nat, keys: seq<string>, hasVarArg: bool, hasKwarg: bool) {
    && Distinct(keys)
    && (forall k :: k in keys ==> !ReservedName(k, m, hasVarArg, hasKwarg))
  }

  lemma KeywordParamNames(kws: seq<(string, Constant)>)
    ensures ArgNameSeq(KeywordParams(kws)) == Keys(kws)
  {
  }

  /** The names of the positional and keyword parameters, in order. */
  lemma ArgsNameSeq(m: nat, kws: seq<(string, Constant)>)
    ensures ArgNameSeq([Arg(ClassArgName), Arg(PartitionName)] + PositionalArgs(m) + KeywordParams(kws))
      == FrontNames(m) + Keys(kws)
  {
    var fixed := [Arg(ClassArgName), Arg(PartitionName)];
    assert ArgNameSeq(fixed) == [ClassArgName, PartitionName];
    ArgNameSeqAppend(fixed, PositionalArgs(m));
    ArgNameSeqAppend(fixed + PositionalArgs(m), KeywordParams(kws));
    KeywordParamNames(kws);
  }

  /** The names of a parameter list with only ordinary parameters and captures. */
  lemma PlainParamNameSeq(args: seq<Arg>, vararg: Option<Arg>, kwarg: Option<Arg>, defaults: seq<Expr>)
    ensures ParamNameSeq(Arguments([], args, vararg, [], [], kwarg, defaults))
      == ArgNameSeq(args) + (OptionalArgNameSeq(vararg) + OptionalArgNameSeq(kwarg))
  {
    assert ArgNameSeq([]) == [];
  }

  lemma ParameterListNameSeq(m: nat, kws: seq<(string, Constant)>, hasVarArg: bool, hasKwarg: bool)
    ensures ParamNameSeq(ParameterList(m, kws, hasVarArg, hasKwarg)) == FrontNames(m) + Keys(kws) + TailNames(hasVarArg, hasKwarg)
  {
    var args := [Arg(ClassArgName), Arg(PartitionName)] + PositionalArgs(m) + KeywordParams(kws);
    var vararg := if hasVarArg then Some(Arg(VarArgName)) else None;
    var kwarg := if hasKwarg then Some(Arg(KwargName)) else None;
    assert ParameterList(m, kws, hasVarArg, hasKwarg) == Arguments([], args, vararg, [], [], kwarg, KeywordDefaults(kws));
    PlainParamNameSeq(args, vararg, kwarg, KeywordDefaults(kws));
    ArgsNameSeq(m, kws);
    assert OptionalArgNameSeq(vararg) + OptionalArgNameSeq(kwarg) == TailNames(hasVarArg, hasKwarg);
  }

  /** The reserved names are exactly the front and tail names. */
  lemma ReservedNameIsFrontOrTail(k: string, m: nat, hasVarArg: bool, hasKwarg: bool)
    ensures ReservedName(k, m, hasVarArg, hasKwarg) <==> k in FrontNames(m) || k in TailNames(hasVarArg, hasKwarg)
  {
    var front := FrontNames(m);
    if exists i :: 0 <= i < m && k == PositionalArgName(i) {
      var i :| 0 <= i < m && k == PositionalArgName(i);
      assert front[2 + i] == k;
    }
    if k in front && k != ClassArgName && k != PartitionName {
      var j :| 0 <= j < |front| && front[j] == k;
      assert j >= 2 && k == PositionalArgName(j - 2);
    }
  }

  /** `self`, `partition` and the `arg_i` are pairwise distinct. */
  lemma FrontNamesDistinct(m: nat)
    ensures Distinct(FrontNames(m))
  {
    var front := FrontNames(m);
    forall i, j | 0 <= i < j < |front| ensures front[i] != front[j] {
      if j >= 2 {
        PositionalArgNameIsFresh(j - 2);
        if i >= 2 {
          PositionalArgNamesDistinct(i - 2, j - 2);
        }
      }
    }
  }

  /** Front and tail names never clash. */
  lemma FrontAndTailDistinct(m: nat, hasVarArg: bool, hasKwarg: bool)
    ensures Distinct(FrontNames(m)) && Distinct(TailNames(hasVarArg, hasKwarg))
    ensures forall a :: a in FrontNames(m) ==> a !in TailNames(hasVarArg, hasKwarg)
  {
    FrontNamesDistinct(m);
    var front := FrontNames(m);
    var tail := TailNames(hasVarArg, hasKwarg);
    forall a | a in front ensures a !in tail {
      var i :| 0 <= i < |front| && front[i] == a;
      if i >= 2 {
        PositionalArgNameIsFresh(i - 2);
      }
    }
  }

  /**
   * The generated signature passes Python's duplicate-argument check exactly
   * when the merged keyword names are admissible; otherwise `compile` raises
   * `SyntaxError` ("duplicate argument"). The printed defaults are a separate
   * condition that this lemma does not cover.
   */
  lemma ParameterListNamesDistinct(m: nat, kws: seq<(string, Constant)>, hasVarArg: bool, hasKwarg: bool)
    ensures ParamNamesDistinct(ParameterList(m, kws, hasVarArg, hasKwarg))
      <==> AdmissibleKeywordNames(m, Keys(kws), hasVarArg, hasKwarg)
  {
    var front, keys, tail := FrontNames(m), Keys(kws), TailNames(hasVarArg, hasKwarg);
    ParameterListNameSeq(m, kws, hasVarArg, hasKwarg);
    FrontAndTailDistinct(m, hasVarArg, hasKwarg);
    DistinctAppend(front + keys, tail);
    DistinctAppend(front, keys);
    forall k | k in keys
      ensures ReservedName(k, m, hasVarArg, hasKwarg) <==> k in front || k in tail
    {
      ReservedNameIsFrontOrTail(k, m, hasVarArg, hasKwarg);
    }
    assert (forall a :: a in front + keys ==> a !in tail) <==> (forall a :: a in keys ==> a !in tail);
  }

  /** The same for the merged signature of the present stages. */
  lemma MergedArgumentsNamesDistinct(a: Option<StageSignature>, f: Option<StageSignature>, p: Option<StageSignature>)
    ensures ParamNamesDistinct(MergedArguments(a, f, p))
      <==> AdmissibleKeywordNames(
             MergedPositionalCount(a, f, p), Keys(MergedKeywordArguments(a, f, p)),
             StageHasArgUnpack(a) || StageHasArgUnpack(f) || StageHasArgUnpack(p),
             StageHasKwargUnpack(a) || StageHasKwargUnpack(f) || StageHasKwargUnpack(p))
  {
    ParameterListNamesDistinct(
      MergedPositionalCount(a, f, p), MergedKeywordArguments(a, f, p),
      StageHasArgUnpack(a) || StageHasArgUnpack(f) || StageHasArgUnpack(p),
      StageHasKwargUnpack(a) || StageHasKwargUnpack(f) || StageHasKwargUnpack(p));
  }

  /** An action and a filter that share a keyword name give the generated signature a duplicate parameter. */
  lemma SharedKeywordRejected(action: StageSignature, filter: StageSignature, i: nat, j: nat)
    requires i < |action.keywordArguments| && j < |filter.keywordArguments|
    requires action.keywordArguments[i].0 == filter.keywordArguments[j].0
    ensures !ParamNamesDistinct(MergedArguments(Some(action), Some(filter), None))
  {
    var kws := MergedKeywordArguments(Some(action), Some(filter), None);
    assert kws == action.keywordArguments + filter.keywordArguments;
    var keys := Keys(kws);
    assert keys[i] == keys[|action.keywordArguments| + j];
    MergedArgumentsNamesDistinct(Some(action), Some(filter), None);
  }

  /** A keyword named `partition` (or `self`) clashes with a fixed parameter of the generated signature. */
  lemma KeywordNamedPartitionRejected(action: StageSignature, i: nat)
    requires i < |action.keywordArguments| && action.keywordArguments[i].0 == PartitionName
    ensures !ParamNamesDistinct(MergedArguments(Some(action), None, None))
  {
    var kws := MergedKeywordArguments(Some(action), None, None);
    assert kws == action.keywordArguments;
    assert Keys(kws)[i] == PartitionName && Keys(kws)[i] in Keys(kws);
    MergedArgumentsNamesDistinct(Some(action), None, None);
  }

  function NamesOfArgs(xs: seq<Arg>): set<string> {
    NamesOfSeq(ArgRefs(xs))
  }

  lemma NamesOfArgRefs(xs: seq<Arg>)
    ensures NamesOfArgs(xs) == ArgNames(xs)
  {
    var es := ArgRefs(xs);
    forall n | n in NamesOfSeq(es) ensures n in ArgNames(xs) {
      var i :| 0 <= i < |es| && n in NamesOf(es[i]);
      assert NamesOf(es[i]) == {xs[i].name};
    }
    forall i | 0 <= i < |xs| ensures xs[i].name in NamesOfSeq(es) {
      assert NamesOf(es[i]) == {xs[i].name};
    }
  }

  /** The names read by `chosen`, then references to `extras`, then `tail`. */
  lemma ChosenExtrasTailNames(extras: seq<Arg>, tail: seq<Expr>)
    ensures NamesOfSeq([ArgRef(Arg(ChosenName))] + ArgRefs(extras) + tail)
      == {ChosenName} + ArgNames(extras) + NamesOfSeq(tail)
  {
    var chosen := [ArgRef(Arg(ChosenName))];
    var positional := ArgRefs(extras);
    NamesOfSeqAppend(chosen, positional);
    NamesOfSeqAppend(chosen + positional, tail);
    assert NamesOfSeq(chosen) == {ChosenName} by {
      NamesOfSingleton(ArgRef(Arg(ChosenName)));
    }
    assert NamesOfSeq(positional) == ArgNames(extras) by {
      NamesOfArgRefs(extras);
    }
  }

  /** The names an action or filter call reads positionally: `chosen`, its own extras, and `args` when it unpacks. */
  lemma StageCallArgNames(role: Role, sig: StageSignature)
    ensures NamesOfSeq(StageCallArgs(role, sig))
      == {ChosenName} + ArgNames(PositionalArgs(ExtraPositionalCount(role, sig)))
         + (if sig.hasArgUnpack then {VarArgName} else {})
  {
    var unpack: seq<Expr> := if sig.hasArgUnpack then [Starred(Name(VarArgName))] else [];
    ChosenExtrasTailNames(PositionalArgs(ExtraPositionalCount(role, sig)), unpack);
    if sig.hasArgUnpack {
      NamesOfSingleton(Starred(Name(VarArgName)));
    }
  }

  /** The names a stage call reads through keywords: its own keywords, and `kwargs` when it unpacks. */
  lemma StageCallKeywordNames(sig: StageSignature)
    ensures NamesOfKeywords(StageCallKeywords(sig))
      == SetOf(Keys(sig.keywordArguments)) + (if sig.hasKwargUnpack then {KwargName} else {})
  {
    var forwarded := ForwardByName(Keys(sig.keywordArguments));
    var kwUnpack: seq<Keyword> := if sig.hasKwargUnpack then [Keyword(None, Name(KwargName))] else [];
    NamesOfKeywordsAppend(forwarded, kwUnpack);
    NamesOfForwardByName(Keys(sig.keywordArguments));
    if sig.hasKwargUnpack {
      NamesOfSingletonKeyword(Keyword(None, Name(KwargName)));
    }
  }

  /** Every positional extra a stage reads is a parameter of the generated function. */
  lemma ExtrasAreParameters(k: int, a: Option<StageSignature>, f: Option<StageSignature>, p: Option<StageSignature>)
    requires k <= MergedPositionalCount(a, f, p)
    ensures ArgNames(PositionalArgs(k)) <= ArgNames(MergedArguments(a, f, p).args)
  {
    var r := MergedArguments(a, f, p);
    var m := MergedPositionalCount(a, f, p);
    MergedArgumentsLayout(a, f, p);
    forall n | n in ArgNames(PositionalArgs(k)) ensures n in ArgNames(r.args) {
      var i :| 0 <= i < |PositionalArgs(k)| && PositionalArgs(k)[i].name == n;
      assert PositionalArgs(k)[i] == Arg(PositionalArgName(i));
      assert r.args[2 + i] == Arg(PositionalArgName(i));
    }
  }

  /** A run of keywords inside those a parameter list binds from `offset` on is bound by that list. */
  lemma KeywordRunIsBound(
    args: seq<Arg>, offset: nat, all: seq<(string, Constant)>, pre: seq<(string, Constant)>, kws: seq<(string, Constant)>)
    requires offset + |all| <= |args|
    requires forall j :: 0 <= j < |all| ==> args[offset + j] == Arg(all[j].0)
    requires |pre| + |kws| <= |all|
    requires all[..|pre| + |kws|] == pre + kws
    ensures SetOf(Keys(kws)) <= ArgNames(args)
  {
    forall n | n in SetOf(Keys(kws)) ensures n in ArgNames(args) {
      var i :| 0 <= i < |kws| && Keys(kws)[i] == n;
      var j := |pre| + i;
      assert all[j] == (pre + kws)[j] == kws[i];
      assert args[offset + j] == Arg(all[j].0);
    }
  }

  /** Every keyword a stage forwards is a parameter of the generated function. */
  lemma KeywordsAreParameters(
    pre: seq<(string, Constant)>, kws: seq<(string, Constant)>,
    a: Option<StageSignature>, f: Option<StageSignature>, p: Option<StageSignature>)
    requires |pre| + |kws| <= |MergedKeywordArguments(a, f, p)|
    requires MergedKeywordArguments(a, f, p)[..|pre| + |kws|] == pre + kws
    ensures SetOf(Keys(kws)) <= ArgNames(MergedArguments(a, f, p).args)
  {
    var r := MergedArguments(a, f, p);
    MergedArgumentsLayout(a, f, p);
    KeywordRunIsBound(r.args, |r.args| - |r.defaults|, MergedKeywordArguments(a, f, p), pre, kws);
  }

  /** The keywords of `sig` sit in the merged keywords right after those of the stages before it. */
  lemma StageKeywordsInMerged(
    role: Role, sig: StageSignature, a: Option<StageSignature>, f: Option<StageSignature>, p: Option<StageSignature>)
    requires (role == ActionRole && a == Some(sig)) || (role == FilterRole && f == Some(sig))
    ensures
      var pre := if role == ActionRole then [] else StageKeywordArguments(a);
      var all := MergedKeywordArguments(a, f, p);
      && |pre| + |sig.keywordArguments| <= |all|
      && all[..|pre| + |sig.keywordArguments|] == pre + sig.keywordArguments
  {
    var pre := if role == ActionRole then [] else StageKeywordArguments(a);
    var all := MergedKeywordArguments(a, f, p);
    var rest := if role == ActionRole then StageKeywordArguments(f) + StageKeywordArguments(p)
                else StageKeywordArguments(p);
    assert StageKeywordArguments(Some(sig)) == sig.keywordArguments;
    assert all == (pre + sig.keywordArguments) + rest;
  }

  /**
   * Scoping of the generated code: whatever an action or filter call reads
   * is `chosen` or a parameter of the generated function, so the call never
   * reads a name the function does not bind.
   */
  lemma StageCallScoped(
    role: Role, sig: StageSignature, a: Option<StageSignature>, f: Option<StageSignature>, p: Option<StageSignature>)
    requires (role == ActionRole && a == Some(sig)) || (role == FilterRole && f == Some(sig))
    ensures NamesOfSeq(StageCallArgs(role, sig)) + NamesOfKeywords(StageCallKeywords(sig))
      <= {ChosenName} + ParamNames(MergedArguments(a, f, p))
  {
    var r := MergedArguments(a, f, p);
    var params := ParamNames(r);
    assert ArgNames(r.args) <= params;
    assert NamesOfSeq(StageCallArgs(role, sig)) <= {ChosenName} + params by {
      StageCallArgNames(role, sig);
      ExtrasAreParameters(ExtraPositionalCount(role, sig), a, f, p);
      assert sig.hasArgUnpack ==> VarArgName in OptionalArgName(r.vararg);
    }
    assert NamesOfKeywords(StageCallKeywords(sig)) <= params by {
      StageCallKeywordNames(sig);
      var pre := if role == ActionRole then [] else StageKeywordArguments(a);
      StageKeywordsInMerged(role, sig, a, f, p);
      KeywordsAreParameters(pre, sig.keywordArguments, a, f, p);
      assert sig.hasKwargUnpack ==> KwargName in OptionalArgName(r.kwarg);
    }
  }

  /**
   * The positions of a stage call's arguments: `chosen`, then `arg_0` ...
   * `arg_{k-1}` in order, so each extra the caller passes reaches the stage
   * parameter at the same position.
   */
  lemma StageCallArgPositions(role: Role, sig: StageSignature)
    ensures forall i :: 0 <= i < Max(ExtraPositionalCount(role, sig), 0) ==>
      StageCallArgs(role, sig)[1 + i] == ArgRef(Arg(PositionalArgName(i)))
  {
    var extras := ArgRefs(PositionalArgs(ExtraPositionalCount(role, sig)));
    forall i | 0 <= i < Max(ExtraPositionalCount(role, sig), 0)
      ensures StageCallArgs(role, sig)[1 + i] == ArgRef(Arg(PositionalArgName(i)))
    {
      assert StageCallArgs(role, sig)[1 + i] == extras[i];
    }
  }

  /** Each keyword of a stage call is labelled with its own name and forwards the parameter of that name. */
  lemma StageCallKeywordLabels(sig: StageSignature)
    ensures forall i :: 0 <= i < |sig.keywordArguments| ==>
      StageCallKeywords(sig)[i] == Keyword(Some(sig.keywordArguments[i].0), Name(sig.keywordArguments[i].0))
  {
    var forwarded := ForwardByName(Keys(sig.keywordArguments));
    forall i | 0 <= i < |sig.keywordArguments|
      ensures StageCallKeywords(sig)[i] == Keyword(Some(sig.keywordArguments[i].0), Name(sig.keywordArguments[i].0))
    {
      assert StageCallKeywords(sig)[i] == forwarded[i];
    }
  }
}
