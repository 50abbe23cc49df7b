/**
 * `MethodInvocation`: turns an inspected method into the expression that
 * calls it on `self`, forwarding every parameter by its own name, and
 * optionally wraps that call in a lambda.
 *
 * The positional names to pass (`call_args`) and the method's attribute name
 * (`name`) belong to the inspected method but are not defined by the
 * inspector; they are inputs here.
 */
module Invocation {
  import opened Wrappers
  import opened PyAst
  import opened MethodInspection

  const ClassArgName := "self"

  datatype MethodInvocation = MethodInvocation(spec: FullArgSpec, callArgs: seq<string>, name: string)
  {
    /** The positional part: each call argument by name, then `*varargs` when the method captures them. */
    function PositionalArguments(): (args: seq<Expr>)
      ensures |args| == |callArgs| + (if spec.HasArgUnpack() then 1 else 0)
      ensures forall i :: 0 <= i < |callArgs| ==> args[i] == Name(callArgs[i])
      ensures spec.HasArgUnpack() ==> args[|callArgs|] == Starred(Name(spec.Varargs().value))
    {
      Names(callArgs) + if spec.HasArgUnpack() then [Starred(Name(spec.Varargs().value))] else []
    }

    /** The keyword part: `kw=kw` for each given keyword, then `**varkw` when the method captures them. */
    function KeywordArguments(keywordOnly: seq<(string, Constant)>): (kws: seq<Keyword>)
      ensures |kws| == |keywordOnly| + (if spec.HasKwargUnpack() then 1 else 0)
      ensures forall i :: 0 <= i < |keywordOnly| ==>
        kws[i] == Keyword(Some(keywordOnly[i].0), Name(keywordOnly[i].0))
      ensures spec.HasKwargUnpack() ==> kws[|keywordOnly|] == Keyword(None, Name(spec.Varkw().value))
    {
      ForwardByName(Keys(keywordOnly)) + if spec.HasKwargUnpack() then [Keyword(None, Name(spec.Varkw().value))] else []
    }

    /**
     * `to_function_call`: `self.<name>(<call_args>, *varargs, kw=kw, **varkw)`.
     * It fails exactly when `get_keyword_only_args` does.
     */
    function ToFunctionCall(): (r: Result<Expr, PyError>)
      ensures r.Failure? <==> spec.GetKeywordOnlyArgs().Failure?
      ensures r.Failure? ==> r.error == spec.GetKeywordOnlyArgs().error
      ensures r.Success? ==>
        && r.value.Call?
        && r.value.func == Attribute(Name(ClassArgName), name)
        && r.value.args == PositionalArguments()
        && r.value.keywords == KeywordArguments(spec.GetKeywordOnlyArgs().value)
    {
      var keywordOnly :- spec.GetKeywordOnlyArgs();
      Success(Call(Attribute(Name(ClassArgName), name), PositionalArguments(), KeywordArguments(keywordOnly)))
    }

    /** `to_lambda`: `lambda <lambda_args>: <to_function_call()>`, with no defaults or captures. */
    function ToLambda(lambdaArgs: seq<string>): (r: Result<Expr, PyError>)
      ensures r.Failure? <==> ToFunctionCall().Failure?
      ensures r.Success? ==>
        && r.value.Lambda?
        && r.value.body == ToFunctionCall().value
        && |r.value.params.args| == |lambdaArgs|
        && (forall i :: 0 <= i < |lambdaArgs| ==> r.value.params.args[i] == Arg(lambdaArgs[i]))
        && r.value.params.posonlyargs == [] && r.value.params.vararg == None && r.value.params.kwonlyargs == []
        && r.value.params.kwDefaults == [] && r.value.params.kwarg == None && r.value.params.defaults == []
    {
      var call :- ToFunctionCall();
      var params := Arguments([], seq(|lambdaArgs|, i requires 0 <= i < |lambdaArgs| => Arg(lambdaArgs[i])), None, [], [], None, []);
      Success(Lambda(params, call))
    }
  }

  function OptionalName(present: bool, n: Option<string>): set<string>
    requires present ==> n.Some?
  {
    if present then {n.value} else {}
  }

  /**
   * The generated call reads `self`, its call arguments, the `*` capture, the
   * forwarded keywords and the `**` capture, and nothing else.
   */
  lemma CallNames(m: MethodInvocation)
    requires m.ToFunctionCall().Success?
    ensures NamesOf(m.ToFunctionCall().value) ==
      {ClassArgName} + SetOf(m.callArgs) + OptionalName(m.spec.HasArgUnpack(), m.spec.Varargs())
      + SetOf(Keys(m.spec.GetKeywordOnlyArgs().value)) + OptionalName(m.spec.HasKwargUnpack(), m.spec.Varkw())
  {
    var kwo := m.spec.GetKeywordOnlyArgs().value;
    var star := if m.spec.HasArgUnpack() then [Starred(Name(m.spec.Varargs().value))] else [];
    var dstar := if m.spec.HasKwargUnpack() then [Keyword(None, Name(m.spec.Varkw().value))] else [];
    NamesOfCall(Attribute(Name(ClassArgName), m.name), m.PositionalArguments(), m.KeywordArguments(kwo));
    assert NamesOf(Attribute(Name(ClassArgName), m.name)) == {ClassArgName} by {
      assert NamesOf(Name(ClassArgName)) == {ClassArgName};
    }
    NamesOfSeqAppend(Names(m.callArgs), star);
    NamesOfNames(m.callArgs);
    assert NamesOfSeq(star) == OptionalName(m.spec.HasArgUnpack(), m.spec.Varargs()) by {
      if m.spec.HasArgUnpack() {
        assert NamesOf(star[0]) == {m.spec.Varargs().value} by {
          assert NamesOf(Name(m.spec.Varargs().value)) == {m.spec.Varargs().value};
        }
      }
    }
    NamesOfKeywordsAppend(ForwardByName(Keys(kwo)), dstar);
    NamesOfForwardByName(Keys(kwo));
    assert NamesOfKeywords(dstar) == OptionalName(m.spec.HasKwargUnpack(), m.spec.Varkw()) by {
      if m.spec.HasKwargUnpack() {
        assert NamesOf(dstar[0].value) == {m.spec.Varkw().value};
      }
    }
  }

  /**
   * A lambda over the call's own positional names leaves free only `self`,
   * the captures and the forwarded keywords.
   */
  lemma LambdaOverCallArgsFreeNames(m: MethodInvocation)
    requires m.ToFunctionCall().Success?
    ensures var l := m.ToLambda(m.callArgs).value;
      LambdaFreeNames(l.params, l.body) ==
        ({ClassArgName} + OptionalName(m.spec.HasArgUnpack(), m.spec.Varargs())
         + SetOf(Keys(m.spec.GetKeywordOnlyArgs().value)) + OptionalName(m.spec.HasKwargUnpack(), m.spec.Varkw()))
        - SetOf(m.callArgs)
  {
    CallNames(m);
    var l := m.ToLambda(m.callArgs).value;
    assert ParamNames(l.params) == SetOf(m.callArgs) by {
      assert ArgNames(l.params.args) == SetOf(m.callArgs) by {
        forall n | n in SetOf(m.callArgs) ensures n in ArgNames(l.params.args) {
          var i :| 0 <= i < |m.callArgs| && m.callArgs[i] == n;
          assert l.params.args[i].name == n;
        }
      }
    }
  }
}
