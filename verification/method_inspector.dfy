/**
 * The method inspector: given a callable, it records the description of its
 * parameter list (the `FullArgSpec` that `inspect.getfullargspec` produces),
 * answers derived queries over it, and lazily caches what a parse of the
 * callable's source says about how it exits.
 *
 * `inspect.getfullargspec` itself and the source parser are not part of this
 * model: the parameter description and the parse outcome are inputs, carried
 * by the `PyObject` value that stands for the callable.
 */
module MethodInspection {
  import opened Wrappers
  import opened PyAst

  /**
   * A `FullArgSpec`. `args` and `kwonlyargs` are always lists; `defaults` is a
   * tuple or `None`; `kwonlydefaults` is a dict (kept as its items, in
   * insertion order) or `None`.
   */
  datatype FullArgSpec = FullArgSpec(
    args: seq<string>,
    varargs: Option<string>,
    varkw: Option<string>,
    defaults: Option<seq<Constant>>,
    kwonlyargs: seq<string>,
    kwonlydefaults: Option<seq<(string, Constant)>>)
  {
    /**
     * What Python guarantees of a spec it builds: defaults belong to the last
     * positional parameters, keyword-only defaults to keyword-only parameters.
     */
    ghost predicate WellFormed() {
      && (defaults.Some? ==> |defaults.value| <= |args|)
      && (kwonlydefaults.Some? ==>
            forall i :: 0 <= i < |kwonlydefaults.value| ==> kwonlydefaults.value[i].0 in kwonlyargs)
    }

    /** The `args` property: `args or list()`. */
    function Args(): (r: seq<string>)
      ensures WellFormed() ==> |Defaults()| <= |r|
    {
      args
    }

    /** The `varargs` property: `varargs or None`, so an empty name reads as absent. */
    function Varargs(): (r: Option<string>)
      ensures r.Some? <==> varargs.Some? && varargs.value != ""
      ensures r.Some? ==> r == varargs
    {
      if varargs.Some? && varargs.value != "" then varargs else None
    }

    /** The `varkw` property: `varkw or None`. */
    function Varkw(): (r: Option<string>)
      ensures r.Some? <==> varkw.Some? && varkw.value != ""
      ensures r.Some? ==> r == varkw
    {
      if varkw.Some? && varkw.value != "" then varkw else None
    }

    /** The `defaults` property: `defaults or list()`. */
    function Defaults(): (r: seq<Constant>)
      ensures defaults.None? ==> r == []
      ensures defaults.Some? ==> r == defaults.value
    {
      if defaults.Some? then defaults.value else []
    }

    /** The `kwonlyargs` property: `kwonlyargs or list()`. */
    function KwOnlyArgs(): (r: seq<string>)
      ensures WellFormed() && kwonlydefaults.Some? ==>
        forall i :: 0 <= i < |kwonlydefaults.value| ==> kwonlydefaults.value[i].0 in r
    {
      kwonlyargs
    }

    /**
     * The `kwonlydefaults` property: `kwonlydefaults or list()`. A missing or
     * empty dict becomes an empty LIST, which has no `items()`.
     */
    function KwOnlyDefaults(): (r: KwDefaultsValue)
      ensures r.EmptyList? <==> kwonlydefaults.None? || kwonlydefaults.value == []
      ensures r.Dict? ==> r.items == kwonlydefaults.value
    {
      if kwonlydefaults.Some? && kwonlydefaults.value != [] then Dict(kwonlydefaults.value) else EmptyList
    }

    /** `has_arg_unpack`: a `*args` capture is declared. */
    predicate HasArgUnpack()
      ensures HasArgUnpack() <==> varargs.Some? && varargs.value != ""
    {
      Varargs() != None
    }

    /** `has_kwarg_unpack`: a `**kwargs` capture is declared. */
    predicate HasKwargUnpack()
      ensures HasKwargUnpack() <==> varkw.Some? && varkw.value != ""
    {
      Varkw() != None
    }

    /**
     * `get_defaulted_args`: the positional parameters that carry defaults,
     * each paired with its default.
     */
    function GetDefaultedArgs(): (r: seq<(string, Constant)>)
      ensures |r| <= |Defaults()|
      ensures Defaults() == [] ==> r == []
      ensures |Defaults()| <= |Args()| ==>
        && |r| == |Defaults()|
        && forall i :: 0 <= i < |r| ==> r[i] == (Args()[|Args()| - |Defaults()| + i], Defaults()[i])
    {
      var keywords := PySliceFrom(Args(), |Args()| - |Defaults()|);
      if |keywords| == 0 then [] else Zip(keywords, Defaults())
    }

    /**
     * `get_keyword_only_args`, as written: the items of `kwonlydefaults`, or
     * the `AttributeError` that `list().items()` raises when keyword-only
     * parameters exist but none of them has a default.
     */
    function GetKeywordOnlyArgs(): (r: Result<seq<(string, Constant)>, PyError>)
      ensures KwOnlyArgs() == [] ==> r == Success([])
      ensures r.Failure? <==> KwOnlyArgs() != [] && KwOnlyDefaults().EmptyList?
      ensures r.Failure? ==> r.error.AttributeError?
      ensures r.Success? && KwOnlyArgs() != [] ==> r.value == kwonlydefaults.value
    {
      if |KwOnlyArgs()| == 0 then Success([])
      else
        match KwOnlyDefaults()
        case Dict(items) => Success(items)
        case EmptyList => Failure(AttributeError("'list' object has no attribute 'items'"))
    }
  }

  /**
   * For a spec Python builds, every defaulted name is a positional parameter
   * and gets a default, and every forwarded keyword-only pair names a
   * keyword-only parameter.
   */
  lemma WellFormedQueries(spec: FullArgSpec)
    requires spec.WellFormed()
    ensures |spec.GetDefaultedArgs()| == |spec.Defaults()|
    ensures forall i :: 0 <= i < |spec.GetDefaultedArgs()| ==> spec.GetDefaultedArgs()[i].0 in spec.Args()
    ensures spec.GetKeywordOnlyArgs().Success? ==>
      forall i :: 0 <= i < |spec.GetKeywordOnlyArgs().value| ==> spec.GetKeywordOnlyArgs().value[i].0 in spec.KwOnlyArgs()
  {
  }

  /** What the `kwonlydefaults` property hands back: a dict, or the empty list substituted for a falsy value. */
  datatype KwDefaultsValue = Dict(items: seq<(string, Constant)>) | EmptyList

  datatype PyError = ValueError(message: string) | AttributeError(message: string)

  /** Python's `s[start:]`: a negative start counts from the end, and is clamped to the bounds. */
  function PySliceFrom<T>(s: seq<T>, start: int): (r: seq<T>)
    ensures 0 <= start <= |s| ==> r == s[start..]
    ensures start > |s| ==> r == []
    ensures start < 0 ==> r == s[if start + |s| < 0 then 0 else start + |s|..]
  {
    var lo := if start < 0 then (if start + |s| < 0 then 0 else start + |s|) else start;
    if lo > |s| then [] else s[lo..]
  }

  /** Python's `zip`: pairs up elements, stopping at the shorter sequence. */
  function Zip<A, B>(xs: seq<A>, ys: seq<B>): (r: seq<(A, B)>)
    ensures |r| == if |xs| < |ys| then |xs| else |ys|
    ensures forall i :: 0 <= i < |r| ==> r[i] == (xs[i], ys[i])
  {
    if xs == [] || ys == [] then [] else [(xs[0], ys[0])] + Zip(xs[1..], ys[1..])
  }

  /** `full_call_arg_spec`: the spec as callers see it, with the receiver `self` dropped unless it is a staticmethod. */
  function FullCallArgSpec(spec: FullArgSpec, isStaticMethod: bool): (r: FullArgSpec)
    ensures isStaticMethod ==> r == spec
    ensures !isStaticMethod ==> r.args == (if spec.args == [] then [] else spec.args[1..])
    ensures r.(args := spec.args) == spec
  {
    if isStaticMethod then spec else spec.(args := PySliceFrom(spec.args, 1))
  }

  /** What a parse of the callable's source reports; the parse itself is opaque. */
  datatype ParseOutcome =
    | Parsed(explicitVoidReturn: bool, explicitValueReturn: bool, valueYield: bool, valueYieldFrom: bool)
    | Unparseable

  /** The five cached answers once a parse has run. */
  datatype ReturnOptions = ReturnOptions(
    explicitVoidReturn: bool,
    explicitValueReturn: bool,
    valueYield: bool,
    valueYieldFrom: bool,
    parseError: bool)

  /**
   * The outcome of `_parse_return_options`: every flag starts `False`; a
   * successful parse fills in the four exit flags, a failed one sets only
   * the error flag.
   */
  function ParsedReturnOptions(p: ParseOutcome): (r: ReturnOptions)
    ensures r.parseError <==> p.Unparseable?
    ensures p.Unparseable? ==> !r.explicitVoidReturn && !r.explicitValueReturn && !r.valueYield && !r.valueYieldFrom
    ensures p.Parsed? ==> r.explicitVoidReturn == p.explicitVoidReturn && r.explicitValueReturn == p.explicitValueReturn
                          && r.valueYield == p.valueYield && r.valueYieldFrom == p.valueYieldFrom
  {
    match p
    case Parsed(v, x, y, yf) => ReturnOptions(v, x, y, yf, false)
    case Unparseable => ReturnOptions(false, false, false, false, true)
  }

  /**
   * The object handed to the inspector. `callable`, `__name__`, whether it is
   * a `staticmethod` and its `__wrapped__` attribute are read from it;
   * `spec` is what `inspect.getfullargspec` reports for it and `source` what
   * parsing its source would report.
   */
  datatype PyObject = PyObject(
    isCallable: bool,
    name: Option<string>,
    isStaticMethod: bool,
    spec: FullArgSpec,
    source: ParseOutcome,
    wrapped: Option<PyObject>)

  const NotCallablePrefix := "MethodInspector expected a callable object, but \""
  const NotCallableSuffix := "\" is not."

  /** The name an error message uses: `__name__`, or "UNKNOWN" when the object has none. */
  function DisplayName(fn: PyObject): string {
    if fn.name.Some? then fn.name.value else "UNKNOWN"
  }

  function NotCallableMessage(fn: PyObject): (msg: string)
    ensures |msg| == |NotCallablePrefix| + |DisplayName(fn)| + |NotCallableSuffix|
    ensures msg[..|NotCallablePrefix|] == NotCallablePrefix
    ensures msg[|NotCallablePrefix|..|msg| - |NotCallableSuffix|] == DisplayName(fn)
  {
    NotCallablePrefix + DisplayName(fn) + NotCallableSuffix
  }

  /** The spec the inspector stores: that of `__wrapped__` when present, else the callable's own. */
  function DescribedSpec(fn: PyObject): (spec: FullArgSpec)
    ensures fn.wrapped.Some? ==> spec == fn.wrapped.value.spec
    ensures fn.wrapped.None? ==> spec == fn.spec
  {
    match fn.wrapped
    case Some(w) => w.spec
    case None => fn.spec
  }

  class MethodInspector {
    const fn: PyObject
    const isStaticMethod: bool
    const spec: FullArgSpec
    const isWrapped: bool

    // The lazily filled caches behind the five read-only properties.
    var hasExplicitVoidReturnCache: Option<bool>
    var hasExplicitValueReturnCache: Option<bool>
    var hasValueYieldCache: Option<bool>
    var hasValueYieldFromCache: Option<bool>
    var errorCache: Option<bool>

    /** How many times the source has been parsed. */
    ghost var parseCount: nat

    /** The caches are all empty before the one parse and all hold its answers after it. */
    ghost predicate Valid()
      reads this
    {
      || (&& hasExplicitVoidReturnCache.None? && hasExplicitValueReturnCache.None?
          && hasValueYieldCache.None? && hasValueYieldFromCache.None? && errorCache.None?
          && parseCount == 0)
      || (&& Cached() && parseCount == 1)
    }

    /** Every cache holds the answer of the parse. */
    ghost predicate Cached()
      reads this
    {
      var r := ParsedReturnOptions(fn.source);
      && hasExplicitVoidReturnCache == Some(r.explicitVoidReturn)
      && hasExplicitValueReturnCache == Some(r.explicitValueReturn)
      && hasValueYieldCache == Some(r.valueYield)
      && hasValueYieldFromCache == Some(r.valueYieldFrom)
      && errorCache == Some(r.parseError)
    }

    constructor Init(fn: PyObject)
      requires fn.isCallable
      ensures this.fn == fn && isStaticMethod == fn.isStaticMethod
      ensures spec == DescribedSpec(fn) && isWrapped == fn.wrapped.Some?
      ensures Valid() && parseCount == 0
    {
      this.fn := fn;
      isStaticMethod := fn.isStaticMethod;
      if fn.wrapped.Some? {
        spec := fn.wrapped.value.spec;
        isWrapped := true;
      } else {
        spec := fn.spec;
        isWrapped := false;
      }
      hasExplicitVoidReturnCache := None;
      hasExplicitValueReturnCache := None;
      hasValueYieldCache := None;
      hasValueYieldFromCache := None;
      errorCache := None;
      parseCount := 0;
    }

    /** Construction: a non-callable is refused with a `ValueError` naming it. */
    static method New(fn: PyObject) returns (r: Result<MethodInspector, PyError>)
      ensures r.Failure? <==> !fn.isCallable
      ensures r.Failure? ==> r.error == ValueError(NotCallableMessage(fn))
      ensures r.Success? ==> && fresh(r.value) && r.value.Valid() && r.value.parseCount == 0
                             && r.value.fn == fn && r.value.isStaticMethod == fn.isStaticMethod
                             && r.value.spec == DescribedSpec(fn) && r.value.isWrapped == fn.wrapped.Some?
    {
      if !fn.isCallable {
        return Failure(ValueError(NotCallableMessage(fn)));
      }
      var inspector := new MethodInspector.Init(fn);
      return Success(inspector);
    }

    /** `_parse_return_options`: pre-set every flag to `False`, then record the parse. */
    method ParseReturnOptions()
      modifies this
      ensures Cached()
      ensures parseCount == old(parseCount) + 1
    {
      hasExplicitVoidReturnCache := Some(false);
      hasExplicitValueReturnCache := Some(false);
      hasValueYieldCache := Some(false);
      hasValueYieldFromCache := Some(false);
      errorCache := Some(false);
      match fn.source {
        case Parsed(v, x, y, yf) =>
          hasExplicitValueReturnCache := Some(x);
          hasExplicitVoidReturnCache := Some(v);
          hasValueYieldCache := Some(y);
          hasValueYieldFromCache := Some(yf);
        case Unparseable =>
          errorCache := Some(true);
      }
      parseCount := parseCount + 1;
    }

    method HasExplicitVoidReturn() returns (b: bool)
      requires Valid()
      modifies this
      ensures Valid() && Cached() && parseCount == 1
      ensures b == ParsedReturnOptions(fn.source).explicitVoidReturn
      ensures old(hasExplicitVoidReturnCache).Some? ==> unchanged(this)
    {
      if hasExplicitVoidReturnCache.None? {
        ParseReturnOptions();
      }
      b := hasExplicitVoidReturnCache.value;
    }

    method HasExplicitValueReturn() returns (b: bool)
      requires Valid()
      modifies this
      ensures Valid() && Cached() && parseCount == 1
      ensures b == ParsedReturnOptions(fn.source).explicitValueReturn
      ensures old(hasExplicitValueReturnCache).Some? ==> unchanged(this)
    {
      if hasExplicitValueReturnCache.None? {
        ParseReturnOptions();
      }
      b := hasExplicitValueReturnCache.value;
    }

    method HasValueYield() returns (b: bool)
      requires Valid()
      modifies this
      ensures Valid() && Cached() && parseCount == 1
      ensures b == ParsedReturnOptions(fn.source).valueYield
      ensures old(hasValueYieldCache).Some? ==> unchanged(this)
    {
      if hasValueYieldCache.None? {
        ParseReturnOptions();
      }
      b := hasValueYieldCache.value;
    }

    method HasValueYieldFrom() returns (b: bool)
      requires Valid()
      modifies this
      ensures Valid() && Cached() && parseCount == 1
      ensures b == ParsedReturnOptions(fn.source).valueYieldFrom
      ensures old(hasValueYieldFromCache).Some? ==> unchanged(this)
    {
      if hasValueYieldFromCache.None? {
        ParseReturnOptions();
      }
      b := hasValueYieldFromCache.value;
    }

    method HasParseError() returns (b: bool)
      requires Valid()
      modifies this
      ensures Valid() && Cached() && parseCount == 1
      ensures b == ParsedReturnOptions(fn.source).parseError
      ensures old(errorCache).Some? ==> unchanged(this)
    {
      if errorCache.None? {
        ParseReturnOptions();
      }
      b := errorCache.value;
    }
  }

  /** Reading the five flags in this order parses once, and every read agrees with that one parse. */
  method ReadAllReturnOptions(inspector: MethodInspector) returns (r: ReturnOptions)
    requires inspector.Valid()
    modifies inspector
    ensures inspector.parseCount == 1
    ensures r == ParsedReturnOptions(inspector.fn.source)
  {
    var yf := inspector.HasValueYieldFrom();
    var v := inspector.HasExplicitVoidReturn();
    var x := inspector.HasExplicitValueReturn();
    var y := inspector.HasValueYield();
    var e := inspector.HasParseError();
    r := ReturnOptions(v, x, y, yf, e);
  }
}
