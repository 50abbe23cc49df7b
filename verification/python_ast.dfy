/**
 * The part of Python's `ast` module that the code generators build: names,
 * attribute accesses, calls with positional, starred and keyword arguments,
 * generator expressions and list comprehensions with one `for` clause,
 * lambdas, constants, assignments and return statements.
 */
module PyAst {
  import opened Wrappers

  /** An `ast.Constant`, kept as the source text of the constant it holds. */
  datatype Constant = Constant(repr: string)

  /** An `ast.arg`: one parameter of a function or lambda. */
  datatype Arg = Arg(name: string)

  datatype Expr =
    | Name(id: string)
      /** An `ast.arg` node placed where an expression is expected; `ast.unparse` prints its name. */
    | ArgRef(arg: Arg)
    | Starred(value: Expr)
    | Attribute(value: Expr, attr: string)
    | Call(func: Expr, args: seq<Expr>, keywords: seq<Keyword>)
      /** `(elt for target in iter if ifs...)` */
    | GeneratorExp(elt: Expr, target: Expr, iter: Expr, ifs: seq<Expr>)
      /** `[elt for target in iter if ifs...]` */
    | ListComp(elt: Expr, target: Expr, iter: Expr, ifs: seq<Expr>)
    | Lambda(params: Arguments, body: Expr)
    | Const(constant: Constant)

  /** `arg=value`, or `**value` when `arg` is `None`. */
  datatype Keyword = Keyword(arg: Option<string>, value: Expr)

  /** `ast.arguments`: the parameter list of a function definition or lambda. */
  datatype Arguments = Arguments(
    posonlyargs: seq<Arg>,
    args: seq<Arg>,
    vararg: Option<Arg>,
    kwonlyargs: seq<Arg>,
    kwDefaults: seq<Expr>,
    kwarg: Option<Arg>,
    defaults: seq<Expr>)

  datatype Stmt =
    | Assign(target: string, value: Expr, lineno: int)
    | Return(value: Expr)

  datatype FunctionDef = FunctionDef(name: string, params: Arguments, body: seq<Stmt>)

  function ArgNames(xs: seq<Arg>): (r: set<string>)
    ensures forall i :: 0 <= i < |xs| ==> xs[i].name in r
    ensures forall n :: n in r ==> exists i :: 0 <= i < |xs| && xs[i].name == n
  {
    set i | 0 <= i < |xs| :: xs[i].name
  }

  function OptionalArgName(a: Option<Arg>): set<string> {
    if a.Some? then {a.value.name} else {}
  }

  /** Every name a parameter list binds. */
  function ParamNames(p: Arguments): set<string> {
    ArgNames(p.posonlyargs) + ArgNames(p.args) + OptionalArgName(p.vararg)
      + ArgNames(p.kwonlyargs) + OptionalArgName(p.kwarg)
  }

  /** The names of a sequence of parameters, in order. */
  function ArgNameSeq(xs: seq<Arg>): (r: seq<string>)
    ensures |r| == |xs| && forall i :: 0 <= i < |xs| ==> r[i] == xs[i].name
  {
    seq(|xs|, i requires 0 <= i < |xs| => xs[i].name)
  }

  lemma ArgNameSeqAppend(x: seq<Arg>, y: seq<Arg>)
    ensures ArgNameSeq(x + y) == ArgNameSeq(x) + ArgNameSeq(y)
  {
    var xy := x + y;
    forall i | 0 <= i < |xy| ensures ArgNameSeq(xy)[i] == (ArgNameSeq(x) + ArgNameSeq(y))[i] {
      if i < |x| { assert xy[i] == x[i]; } else { assert xy[i] == y[i - |x|]; }
    }
  }

  function OptionalArgNameSeq(a: Option<Arg>): seq<string> {
    if a.Some? then [a.value.name] else []
  }

  /** Every name a parameter list binds, in declaration order. */
  function ParamNameSeq(p: Arguments): seq<string> {
    ArgNameSeq(p.posonlyargs) + ArgNameSeq(p.args) + OptionalArgNameSeq(p.vararg)
      + ArgNameSeq(p.kwonlyargs) + OptionalArgNameSeq(p.kwarg)
  }

  predicate Distinct<T(==)>(s: seq<T>) {
    forall i, j :: 0 <= i < j < |s| ==> s[i] != s[j]
  }

  /**
   * Python's compiler refuses a function whose parameter list names the same
   * parameter twice (`SyntaxError: duplicate argument`).
   */
  predicate ParamNamesDistinct(p: Arguments) {
    Distinct(ParamNameSeq(p))
  }

  /** A concatenation has no repeats iff neither part has and they share no element. */
  lemma DistinctAppend<T>(x: seq<T>, y: seq<T>)
    ensures Distinct(x + y) <==> Distinct(x) && Distinct(y) && (forall a :: a in x ==> a !in y)
  {
    var xy := x + y;
    if Distinct(xy) {
      forall i, j | 0 <= i < j < |x| ensures x[i] != x[j] {
        assert xy[i] == x[i] && xy[j] == x[j];
      }
      forall i, j | 0 <= i < j < |y| ensures y[i] != y[j] {
        assert xy[|x| + i] == y[i] && xy[|x| + j] == y[j];
      }
      forall a | a in x ensures a !in y {
        var i :| 0 <= i < |x| && x[i] == a;
        forall j | 0 <= j < |y| ensures y[j] != a {
          assert xy[i] == x[i] && xy[|x| + j] == y[j];
        }
      }
    }
    if Distinct(x) && Distinct(y) && (forall a :: a in x ==> a !in y) {
      forall i, j | 0 <= i < j < |xy| ensures xy[i] != xy[j] {
        if j < |x| {
          assert xy[i] == x[i] && xy[j] == x[j];
        } else if i < |x| {
          assert xy[i] == x[i] && xy[j] == y[j - |x|];
          assert x[i] in x && y[j - |x|] in y;
        } else {
          assert xy[i] == y[i - |x|] && xy[j] == y[j - |x|];
        }
      }
    }
  }

  /** Every identifier an expression reads, including the targets of comprehensions. */
  function NamesOf(e: Expr): set<string>
    decreases e
  {
    match e
    case Name(id) => {id}
    case ArgRef(a) => {a.name}
    case Starred(v) => NamesOf(v)
    case Attribute(v, _) => NamesOf(v)
    case Call(f, args, kws) =>
      NamesOf(f)
        + (set i, n | 0 <= i < |args| && n in NamesOf(args[i]) :: n)
        + (set i, n | 0 <= i < |kws| && n in NamesOf(kws[i].value) :: n)
    case GeneratorExp(elt, target, iter, ifs) =>
      NamesOf(elt) + NamesOf(target) + NamesOf(iter)
        + (set i, n | 0 <= i < |ifs| && n in NamesOf(ifs[i]) :: n)
    case ListComp(elt, target, iter, ifs) =>
      NamesOf(elt) + NamesOf(target) + NamesOf(iter)
        + (set i, n | 0 <= i < |ifs| && n in NamesOf(ifs[i]) :: n)
    case Lambda(_, body) => NamesOf(body)
    case Const(_) => {}
  }

  /** The names read by a sequence of expressions. */
  function NamesOfSeq(es: seq<Expr>): set<string> {
    set i, n | 0 <= i < |es| && n in NamesOf(es[i]) :: n
  }

  /** The names read by the values of a sequence of keyword arguments. */
  function NamesOfKeywords(ks: seq<Keyword>): set<string> {
    set i, n | 0 <= i < |ks| && n in NamesOf(ks[i].value) :: n
  }

  lemma NamesOfCall(f: Expr, args: seq<Expr>, kws: seq<Keyword>)
    ensures NamesOf(Call(f, args, kws)) == NamesOf(f) + NamesOfSeq(args) + NamesOfKeywords(kws)
  {
  }

  lemma NamesOfSeqAppend(a: seq<Expr>, b: seq<Expr>)
    ensures NamesOfSeq(a + b) == NamesOfSeq(a) + NamesOfSeq(b)
  {
    var ab := a + b;
    forall n | n in NamesOfSeq(ab) ensures n in NamesOfSeq(a) + NamesOfSeq(b) {
      var i :| 0 <= i < |ab| && n in NamesOf(ab[i]);
      if i < |a| { assert ab[i] == a[i]; } else { assert ab[i] == b[i - |a|]; }
    }
    forall n | n in NamesOfSeq(b) ensures n in NamesOfSeq(ab) {
      var i :| 0 <= i < |b| && n in NamesOf(b[i]);
      assert ab[|a| + i] == b[i];
    }
    forall n | n in NamesOfSeq(a) ensures n in NamesOfSeq(ab) {
      var i :| 0 <= i < |a| && n in NamesOf(a[i]);
      assert ab[i] == a[i];
    }
  }

  lemma NamesOfKeywordsAppend(a: seq<Keyword>, b: seq<Keyword>)
    ensures NamesOfKeywords(a + b) == NamesOfKeywords(a) + NamesOfKeywords(b)
  {
    var ab := a + b;
    forall n | n in NamesOfKeywords(ab) ensures n in NamesOfKeywords(a) + NamesOfKeywords(b) {
      var i :| 0 <= i < |ab| && n in NamesOf(ab[i].value);
      if i < |a| { assert ab[i] == a[i]; } else { assert ab[i] == b[i - |a|]; }
    }
    forall n | n in NamesOfKeywords(b) ensures n in NamesOfKeywords(ab) {
      var i :| 0 <= i < |b| && n in NamesOf(b[i].value);
      assert ab[|a| + i] == b[i];
    }
    forall n | n in NamesOfKeywords(a) ensures n in NamesOfKeywords(ab) {
      var i :| 0 <= i < |a| && n in NamesOf(a[i].value);
      assert ab[i] == a[i];
    }
  }

  lemma NamesOfSingleton(e: Expr)
    ensures NamesOfSeq([e]) == NamesOf(e)
  {
    forall n | n in NamesOf(e) ensures n in NamesOfSeq([e]) {
      assert [e][0] == e;
    }
  }

  lemma NamesOfSingletonKeyword(k: Keyword)
    ensures NamesOfKeywords([k]) == NamesOf(k.value)
  {
    forall n | n in NamesOf(k.value) ensures n in NamesOfKeywords([k]) {
      assert [k][0] == k;
    }
  }

  function SetOf(ids: seq<string>): set<string> {
    set i | 0 <= i < |ids| :: ids[i]
  }

  /** The names of `(name, default)` pairs, in order. */
  function Keys(pairs: seq<(string, Constant)>): (r: seq<string>)
    ensures |r| == |pairs| && forall i :: 0 <= i < |pairs| ==> r[i] == pairs[i].0
  {
    seq(|pairs|, i requires 0 <= i < |pairs| => pairs[i].0)
  }

  /** `Name(id)` for each identifier, in order. */
  function Names(ids: seq<string>): (r: seq<Expr>)
    ensures |r| == |ids| && forall i :: 0 <= i < |ids| ==> r[i] == Name(ids[i])
  {
    seq(|ids|, i requires 0 <= i < |ids| => Name(ids[i]))
  }

  /** `id=id` for each identifier, in order: forwarding a parameter under its own name. */
  function ForwardByName(ids: seq<string>): (r: seq<Keyword>)
    ensures |r| == |ids| && forall i :: 0 <= i < |ids| ==> r[i] == Keyword(Some(ids[i]), Name(ids[i]))
  {
    seq(|ids|, i requires 0 <= i < |ids| => Keyword(Some(ids[i]), Name(ids[i])))
  }

  lemma NamesOfNames(ids: seq<string>)
    ensures NamesOfSeq(Names(ids)) == SetOf(ids)
  {
    var es := Names(ids);
    forall n | n in NamesOfSeq(es) ensures n in SetOf(ids) {
      var i :| 0 <= i < |es| && n in NamesOf(es[i]);
      assert NamesOf(es[i]) == {ids[i]};
    }
    forall i | 0 <= i < |ids| ensures ids[i] in NamesOfSeq(es) {
      assert NamesOf(es[i]) == {ids[i]};
    }
  }

  lemma NamesOfForwardByName(ids: seq<string>)
    ensures NamesOfKeywords(ForwardByName(ids)) == SetOf(ids)
  {
    var ks := ForwardByName(ids);
    forall n | n in NamesOfKeywords(ks) ensures n in SetOf(ids) {
      var i :| 0 <= i < |ks| && n in NamesOf(ks[i].value);
      assert NamesOf(ks[i].value) == {ids[i]};
    }
    forall i | 0 <= i < |ids| ensures ids[i] in NamesOfKeywords(ks) {
      assert NamesOf(ks[i].value) == {ids[i]};
    }
  }

  /** The names a lambda reads from its enclosing scope. */
  function LambdaFreeNames(params: Arguments, body: Expr): set<string> {
    NamesOf(body) - ParamNames(params)
  }

  /** Python's `str(n)` for a natural number: its decimal digits. */
  function NatToDecimal(n: nat): (s: string)
    ensures |s| >= 1
    ensures n < 10 <==> |s| == 1
    decreases n
  {
    if n < 10 then [DigitChar(n)] else NatToDecimal(n / 10) + [DigitChar(n % 10)]
  }

  function DigitChar(d: nat): char
    requires d < 10
  {
    ('0' as int + d) as char
  }

  /** Distinct numbers print differently, so the generated `arg_<i>` names never clash. */
  lemma {:induction false} NatToDecimalInjective(a: nat, b: nat)
    requires NatToDecimal(a) == NatToDecimal(b)
    ensures a == b
    decreases a
  {
    var s := NatToDecimal(a);
    if a >= 10 && b >= 10 {
      assert s[..|s| - 1] == NatToDecimal(a / 10);
      assert NatToDecimal(b)[..|s| - 1] == NatToDecimal(b / 10);
      NatToDecimalInjective(a / 10, b / 10);
      assert DigitChar(a % 10) == s[|s| - 1] == DigitChar(b % 10);
    }
  }
}
