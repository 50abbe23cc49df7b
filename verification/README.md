# MetaControllers: a Dafny model of the pipeline generator

MetaControllers lets a class declare up to three stage methods (`action`,
`filter` and `preference`) and turns them into one generated `__call__`:

```
def call_fn(self, partition, arg_0, ..., kw=default, ..., *args, **kwargs):
    _action = self.action
    _filter = self.filter
    return [_action(chosen, ...) for chosen in
            nsmallest(len(partition), (chosen for chosen in partition if _filter(chosen, ...)),
                      key=cmp_to_key(self.preference))]
```

This project models the three parts of the library that build that function
and proves what they promise.

- **Method inspection** (`method_inspector.dfy`, module `MethodInspection`).
  A callable's parameter description (`FullArgSpec`) is a record. The
  inspector's normalising queries are functions over that record:
  defaulted positional names, keyword-only pairs, `*`/`**` captures, and the
  spec with `self` dropped. `MethodInspector` is a class. Its five
  return-option flags are fields filled lazily by one parse, and the parse
  result is an opaque input. A ghost counter records that the source is
  parsed at most once.
- **Invocation building** (`controlled_method.dfy`, module `Invocation`).
  `MethodInvocation.ToFunctionCall` builds `self.<name>(<call_args>, *varargs, kw=kw, **varkw)`.
  `ToLambda` wraps that call in a lambda. Lemmas give the exact set of names
  each expression reads.
- **Pipeline generation** (`manager.dfy`, module `Manager`).
  - The stage wrappers (`ControlledMethod`) and `ControllerManager` are
    classes whose methods build the generated code step by step, like the
    source does.
  - Each method is proved equal to a specification function: `StageCallArgs`,
    `FilterExpression`, `MergedArguments`, `CallFunctionDef`.
  - `ManagerProperties` proves the layout of the merged signature, for
    every combination of stages, and the scoping of every stage call.
  - It also characterises exactly when the merged parameter names are
    distinct, which is Python's duplicate-argument check. The printed
    defaults are a separate condition (see "## Left out").
  - `PipelineMeaning` gives the generated body a meaning. It is an evaluator
    for the forms the manager emits. The main theorem says that, for every
    combination of stages, the body computes filter, then stable sort by the
    preference, then map of the action. `Ranking` holds the sequence
    semantics for this.
- `python_ast.dfy` (module `PyAst`) is the subset of Python's `ast` the
  generators produce, with the names each node reads. `wrappers.dfy` holds
  `Option` and `Result`.

Inputs that come from reflection are parameters of the model:

- what `inspect.getfullargspec` reports;
- what the signature helper reports about a stage (`StageSignature`);
- whether the callable's source parses, and what it contains.

The model treats the generated code as an AST value. `ast.unparse` and
`compile` are not part of it.

Behaviour modelled as written:

- `get_keyword_only_args` calls `.items()` on `kwonlydefaults or list()`. So a
  method whose keyword-only parameters have no defaults gets an
  `AttributeError`, not an empty list. `GetKeywordOnlyArgs` returns that
  failure, and `ToFunctionCall` propagates it.
- The preference's extra positional and keyword parameters count towards the
  merged signature. `cmp_to_key(self.preference)` never passes them on
  (the contract of `PreferenceExpression`).
- Keyword parameters of different stages are concatenated without removing
  duplicate names. A keyword may also reuse `self`, `partition`, an `arg_i`,
  or `args`/`kwargs` when that capture is present. In every such case
  `compile` raises `SyntaxError` ("duplicate argument") inside the
  constructor. `ControllerManager.paramNamesDistinct` records whether the
  signature passes that check, and `MergedArgumentsNamesDistinct`
  characterises exactly when it does. Passing it is necessary for the text
  to compile and run. It is sufficient only when every default's `repr` is
  a literal that evaluates without free names.
- `get_keyword_only_args` returns only the keyword-only parameters that have
  defaults, since it reads the `kwonlydefaults` dict. So `ToFunctionCall`
  never forwards a required keyword-only parameter declared beside a
  defaulted one.
- The filter's `_filter = self.filter` setup line is emitted even when the
  fast path `filter(self.filter, partition)` does not use it.
- `generate_call_method` passes `body=[body_code]`, a list nested inside the
  body list. `ast.unparse` walks nested lists, so the body is modelled
  flattened.
- The roles reserve `chosen` for action and filter and `a, b` for preference
  (`MinRequiredCallArgs`, manager.py lines 93-94, 167-168 and 203-204).

## Model

| member | source | states |
|---|---|---|
| MethodInspection.MethodInspector.New | pycontroller2/internal/method_inspector.py:9-36 | A non-callable is refused with a `ValueError` whose message names `__name__`, or "UNKNOWN" when there is none (the helper `DisplayName`). Otherwise a fresh inspector stores the spec of `__wrapped__` when present, and `is_wrapped` says which spec it stored. It also records `is_staticmethod`. All caches start empty and nothing has been parsed. |
| MethodInspection.NotCallableMessage | pycontroller2/internal/method_inspector.py:10-17 | The message is the fixed prefix, then the display name, then the fixed suffix. The name can be read back from between them. |
| MethodInspection.DescribedSpec | pycontroller2/internal/method_inspector.py:22-29 | The stored spec is that of `__wrapped__` when the callable has one, else the callable's own. |
| MethodInspection.MethodInspector.ParseReturnOptions | pycontroller2/internal/method_inspector.py:72-180 | After the parse every cache holds the parse's answer. A failed parse leaves the four exit flags False and sets the error flag. The parse counter goes up by one. |
| MethodInspection.ParsedReturnOptions | pycontroller2/internal/method_inspector.py:86-180 | The error flag is set iff the source does not parse. A failed parse leaves every exit flag False. A successful one reports exactly the visitor's four flags. |
| MethodInspection.MethodInspector.HasExplicitVoidReturn | pycontroller2/internal/method_inspector.py:42-46 | Returns the parse's answer. Afterwards the source has been parsed exactly once overall and every cache is filled. If the cache was filled, nothing changes. |
| MethodInspection.MethodInspector.HasExplicitValueReturn | pycontroller2/internal/method_inspector.py:48-52 | Same as above, for explicit value returns. |
| MethodInspection.MethodInspector.HasValueYield | pycontroller2/internal/method_inspector.py:54-58 | Same as above, for `yield` with a value. |
| MethodInspection.MethodInspector.HasValueYieldFrom | pycontroller2/internal/method_inspector.py:60-64 | Same as above, for `yield from`. |
| MethodInspection.MethodInspector.HasParseError | pycontroller2/internal/method_inspector.py:66-70 | Same as above, for the parse-error flag. |
| MethodInspection.ReadAllReturnOptions | pycontroller2/internal/method_inspector.py:42-70 | Reading the five flags in this order parses once, and the five answers are those of that one parse. |
| MethodInspection.MethodInspector.Init | pycontroller2/internal/method_inspector.py:18-36 | The inspector stores the callable and whether it is a staticmethod. It stores the spec of `__wrapped__` when present, else the callable's own, and `is_wrapped` records which. Every cache starts empty and nothing has been parsed. |
| MethodInspection.FullArgSpec.Args | pycontroller2/internal/method_inspector.py:212-217 | For a spec Python builds, the defaults never outnumber the positional names. |
| MethodInspection.FullArgSpec.KwOnlyArgs | pycontroller2/internal/method_inspector.py:231-233 | For a spec Python builds, every name in the `kwonlydefaults` dict is a keyword-only parameter. |
| MethodInspection.FullArgSpec.Varargs | pycontroller2/internal/method_inspector.py:219-221 | `varargs or None`: an absent or empty name reads as absent, and any other name is kept. |
| MethodInspection.FullArgSpec.Varkw | pycontroller2/internal/method_inspector.py:223-225 | `varkw or None`, as above. |
| MethodInspection.FullArgSpec.Defaults | pycontroller2/internal/method_inspector.py:227-229 | `defaults or list()`: a missing tuple reads as empty, and a present one is kept. |
| MethodInspection.FullArgSpec.KwOnlyDefaults | pycontroller2/internal/method_inspector.py:235-237 | `kwonlydefaults or list()`: a missing or empty dict becomes the empty list, and a non-empty dict keeps its items. |
| MethodInspection.FullArgSpec.HasArgUnpack | pycontroller2/internal/method_inspector.py:268-270 | True iff a non-empty `*args` name is declared. |
| MethodInspection.FullArgSpec.HasKwargUnpack | pycontroller2/internal/method_inspector.py:272-274 | True iff a non-empty `**kwargs` name is declared. |
| MethodInspection.FullArgSpec.GetDefaultedArgs | pycontroller2/internal/method_inspector.py:243-254 | The result is empty when there are no defaults. When the defaults fit the positional names, it has one pair per default. Pair i joins the i-th of the last `len(defaults)` names with the i-th default. |
| MethodInspection.FullArgSpec.GetKeywordOnlyArgs | pycontroller2/internal/method_inspector.py:256-266 | Empty when there are no keyword-only parameters. Otherwise it returns the `kwonlydefaults` pairs in order. It fails with `AttributeError` exactly when there are keyword-only parameters but no defaults dict. |
| MethodInspection.WellFormedQueries | pycontroller2/internal/method_inspector.py:243-266 | For a spec Python builds, each default is paired with a positional parameter. Every keyword-only pair names a keyword-only parameter. |
| MethodInspection.FullCallArgSpec | pycontroller2/internal/method_inspector.py:276-290 | A staticmethod's spec is returned unchanged. Otherwise only the first positional name is dropped and every other field is identical. |
| Invocation.MethodInvocation.PositionalArguments | pycontroller2/internal/controlled_method.py:22-29 | `Name(a)` for each call argument in order, then `*varargs` exactly when the method captures them. |
| Invocation.MethodInvocation.KeywordArguments | pycontroller2/internal/controlled_method.py:31-41 | `kw=kw` for each keyword-only pair in order, then a `**varkw` keyword with no name exactly when the method captures keywords. |
| Invocation.MethodInvocation.ToFunctionCall | pycontroller2/internal/controlled_method.py:12-51 | The call's callee is the method's attribute on `self`. Its arguments and keywords are the two parts above. It fails exactly when `get_keyword_only_args` does, with the same error. |
| Invocation.MethodInvocation.ToLambda | pycontroller2/internal/controlled_method.py:53-63 | The lambda's parameters are exactly the given names in order. It has no defaults, captures or keyword-only parameters, and its body is the function call. |
| Invocation.CallNames | pycontroller2/internal/controlled_method.py:22-51 | The call reads exactly `self`, the call arguments, the `*` capture, the forwarded keywords and the `**` capture. |
| Invocation.LambdaOverCallArgsFreeNames | pycontroller2/internal/controlled_method.py:53-63 | A lambda over the call arguments leaves free exactly `self`, the captures and the forwarded keywords, minus the call arguments. |
| Manager.MinRequiredCallArgs | pycontroller/internal/manager.py:93-94 | Action and filter reserve one leading parameter (`chosen`). Only the preference reserves two (`a`, `b`, lines 167-168 and 203-204). |
| Manager.ExtraPositionalCount | pycontroller/internal/manager.py:274-277 | The extra count is never below minus the reserved count. It is positive iff the stage declares more positional parameters than its role reserves. |
| Manager.ControllerManager.HasAction | pycontroller/internal/manager.py:411-413 | True iff the action slot is filled, which is when the manager has an action signature. |
| Manager.ControllerManager.HasFilter | pycontroller/internal/manager.py:415-417 | True iff the filter slot is filled. |
| Manager.ControllerManager.HasPreference | pycontroller/internal/manager.py:419-421 | True iff the preference slot is filled. |
| Manager.StageCallArgs | pycontroller/internal/manager.py:51-64 | `chosen` comes first. Then come the stage's extras, never a negative count, then `*args` last when the stage unpacks. Which names the call reads is stated by `StageCallArgNames`, and that position `1 + i` is `arg_i` by `StageCallArgPositions`. |
| Manager.StageCallKeywords | pycontroller/internal/manager.py:66-77 | One keyword per declared keyword, then `**kwargs` last when the stage unpacks. Which names it reads is stated by `StageCallKeywordNames`, and that each keyword is passed under its own label by `StageCallKeywordLabels`. |
| Manager.PreferenceExpression | pycontroller/internal/manager.py:172-201 | The ranking call reads its elements' names plus `nsmallest`, `len`, `partition`, `cmp_to_key` and `self`. None of the preference's extras is passed. |
| Manager.MergedArguments | pycontroller/internal/manager.py:258-349 | One default per merged keyword, and `2 + m` parameters before them. `*args` is present iff some present stage unpacks positionally, and `**kwargs` iff some present stage unpacks keywords. The full layout is `MergedArgumentsLayout`. |
| Manager.CallFunctionDef | pycontroller/internal/manager.py:351-396 | The definition is named `call_fn` with the merged signature. Its body is one setup line per present action or filter, then a single return. Its meaning is `GeneratedBodyMeaning`. The body is assembled by the helpers `SetupStatements`, `ElementsExpression` and `ReturnExpression`. |
| Manager.PositionalArgs | pycontroller/internal/manager.py:245-256 | `arg_0 ... arg_{n-1}` in order, and nothing when n <= 0. |
| Manager.GeneratePositionalArgs | pycontroller/internal/manager.py:245-256 | The loop builds exactly `PositionalArgs(n)`. |
| Manager.MergedPositionalCount | pycontroller/internal/manager.py:272-300 | The count of generated `arg_i` is at least 0. It is at least every present stage's extra count, which is its positional parameters minus what its role reserves. It equals 0 or one of those counts, so it is their maximum. |
| Manager.FilterExpression | pycontroller/internal/manager.py:130-154 | The filter uses `filter(self.filter, partition)` iff its call would pass `chosen` alone. Otherwise it uses `(chosen for chosen in partition if _filter(...))`. |
| Manager.AppendKeywordParams | pycontroller/internal/manager.py:303-306 | The loop appends one parameter and one `Constant` default per keyword, in order. |
| Manager.ControlledMethod.constructor | pycontroller/internal/manager.py:26-31 | A stage starts with its role, its signature and a setup line counter of 0. |
| Manager.ControlledMethod.GetNewLineno | pycontroller/internal/manager.py:41-43 | The counter goes up by one and the new value is returned. |
| Manager.ControlledMethod.BuildCallArguments | pycontroller/internal/manager.py:51-77 | The argument lists are exactly `StageCallArgs` and `StageCallKeywords`. |
| Manager.ControlledMethod.GenerateActionExpression | pycontroller/internal/manager.py:47-91 | Returns `_action(...)` with the stage's arguments, and the setup `_action = self.action` at the next line number. |
| Manager.ControlledMethod.GenerateFilterExpression | pycontroller/internal/manager.py:98-165 | Returns `FilterExpression` and the setup `_filter = self.filter` at the next line number. |
| Manager.ControlledMethod.GeneratePreferenceExpression | pycontroller/internal/manager.py:172-201 | Wraps the elements in `nsmallest(len(partition), ..., key=cmp_to_key(self.preference))`. There is no setup statement. |
| Manager.ControllerManager.constructor | pycontroller/internal/manager.py:209-236 | A stage is present iff the class has a callable attribute of that name (the helper `ControlledAttr`), and it carries that attribute's signature. The generated function is `CallFunctionDef` of the present stages. `paramNamesDistinct` holds iff the merged parameter names are pairwise distinct, which is when the text passes Python's duplicate-argument check (lines 398-405); when every default's `repr` is a literal that evaluates without free names, that is exactly when the definition compiles and evaluates. |
| Manager.ControllerManager.GetCallSignatureArgs | pycontroller/internal/manager.py:258-349 | The parameter list built is exactly `MergedArguments` of the present stages. |
| Manager.ControllerManager.CountPositionalArgs | pycontroller/internal/manager.py:271-300 | The running maximum over action, preference and filter equals `MergedPositionalCount`. |
| Manager.ControllerManager.AppendKeywordArguments | pycontroller/internal/manager.py:302-314 | Appends the keyword parameters and defaults of action, then filter, then preference. |
| Manager.ControllerManager.CheckArgUnpacks | pycontroller/internal/manager.py:316-338 | `*args` is present iff some present stage captures positional arguments. `**kwargs` is present iff some present stage captures keywords. |
| Manager.ControllerManager.GenerateCallMethod | pycontroller/internal/manager.py:351-396 | The definition built is `CallFunctionDef`. Only the action's and the filter's line counters advance, by one each. |
| ManagerProperties.PositionalArgNamesDistinct | pycontroller/internal/manager.py:245-256 | Different indices give different `arg_i` names. |
| ManagerProperties.PositionalArgNameIsFresh | pycontroller/internal/manager.py:245-256 | No `arg_i` equals `self`, `partition`, `chosen`, `args` or `kwargs`. |
| ManagerProperties.PositionalRegion | pycontroller/internal/manager.py:266-301 | For any count `m`, the parameter list starts with `self` and `partition`, then `arg_0..arg_{m-1}`. These `2 + m` names are pairwise distinct, and the rest of the list has one entry per default. |
| ManagerProperties.KeywordRegion | pycontroller/internal/manager.py:303-314 | The defaults are one per keyword. Counted back from the end, the last parameters are the keywords in order, and each is aligned with its own default. |
| ManagerProperties.ParameterListLayout | pycontroller/internal/manager.py:258-314 | Any parameter list built this way has the same layout: distinct positional names first, then the keyword parameters, which carry the defaults. Whether the keyword names clash is the subject of `ParameterListNamesDistinct`. |
| ManagerProperties.MergedArgumentsLayout | pycontroller/internal/manager.py:266-314 | The list starts with `self` and `partition`, then `arg_0..arg_{m-1}`, and these are pairwise distinct. Python gives the last parameters the defaults. Those are exactly the keyword parameters of action, then filter, then preference, each with its own default. There are no positional-only or keyword-only parameters. |
| ManagerProperties.StageCallArgNames | pycontroller/internal/manager.py:51-64 | An action or filter call reads positionally exactly `chosen`, its own `arg_0..arg_{k-1}`, and `args` when it unpacks. |
| ManagerProperties.StageCallKeywordNames | pycontroller/internal/manager.py:66-77 | Through keywords it reads exactly its own keyword names, and `kwargs` when it unpacks. |
| ManagerProperties.KeywordsAreParameters | pycontroller/internal/manager.py:303-314 | Take a run of keywords that sits in the merged keywords right after some prefix `pre`. Each of its names is a parameter of the merged signature. |
| ManagerProperties.ExtrasAreParameters | pycontroller/internal/manager.py:273-301 | When `k` is at most the merged positional count, every `arg_i` with `i < k` is a parameter of the merged signature. |
| ManagerProperties.StageKeywordsInMerged | pycontroller/internal/manager.py:303-314 | The keywords of the action come first in the merged keywords. The filter's keywords come right after the action's. |
| ManagerProperties.StageCallScoped | pycontroller/internal/manager.py:258-349 | Every name an action or filter call reads is `chosen` or a parameter of the merged signature. |
| ManagerProperties.ParameterListNamesDistinct | pycontroller/internal/manager.py:258-349 | The parameter names are pairwise distinct iff the keyword names are pairwise distinct and none is `self`, `partition`, an `arg_i` of the list, `args` when `*args` is present, or `kwargs` when `**kwargs` is present. |
| ManagerProperties.StageCallArgPositions | pycontroller/internal/manager.py:51-64 | After `chosen`, the i-th positional argument of a stage call is the name `arg_i`, for every extra the stage declares. |
| ManagerProperties.StageCallKeywordLabels | pycontroller/internal/manager.py:66-77 | The i-th keyword of a stage call is `k=k` for the stage's i-th declared keyword `k`. |
| ManagerProperties.MergedArgumentsNamesDistinct | pycontroller/internal/manager.py:258-349 | The same iff for the merged signature of the present stages. The definition passes Python's duplicate-argument check at lines 398-405 exactly then, and, when every default's `repr` is a literal that evaluates without free names, it compiles and evaluates exactly then. |
| ManagerProperties.SharedKeywordRejected | pycontroller/internal/manager.py:303-310 | An action and a filter with a keyword of the same name give a signature with a duplicate parameter. |
| ManagerProperties.KeywordNamedPartitionRejected | pycontroller/internal/manager.py:266-306 | A keyword named `partition` duplicates the fixed `partition` parameter. |
| ManagerProperties.FrontNamesDistinct | pycontroller/internal/manager.py:266-301 | `self`, `partition` and the `arg_i` are pairwise distinct. |
| Ranking.Filter | pycontroller/internal/manager.py:130-154 | Filtering never lengthens its input. Its exact members are stated by `FilterMembers`. |
| Ranking.FilterMembers | pycontroller/internal/manager.py:130-154 | Filtering keeps exactly the elements the predicate accepts. |
| Ranking.FilterAppend | pycontroller/internal/manager.py:130-154 | Filtering distributes over concatenation, so survivors keep their input order. |
| Ranking.Map | pycontroller/internal/manager.py:374-382 | The list comprehension gives one result per element, in order. |
| Ranking.Sort | pycontroller/internal/manager.py:176-199 | Sorting permutes its input. |
| Ranking.NSmallest | pycontroller/internal/manager.py:176-199 | `nsmallest(n, s)` is the first n of the sorted elements, and the whole sort when n >= len(s). |
| Ranking.SortSorted | pycontroller/internal/manager.py:176-199 | With a consistent comparator the result is sorted. |
| Ranking.SortStable | pycontroller/internal/manager.py:176-199 | Elements the comparator ranks equal stay in their input order. |
| Ranking.InsertStable | pycontroller/internal/manager.py:176-199 | Inserting keeps equally-ranked elements in order, with the new one last among its equals. |
| Ranking.RankKeepsAllSurvivors | pycontroller/internal/manager.py:176-199 | `len(partition)` never drops a survivor, so the ranking is a full stable sort of the survivors. |
| PipelineMeaning.FilterExpressionMeaning | pycontroller/internal/manager.py:130-154 | Both forms of the filter expression evaluate to the survivors in order. |
| PipelineMeaning.ElementsExpressionMeaning | pycontroller/internal/manager.py:362-370 | The elements expression evaluates to the survivors, ranked when a preference is present. |
| PipelineMeaning.EvalAfterSetup | pycontroller/internal/manager.py:80-90 | The setup statements bind `_action` and `_filter` to the stages before the return. |
| PipelineMeaning.GeneratedBodyMeaning | pycontroller/internal/manager.py:351-385 | For every combination of stages, the generated body returns the action mapped over the ranked survivors. With no stages it returns `partition`. With no action it returns the ranked survivors. |
| PipelineMeaning.Pipeline | pycontroller/internal/manager.py:351-385 | The output has one element per survivor. Without an action it is a permutation of the survivors. |
| PipelineMeaning.PipelineProperties | pycontroller/internal/manager.py:351-385 | The output holds the action of each ranked element. The ranked elements are a permutation of the survivors. With a preference they are sorted, and equally-ranked elements keep their order. The survivors are exactly the elements the filter accepts. |
| PipelineMeaning.AscendingScenario | pycontroller/internal/manager.py:351-385 | For elements [5, 3, 9, 1], filter `> 2`, ascending preference and identity action, the result is [3, 5, 9]. |

## Left out

- `ast.unparse`, `compile` and `eval` of the generated definition, and `assign_call_method`. These are runtime code generation and patching of the class. The model keeps the definition as an AST value and gives its body a meaning through an evaluator.
- `inspect.getfullargspec`, `inspect.signature`, `signature_to_dict`, `posonlyargs` and `annotations`. The parameter description is an input record. The stored spec and the dict the properties read come from two `getfullargspec` calls on the same object (lines 23-24 and 202 of the inspector module). The model treats them as one record.
- The signature helper that reports a stage's positional parameters, keywords and captures is not part of this model. Its answers are the `StageSignature` input.
- The `namespace` module is not part of this model. Its `CLASS_ARG_NAME` is taken to be `"self"`, the value the manager module declares.
- The `_parse_return_options` source visitor, `inspect.getsource` and `warnings.warn`. The parse is an opaque input (`ParseOutcome`), and only the caching around it is modelled.
- The `__main__` demo in the inspector module.
- The `sort`/`sort_reverse`/`sort_key`/`sort_cmp` shortcuts and the `DoAll`/`fold` controller. Their implementations are not part of this model.
- Exceptions raised inside user stage methods. They propagate unchanged and involve no library logic.
- `PipelineMeaning.Env`: the action and the filter are functions with their extra arguments already bound. How those extras reach them is covered by the scoping lemmas. The action maps elements to values of the same type. Python's dynamic typing makes every value an object, so nothing is lost for the composition.
- PipelineMeaning.GeneratedBodyMeaning: the preference is a two-argument comparator. The source calls it through `cmp_to_key(self.preference)` with `(a, b)` only (manager.py lines 184-191). A preference that requires an extra positional parameter makes the source raise `TypeError` at the first comparison of two survivors. Values the caller passes for the preference's keywords are dropped, and the preference always runs with its own defaults. Neither case is modelled.
- PipelineMeaning.GeneratedBodyMeaning: it treats the signature as compiling, with no `SyntaxError` for duplicate parameter names (see `MergedArgumentsNamesDistinct`). It also treats no keyword parameter as shadowing a builtin: a keyword parameter named `filter`, `len`, `nsmallest` or `cmp_to_key` would shadow the builtin the body calls, and the evaluator resolves those names to the builtins regardless.
- Manager.ControllerManager.constructor: `paramNamesDistinct` covers only the duplicate-argument check. Each keyword default is printed through `repr` into the text (manager.py lines 258-349). A default whose `repr` is not a literal, such as `<built-in function len>`, makes `compile` raise `SyntaxError`. A default whose `repr` names something, such as `datetime.date(2020, 1, 1)`, makes `eval` raise `NameError`, since the globals hold only `nsmallest` and `cmp_to_key` (lines 398-405). Neither failure is modelled.
- PipelineMeaning.GeneratedBodyMeaning: three stage signatures make the source fail or misbehave, and the evaluator does not model them. (a) A stage that declares fewer positional parameters than its role reserves, such as `def filter(self)`, gets a negative `ExtraPositionalCount`; the source still emits the builtin `filter` form or `_action(chosen)`, and Python raises `TypeError` at the first element. (b) A stage keyword named `chosen` is forwarded as `chosen=chosen` and so receives the comprehension element rather than the caller's value (manager.py lines 139-140 and 374-379). (c) A keyword named `_action` or `_filter` is overwritten by the setup assignment of the bound stage (manager.py lines 81-89 and 155-161).
- PipelineMeaning.GeneratedBodyMeaning: with a filter but no preference or action, Python returns a lazy `filter` object or generator. The model gives the sequence it yields.
- Ranking.NSmallest: modelled by its documented equivalence to `sorted(s, key=...)[:n]`, not by the heap algorithm. It relies on Python's `sorted` being a stable sort.
- Ranking.NSmallest: for a comparator that is not a strict weak order (`ConsistentComparator` fails), the model still ranks by its own insertion sort, whose order can differ from CPython's `sorted` (timsort). For example, with a rock-paper-scissors comparator (each beats the next, winner first), CPython's `nsmallest(3, [rock, scissors, paper])` sees one ascending run and returns the input order, while insertion sort gives `[paper, rock, scissors]`. For such comparators the model's order is one permutation among those Python might produce, not CPython's. Under `ConsistentComparator` the order is the stable sorted one, which is what CPython produces.
- PipelineMeaning.ElementsExpressionMeaning: it inherits the `Ranking.NSmallest` caveat. For an inconsistent preference it states insertion sort's order, not CPython's.
- PipelineMeaning.GeneratedBodyMeaning: it inherits the `Ranking.NSmallest` caveat. For an inconsistent preference the body's stated result uses insertion sort's order, which can differ from CPython's. `PipelineProperties` states only what holds under `ConsistentComparator`.
- Ranking.SortSorted: sortedness and stability require the comparator to be a strict weak order (`ConsistentComparator`). A strict weak order here also requires `cmp(a, b) == 0` exactly for equivalent pairs, because `cmp_to_key` keys compare equal only when the comparator returns 0; a comparator of the form `-1 if a < b else 1 if a > b else 0` qualifies, while one that never returns 0 does not, and for it `SortSorted` and `SortStable` claim neither sortedness nor stability. `Sort` itself is still defined for every comparator, by insertion; see the `Ranking.NSmallest` line for what that means for an inconsistent one.
- Manager.ControllerManager.GenerateCallMethod: the source stores the unparsed text in `generated_call_fn`. The model stores the definition itself.
