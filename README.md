# Scorer core of `mlflow.genai.scorers`

A Dafny model of `mlflow/genai/scorers/base.py`. That file turns a plain function or a
class-based scorer into a uniform scorer that an evaluation harness drives one row at a time.
The model covers three parts:

- **Argument projection** (`Scorer.run`, lines 15-28). The keyword arguments of `run` are merged
  into a context. That context always holds `inputs`, `outputs`, `expectations` and `trace`, each
  defaulting to `None`, plus every extra keyword. The context is then restricted to the parameter
  names that the bound `__call__` declares.
- **Result validation** (lines 29-44). An int, float, bool, str, an assessment (current or legacy)
  or a list of assessments is handed back unchanged. Anything else raises a `ValueError`. Its
  message names the scorer and reports the observed type, as `list[<first element's type>]` for a
  non-empty list.
- **The `scorer` decorator** (lines 170-277). Used without a function it returns a partial that
  remembers `name` and `aggregations`. Used with one it builds a scorer whose `__call__` forwards to
  the function. Its introspectable signature is the function's own with `self` in front, and its
  name is `name or func.__name__`.

Python's runtime introspection is replaced by explicit data. A scorer is a record
`Scorer(name, aggregations, callSignature, call)`. `callSignature` is the parameter list of its
`__call__` function, receiver first. `call` is what calling it with keyword arguments does: it
returns a value or raises an exception. The keyword arguments of `run` are one map from names to
values.

Files: `values.dfy` (values, exceptions, call outcomes), `validation.dfy` (the result check),
`call_adapter.dfy` (merge, filter, bound-method parameters), `scorer.dfy` (`run`, the default
`__call__`, the decorator), `scenarios.dfy` (the docstring examples on concrete contexts).

Three behaviours of the code a reader may not expect:
- A `**kwargs` parameter does not admit the extra keys. Filtering compares names only, so it lets
  through just a key literally called `kwargs` (`Scorers.BaseSignatureArguments`).
- The two assessment representations are not normalised. An accepted result is returned unchanged.
- A keyword named `self` given to `run` (a dataset column called `self`, say) makes `run` raise
  Python's `TypeError` for a doubly bound argument before the context is merged.

## Model

| member | source | states |
|---|---|---|
| CallAdapter.Merge | mlflow/genai/scorers/base.py:15-24 | the merged context holds exactly the four fixed keys and every key passed to `run`; a passed key keeps its value, an unpassed fixed key is `None` |
| CallAdapter.Declares | mlflow/genai/scorers/base.py:26-27 | a key is in the signature's parameters iff it is the name of one of the listed parameters |
| CallAdapter.Filter | mlflow/genai/scorers/base.py:27 | the filtered keys are exactly the context keys that name a declared parameter, each with its context value |
| CallAdapter.BoundParameters | mlflow/genai/scorers/base.py:26 | the bound method's parameters are the function's parameters with the receiver taken off the front |
| CallAdapter.ArgumentsExact | mlflow/genai/scorers/base.py:18-28 | the callable receives exactly the declared names found among the fixed keys and the passed keys, never an undeclared key, each with the passed value or `None` |
| CallAdapter.FixedFieldAlwaysPassed | mlflow/genai/scorers/base.py:15-27 | a declared `inputs`, `outputs`, `expectations` or `trace` is always passed, possibly as `None` |
| CallAdapter.OnlyExtraParametersMissing | mlflow/genai/scorers/base.py:18-27 | a declared parameter can be missing from the arguments only if it is not a fixed key and was not passed |
| ResultValidation.AllAssessments | mlflow/genai/scorers/base.py:32-33 | the left-to-right `all(...)` check holds iff every element is an assessment of either representation |
| ResultValidation.ValidateResult | mlflow/genai/scorers/base.py:29-44 | the result is returned unchanged iff it has an accepted shape; otherwise the `ValueError` built by `InvalidResult`, whose message (`ErrorMessage`, lines 40-43) names the scorer and the type `ReportedType` gives (lines 36-39) |
| ResultValidation.RejectedShapes | mlflow/genai/scorers/base.py:29-35 | the rejected results are exactly `None`, dicts, other objects and lists holding a non-assessment |
| ResultValidation.AcceptanceIgnoresName | mlflow/genai/scorers/base.py:29-35 | whether a result is accepted does not depend on the scorer's name |
| ResultValidation.ValidateIdempotent | mlflow/genai/scorers/base.py:29-44 | validating an accepted result again accepts it again, unchanged |
| ResultValidation.ErrorMessageParts | mlflow/genai/scorers/base.py:40-43 | the message starts with the scorer's name, then the fixed list of accepted types, and ends with the reported type |
| ResultValidation.ErrorMessageDeterminesType | mlflow/genai/scorers/base.py:36-43 | for one scorer, two messages are equal iff the reported types are equal |
| ResultValidation.RejectedListReportsFirstElement | mlflow/genai/scorers/base.py:36-37 | a rejected non-empty list is reported as `list[<type of its first element>]`, even when that element is an assessment; the type name is `ScorerValues.TypeName`, Python's `type(v).__name__` |
| Scorers.Run | mlflow/genai/scorers/base.py:15-44 | a `self` keyword raises the `TypeError` of a doubly bound argument; otherwise the scoring logic's exception propagates unchanged, `run` returns a value iff the logic returned an accepted one, and returns it unchanged, and any other returned value raises the `ValueError` naming the scorer |
| Scorers.RunReturnsOnlyAccepted | mlflow/genai/scorers/base.py:28-44 | whatever `run` returns has an accepted shape |
| Scorers.BaseScorerRunRaises | mlflow/genai/scorers/base.py:46-156 | running a scorer built by `BaseScorer`, which keeps the default `__call__` and its signature, raises `NotImplementedError` whatever the context (a `self` keyword is refused first) |
| Scorers.BaseSignatureArguments | mlflow/genai/scorers/base.py:46-53 | with the default signature the callable gets the four fixed keys and, of the extra keys, only one named `kwargs` |
| Scorers.ScorerDecorator | mlflow/genai/scorers/base.py:258-277 | no function gives a partial holding `name` and `aggregations`; a function gives a scorer named `name` when that is non-empty and the function's name otherwise (`ScorerName`, line 275), with the aggregations as given, the function as its logic, and the function's own parameters as its bound parameters |
| Scorers.FactoryMatchesDirect | mlflow/genai/scorers/base.py:258-259 | calling the partial (`ApplyPartial`): `scorer(name=n, aggregations=a)(f)` and `scorer(f, name=n, aggregations=a)` have the same name, aggregations and declared parameters, and `run` behaves identically on every context |
| Scorers.DecoratedRunDelegates | mlflow/genai/scorers/base.py:261-272 | a decorated function receives exactly its own declared parameters found in the context, and `run` validates what the function does with them (after refusing a `self` keyword) |
| ScorerScenarios.NotEmptyScenario | mlflow/genai/scorers/base.py:235-237 | `not_empty` given inputs, outputs and expectations receives only `outputs` and `run` returns `True` |
| ScorerScenarios.ExactMatchScenario | mlflow/genai/scorers/base.py:135-139 | `ExactMatch` with outputs "a" and expected response "b" returns `False` |
| ScorerScenarios.ListOfIntsRejected | mlflow/genai/scorers/base.py:36-43 | a scorer returning `[1, 2, 3]` raises the `ValueError` reporting `list[int]` on every context without a `self` keyword |
| ScorerScenarios.SelfColumnRefused | mlflow/genai/scorers/base.py:15 | a context holding a `self` key raises the `TypeError` even for a scorer that declares a keyword-only `self` |
| ScorerScenarios.MixedListReportsFirstElement | mlflow/genai/scorers/base.py:36-37 | `[Feedback, 1]` is rejected and reported as `list[Feedback]` |
| ScorerScenarios.AcceptedExamples | mlflow/genai/scorers/base.py:29-44 | the empty list, a legacy assessment and a bool are returned unchanged; an empty dict is reported as `dict` |

## Left out

- Runtime introspection (`inspect.signature`, the `__signature__` assignment): replaced by explicit parameter lists. The checks that Python's `Signature.replace` applies to the cloned list are not modelled: distinct names (a function parameter called `self`) and the order of parameter kinds.
- CallAdapter.BoundParameters: always drops the first parameter as the receiver. Python's handling of a `__call__` without a receiver, or with `*args` first, is not modelled.
- The scoring callable's body is an abstract function of its keyword arguments. Any exception it raises is carried as a value. That includes Python's own "missing required argument" `TypeError` when a declared extra parameter is absent. The core does no pre-check for it.
- pydantic `BaseModel` validation and coercion of `name` and `aggregations` (line 11): foreign library behaviour.
- `BuiltInScorer.update_evaluation_config` (lines 159-167): a stub that only raises.
- Aggregation keywords and callables (lines 174-176) are stored, never executed.
- Floats are an opaque bit pattern with no arithmetic. `Trace`, `Assessment`, `Feedback` and the legacy `Assessment` are opaque handles. The current assessment keeps its class name.
- Subclasses of `int`, `float`, `str` and `list` are modelled as the base type, so a list error reports the base type's name, not the subclass's.
- The lazy import of the legacy `Assessment` (line 16).
- Scorers.ApplyPartial: models calling the partial with one function only. Keyword arguments given to the partial call itself, which would override the stored ones, are not modelled.
