/**
 The scorer itself: `Scorer.run`, the default `Scorer.__call__` and the
 `scorer` decorator (mlflow/genai/scorers/base.py). A scorer is an immutable
 record; its scoring logic is a function from keyword arguments to the way
 the call ends.
 */
module Scorers {
  import opened ScorerValues
  import opened CallAdapter
  import opened ResultValidation

  /** An aggregation selector: one of the fixed keywords, or a user reduction (stored, never run here). */
  datatype Aggregation = Min | Max | Mean | Median | Variance | P90 | P99 | Custom(reduction: Handle)

  /**
   A scorer: its `name`, its `aggregations` (absent by default), the parameter
   list of its `__call__` function as introspection sees it (receiver first),
   and what calling `__call__` with keyword arguments does.
   */
  datatype Scorer = Scorer(
    name: string,
    aggregations: Option<seq<Aggregation>>,
    callSignature: seq<Parameter>,
    call: Kwargs -> Outcome)

  /** The parameters `run` introspects: those of the bound method `self.__call__`. */
  function DeclaredParameters(s: Scorer): seq<Parameter>
  {
    BoundParameters(s.callSignature)
  }

  /**
   The `TypeError` Python raises when `run` is given a keyword named `self`:
   that name is already bound to `run`'s own receiver (line 15). The text is
   the wording of Python 3.10 and later.
   */
  const SelfPassedTwice: Exception :=
    Exception("TypeError", "Scorer.run() got multiple values for argument 'self'")

  /**
   Lines 15-44: merge the context, keep the declared keys, call, and validate.
   A keyword named `self` is refused before any of this runs. An exception of
   the scoring logic propagates unchanged; a returned value is handed back
   only when its shape is accepted, and otherwise a `ValueError` naming the
   scorer is raised.
   */
  function Run(s: Scorer, kw: Kwargs): (r: Outcome)
    ensures "self" in kw ==> r == Raised(SelfPassedTwice)
    ensures var out := s.call(Arguments(DeclaredParameters(s), kw));
      "self" !in kw ==>
      && (out.Raised? ==> r == out)
      && (r.Returned? <==> out.Returned? && Accepted(out.value))
      && (r.Returned? ==> r == out)
      && (out.Returned? && !Accepted(out.value) ==> r == Raised(InvalidResult(s.name, out.value)))
  {
    if "self" in kw then Raised(SelfPassedTwice)
    else
      var filtered := Filter(Merge(kw), DeclaredParameters(s));
      match s.call(filtered)
      case Raised(e) => Raised(e)
      case Returned(result) => ValidateResult(s.name, result)
  }

  /** Whatever `run` returns has an accepted shape: invalid results never escape. */
  lemma RunReturnsOnlyAccepted(s: Scorer, kw: Kwargs)
    requires Run(s, kw).Returned?
    ensures Accepted(Run(s, kw).value)
  {
  }

  /** The receiver every `__call__` takes first. */
  const SelfParameter: Parameter := Parameter("self", PositionalOrKeyword)

  /** Lines 46-53: `__call__(self, *, inputs, outputs, expectations, trace, **kwargs)`. */
  const BaseCallSignature: seq<Parameter> := [
    SelfParameter,
    Parameter("inputs", KeywordOnly),
    Parameter("outputs", KeywordOnly),
    Parameter("expectations", KeywordOnly),
    Parameter("trace", KeywordOnly),
    Parameter("kwargs", VarKeyword)
  ]

  const NotImplemented: Exception :=
    Exception("NotImplementedError", "Implementation of __call__ is required for Scorer class")

  /** A scorer that keeps the default `__call__`, which always raises (line 156). */
  function BaseScorer(name: string, aggregations: Option<seq<Aggregation>>): Scorer
  {
    Scorer(name, aggregations, BaseCallSignature, (args: Kwargs) => Raised(NotImplemented))
  }

  /**
   Running a scorer without its own scoring logic raises `NotImplementedError`,
   whatever the context (unless `run` itself refuses a `self` keyword first).
   */
  lemma BaseScorerRunRaises(name: string, aggregations: Option<seq<Aggregation>>, kw: Kwargs)
    ensures Run(BaseScorer(name, aggregations), kw)
      == if "self" in kw then Raised(SelfPassedTwice) else Raised(NotImplemented)
  {
  }

  /**
   With the default signature, the callable would receive the four fixed
   fields and, of the extra keys, only one literally named "kwargs": the
   `**kwargs` parameter is matched by its name, not by its kind.
   */
  lemma BaseSignatureArguments(kw: Kwargs)
    ensures Arguments(BoundParameters(BaseCallSignature), kw).Keys
      == FixedKeys + (kw.Keys * {"kwargs"})
  {
    var params := BoundParameters(BaseCallSignature);
    assert params == BaseCallSignature[1..];
    assert Names(params) == FixedKeys + {"kwargs"} by {
      assert params[0].name == "inputs" && params[1].name == "outputs";
      assert params[2].name == "expectations" && params[3].name == "trace";
      assert params[4].name == "kwargs" && |params| == 5;
    }
    ArgumentsExact(params, kw);
  }

  /** A plain Python function: its `__name__`, its parameters, and what calling it does. */
  datatype PyFunction = PyFunction(name: string, params: seq<Parameter>, body: Kwargs -> Outcome)

  /**
   What `scorer(...)` evaluates to: a `functools.partial` holding the
   configuration (when no function was given), or a scorer.
   */
  datatype Decorated =
    | Partial(name: Option<string>, aggregations: Option<seq<Aggregation>>)
    | Made(scorer: Scorer)

  /** `name or func.__name__`: `None` and the empty string both fall back. */
  function ScorerName(name: Option<string>, funcName: string): string
  {
    if name.Some? && name.value != "" then name.value else funcName
  }

  /**
   Lines 170-277. Without a function, the decorator returns a partial that
   remembers `name` and `aggregations`. With one, it builds a scorer whose
   `__call__` forwards its keyword arguments to the function and whose
   introspectable signature is the function's own, with `self` put in front.
   */
  function ScorerDecorator(func: Option<PyFunction>, name: Option<string>,
                           aggregations: Option<seq<Aggregation>>): (d: Decorated)
    ensures func.None? <==> d.Partial?
    ensures d.Partial? ==> d.name == name && d.aggregations == aggregations
    ensures d.Made? ==> d.scorer.aggregations == aggregations
    ensures d.Made? ==> d.scorer.call == func.value.body
    ensures d.Made? && name.Some? && name.value != "" ==> d.scorer.name == name.value
    ensures d.Made? && (name.None? || name.value == "") ==> d.scorer.name == func.value.name
    ensures d.Made? ==> DeclaredParameters(d.scorer) == func.value.params
  {
    match func
    case None => Partial(name, aggregations)
    case Some(f) =>
      Made(Scorer(ScorerName(name, f.name), aggregations, [SelfParameter] + f.params, f.body))
  }

  /** Calling the partial on a function: `scorer(func, name=..., aggregations=...)`. */
  function ApplyPartial(p: Decorated, func: Option<PyFunction>): Decorated
    requires p.Partial?
  {
    ScorerDecorator(func, p.name, p.aggregations)
  }

  /**
   The factory form and the direct form agree: same name, aggregations,
   declared parameters and scoring logic, so `run` behaves identically.
   */
  lemma FactoryMatchesDirect(f: PyFunction, name: Option<string>,
                             aggregations: Option<seq<Aggregation>>, kw: Kwargs)
    ensures ScorerDecorator(None, name, aggregations).Partial?
    ensures var viaFactory := ApplyPartial(ScorerDecorator(None, name, aggregations), Some(f));
      var direct := ScorerDecorator(Some(f), name, aggregations);
      && viaFactory.Made? && direct.Made?
      && viaFactory.scorer.name == direct.scorer.name
      && viaFactory.scorer.aggregations == direct.scorer.aggregations
      && DeclaredParameters(viaFactory.scorer) == DeclaredParameters(direct.scorer)
      && Run(viaFactory.scorer, kw) == Run(direct.scorer, kw)
  {
  }

  /**
   A decorated function receives exactly its own declared parameters that the
   context holds, and `run` on the decorated scorer is `run` of the function's
   body over those arguments.
   */
  lemma DecoratedRunDelegates(f: PyFunction, name: Option<string>,
                              aggregations: Option<seq<Aggregation>>, kw: Kwargs)
    ensures var s := ScorerDecorator(Some(f), name, aggregations).scorer;
      && Arguments(DeclaredParameters(s), kw).Keys == (FixedKeys + kw.Keys) * Names(f.params)
      && Run(s, kw) == if "self" in kw then Raised(SelfPassedTwice)
                       else match f.body(Arguments(f.params, kw))
                         case Raised(e) => Raised(e)
                         case Returned(v) => ValidateResult(s.name, v)
  {
  }
}
