/**
 Concrete scorers from the docstrings of mlflow/genai/scorers/base.py
 (lines 128-147 and 235-248), run on concrete contexts.
 */
module ScorerScenarios {
  import opened ScorerValues
  import opened CallAdapter
  import opened ResultValidation
  import opened Scorers

  /** Python's `TypeError` for a parameter that received no argument; `kind` is "positional" or "keyword-only". */
  function MissingArgument(func: string, kind: string, param: string): Exception
  {
    Exception("TypeError", func + "() missing 1 required " + kind + " argument: '" + param + "'")
  }

  /** Python's `TypeError` for `v["expected_response"]` when `v` is not a dict (other objects are taken as not subscriptable). */
  function NotSubscriptableByStr(v: Value): Exception
  {
    match v
    case VList(_) => Exception("TypeError", "list indices must be integers or slices, not str")
    case VStr(_) => Exception("TypeError", "string indices must be integers, not 'str'")
    case _ => Exception("TypeError", "'" + TypeName(v) + "' object is not subscriptable")
  }

  /** `def not_empty(outputs): return outputs != ""` */
  function NotEmptyBody(args: Kwargs): Outcome
  {
    if "outputs" in args then Returned(VBool(args["outputs"] != VStr("")))
    else Raised(MissingArgument("not_empty", "positional", "outputs"))
  }

  const NotEmpty: PyFunction :=
    PyFunction("not_empty", [Parameter("outputs", PositionalOrKeyword)], NotEmptyBody)

  /** `outputs == expectations["expected_response"]` */
  function ExactMatchBody(args: Kwargs): Outcome
  {
    if "outputs" !in args then Raised(MissingArgument("ExactMatch.__call__", "keyword-only", "outputs"))
    else if "expectations" !in args then Raised(MissingArgument("ExactMatch.__call__", "keyword-only", "expectations"))
    else match args["expectations"]
      case VDict(e) =>
        if "expected_response" in e then Returned(VBool(args["outputs"] == e["expected_response"]))
        else Raised(Exception("KeyError", "'expected_response'"))
      case other => Raised(NotSubscriptableByStr(other))
  }

  /** The class-based `ExactMatch` scorer: `def __call__(self, *, outputs, expectations)`. */
  const ExactMatch: Scorer := Scorer(
    "exact_match", None,
    [SelfParameter, Parameter("outputs", KeywordOnly), Parameter("expectations", KeywordOnly)],
    ExactMatchBody)

  /**
   `@scorer def not_empty(outputs)` run with inputs, outputs and expectations:
   only `outputs` reaches the function, and `run` returns `True`.
   */
  lemma NotEmptyScenario()
    ensures var kw := map["inputs" := VStr("hi"), "outputs" := VStr("bye"),
                          "expectations" := VDict(map["expected" := VStr("bye")])];
      var s := ScorerDecorator(Some(NotEmpty), None, None).scorer;
      && s.name == "not_empty"
      && Arguments(DeclaredParameters(s), kw) == map["outputs" := VStr("bye")]
      && Run(s, kw) == Returned(VBool(true))
  {
  }

  /** `ExactMatch` with outputs "a" and an expected response "b" returns `False`. */
  lemma ExactMatchScenario()
    ensures var kw := map["outputs" := VStr("a"),
                          "expectations" := VDict(map["expected_response" := VStr("b")])];
      Run(ExactMatch, kw) == Returned(VBool(false))
  {
    var kw := map["outputs" := VStr("a"),
                  "expectations" := VDict(map["expected_response" := VStr("b")])];
    var params := DeclaredParameters(ExactMatch);
    assert Names(params) == {"outputs", "expectations"} by {
      assert params == [Parameter("outputs", KeywordOnly), Parameter("expectations", KeywordOnly)];
      assert params[0].name == "outputs" && params[1].name == "expectations";
    }
    ArgumentsExact(params, kw);
    assert Arguments(params, kw).Keys == {"outputs", "expectations"};
  }

  /** `def three(): return [1, 2, 3]` */
  function ThreeIntsBody(args: Kwargs): Outcome
  {
    Returned(VList([VInt(1), VInt(2), VInt(3)]))
  }

  /** A list of integers is rejected, and the error reports `list[int]`. */
  lemma ListOfIntsRejected(kw: Kwargs)
    ensures var s := ScorerDecorator(Some(PyFunction("three", [], ThreeIntsBody)), Some("my_scorer"), None).scorer;
      Run(s, kw) == if "self" in kw then Raised(SelfPassedTwice)
                    else Raised(Exception("ValueError", ErrorMessage("my_scorer", "list[int]")))
  {
  }

  /** A list starting with a `Feedback` and holding an int is reported as `list[Feedback]`. */
  lemma MixedListReportsFirstElement(name: string)
    ensures ValidateResult(name, VList([VAssessment("Feedback", 0), VInt(1)]))
      == Raised(Exception("ValueError", ErrorMessage(name, "list[Feedback]")))
  {
  }

  /** The empty list, a legacy assessment and a boolean are handed back unchanged; a dict is not. */
  lemma AcceptedExamples(name: string)
    ensures ValidateResult(name, VList([])) == Returned(VList([]))
    ensures ValidateResult(name, VLegacyAssessment(7)) == Returned(VLegacyAssessment(7))
    ensures ValidateResult(name, VBool(true)) == Returned(VBool(true))
    ensures ValidateResult(name, VDict(map[])) == Raised(Exception("ValueError", ErrorMessage(name, "dict")))
  {
  }

  /**
   A context field named `self` (a dataset column, say) makes `run` raise the
   `TypeError` before the scorer is consulted, even for a scorer that
   declares a keyword-only `self`.
   */
  lemma SelfColumnRefused(kw: Kwargs)
    requires "self" in kw
    ensures Run(Scorer("odd", None, [SelfParameter, Parameter("self", KeywordOnly)], NotEmptyBody), kw)
      == Raised(SelfPassedTwice)
  {
  }
}
