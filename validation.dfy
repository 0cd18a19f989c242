/**
 The closed check `Scorer.run` applies to whatever the scoring callable
 returned (mlflow/genai/scorers/base.py, lines 29-44).
 */
module ResultValidation {
  import opened ScorerValues

  /** `isinstance(v, (Assessment, LegacyAssessment))` */
  predicate IsAssessment(v: Value)
  {
    v.VAssessment? || v.VLegacyAssessment?
  }

  /** `isinstance(v, (int, float, bool, str))` */
  predicate IsScalar(v: Value)
  {
    v.VInt? || v.VFloat? || v.VBool? || v.VStr?
  }

  /**
   The accepted result shapes: a scalar, one assessment of either
   representation, or a list every element of which is an assessment (so the
   empty list too).
   */
  ghost predicate Accepted(v: Value)
  {
    || IsScalar(v)
    || IsAssessment(v)
    || (v.VList? && forall i :: 0 <= i < |v.items| ==> IsAssessment(v.items[i]))
  }

  /** `all(isinstance(item, (Assessment, LegacyAssessment)) for item in items)`, left to right. */
  function AllAssessments(items: seq<Value>): (r: bool)
    ensures r <==> forall i :: 0 <= i < |items| ==> IsAssessment(items[i])
  {
    if items == [] then true
    else IsAssessment(items[0]) && AllAssessments(items[1..])
  }

  /** The type the error reports: `list[<type of the first element>]` for a non-empty list. */
  function ReportedType(v: Value): string
  {
    if v.VList? && |v.items| > 0 then "list[" + TypeName(v.items[0]) + "]"
    else TypeName(v)
  }

  const MessageMiddle: string := " must return one of int, float, bool, str, Assessment, or list[Assessment]. Got "

  /** The message of the `ValueError` raised for a result of reported type `t`. */
  function ErrorMessage(name: string, t: string): string
  {
    name + MessageMiddle + t
  }

  /** The `ValueError` raised for a rejected result. */
  function InvalidResult(name: string, result: Value): Exception
  {
    Exception("ValueError", ErrorMessage(name, ReportedType(result)))
  }

  /**
   Lines 29-44: an accepted result is handed back unchanged; any other result
   raises a `ValueError` that names the scorer and the observed type.
   */
  function ValidateResult(name: string, result: Value): (r: Outcome)
    ensures r.Returned? <==> Accepted(result)
    ensures r.Returned? ==> r.value == result
    ensures r.Raised? ==> r.exception.kind == "ValueError"
    ensures r.Raised? ==> r.exception == InvalidResult(name, result)
  {
    if IsScalar(result) || IsAssessment(result)
       || (result.VList? && AllAssessments(result.items))
    then Returned(result)
    else Raised(InvalidResult(name, result))
  }

  /** The rejected results are exactly None, dicts, other objects and lists holding a non-assessment. */
  lemma RejectedShapes(v: Value)
    ensures !Accepted(v) <==>
      || v.VNone? || v.VDict? || v.VOther?
      || (v.VList? && exists i :: 0 <= i < |v.items| && !IsAssessment(v.items[i]))
  {
  }

  /** Whether a result is accepted does not depend on the scorer's name. */
  lemma AcceptanceIgnoresName(n1: string, n2: string, v: Value)
    ensures ValidateResult(n1, v).Returned? == ValidateResult(n2, v).Returned?
  {
  }

  /** Validating an accepted result again accepts it again: validation is idempotent. */
  lemma ValidateIdempotent(n: string, m: string, v: Value)
    requires ValidateResult(n, v).Returned?
    ensures ValidateResult(m, ValidateResult(n, v).value) == ValidateResult(n, v)
  {
  }

  /** The error message begins with the scorer's name and ends with the reported type. */
  lemma ErrorMessageParts(name: string, t: string)
    ensures var msg := ErrorMessage(name, t);
      && |msg| == |name| + |MessageMiddle| + |t|
      && msg[..|name|] == name
      && msg[|name|..|name| + |MessageMiddle|] == MessageMiddle
      && msg[|msg| - |t|..] == t
  {
  }

  /** For one scorer, the message determines the reported type (and the reverse). */
  lemma ErrorMessageDeterminesType(name: string, t1: string, t2: string)
    ensures ErrorMessage(name, t1) == ErrorMessage(name, t2) <==> t1 == t2
  {
    if ErrorMessage(name, t1) == ErrorMessage(name, t2) {
      ErrorMessageParts(name, t1);
      ErrorMessageParts(name, t2);
    }
  }

  /**
   A rejected non-empty list is reported by the type of its FIRST element,
   even when that element is an assessment and a later one is not.
   */
  lemma RejectedListReportsFirstElement(name: string, items: seq<Value>)
    requires exists i :: 0 <= i < |items| && !IsAssessment(items[i])
    ensures ValidateResult(name, VList(items))
      == Raised(Exception("ValueError", ErrorMessage(name, "list[" + TypeName(items[0]) + "]")))
  {
  }
}
