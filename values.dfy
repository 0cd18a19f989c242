/**
 The values that flow through a scorer: the context values a caller hands to
 `Scorer.run`, the keyword arguments that reach the scoring callable, and the
 result it returns (mlflow/genai/scorers/base.py).
 */
module ScorerValues {

  datatype Option<+T> = None | Some(value: T)

  /** Identity of an object the model treats as opaque (a trace, an assessment, ...). */
  type Handle = nat

  /**
   A Python value, as far as the scorer core can tell values apart. Floats are
   kept as their IEEE-754 bit pattern; no arithmetic is done on them.
   `VAssessment` is `mlflow.entities.Assessment` or one of its subclasses
   (`Feedback`, `Expectation`), whose class name is kept because an error
   message can report it; `VLegacyAssessment` is `mlflow.evaluation.Assessment`.
   `VOther` is an instance of any class that is none of the above (a `Trace`,
   a user object, ...), with its class name.
   */
  datatype Value =
    | VNone
    | VInt(i: int)
    | VFloat(bits: bv64)
    | VBool(b: bool)
    | VStr(s: string)
    | VAssessment(className: string, handle: Handle)
    | VLegacyAssessment(handle: Handle)
    | VList(items: seq<Value>)
    | VDict(entries: map<string, Value>)
    | VOther(typeName: string, handle: Handle)

  /** `type(v).__name__` */
  function TypeName(v: Value): string
  {
    match v
    case VNone => "NoneType"
    case VInt(_) => "int"
    case VFloat(_) => "float"
    case VBool(_) => "bool"
    case VStr(_) => "str"
    case VAssessment(className, _) => className
    case VLegacyAssessment(_) => "Assessment"
    case VList(_) => "list"
    case VDict(_) => "dict"
    case VOther(typeName, _) => typeName
  }

  /** Keyword arguments: parameter name to value. */
  type Kwargs = map<string, Value>

  /** A raised Python exception: its class name and its message. */
  datatype Exception = Exception(kind: string, message: string)

  /** How a Python call ends: it returns a value or raises an exception. */
  datatype Outcome = Returned(value: Value) | Raised(exception: Exception)
}
