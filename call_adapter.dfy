/**
 How `Scorer.run` turns the keyword arguments it was given into the keyword
 arguments the scoring callable receives (mlflow/genai/scorers/base.py,
 lines 15-28). Python's runtime introspection of `__call__` is replaced by an
 explicit parameter list.
 */
module CallAdapter {
  import opened ScorerValues

  /** `inspect.Parameter.kind` */
  datatype ParamKind = PositionalOnly | PositionalOrKeyword | VarPositional | KeywordOnly | VarKeyword

  /** One entry of a signature: the parameter's name and its kind. */
  datatype Parameter = Parameter(name: string, kind: ParamKind)

  /** The four context fields `run` names as keyword-only parameters of its own. */
  const FixedKeys: set<string> := {"inputs", "outputs", "expectations", "trace"}

  /** A keyword argument of `run`, or its default `None`. */
  function ArgumentOrNone(kw: Kwargs, key: string): Value
  {
    if key in kw then kw[key] else VNone
  }

  /**
   Lines 15-24. `kw` holds every keyword argument passed to `run`; Python binds
   the four fixed names to `run`'s own parameters and collects the rest in
   `**kwargs`. The merged context holds the four fixed keys (each `None` when
   not passed) and every other key the caller passed, with its value. A `self`
   key never gets here: `Scorers.Run` refuses it first, as Python does.
   */
  function Merge(kw: Kwargs): (merged: Kwargs)
    ensures merged.Keys == FixedKeys + kw.Keys
    ensures forall k :: k in kw ==> merged[k] == kw[k]
    ensures forall k :: k in FixedKeys && k !in kw ==> merged[k] == VNone
  {
    var extra := kw - FixedKeys;
    map[
      "inputs" := ArgumentOrNone(kw, "inputs"),
      "outputs" := ArgumentOrNone(kw, "outputs"),
      "expectations" := ArgumentOrNone(kw, "expectations"),
      "trace" := ArgumentOrNone(kw, "trace")
    ] + extra
  }

  /** The names of a parameter list, as a set. */
  function Names(params: seq<Parameter>): set<string>
  {
    set i | 0 <= i < |params| :: params[i].name
  }

  /** `key in signature.parameters`: the signature has a parameter of that name. */
  function Declares(params: seq<Parameter>, key: string): (r: bool)
    ensures r <==> key in Names(params)
  {
    if params == [] then false
    else params[0].name == key || Declares(params[1..], key)
  }

  /**
   Line 27: keep exactly the keys of the merged context that name a declared
   parameter, each with its value; drop every other key.
   */
  function Filter(merged: Kwargs, params: seq<Parameter>): (filtered: Kwargs)
    ensures filtered.Keys == merged.Keys * Names(params)
    ensures forall k :: k in filtered ==> filtered[k] == merged[k]
  {
    map k | k in merged && Declares(params, k) :: merged[k]
  }

  /**
   What introspecting the bound method `self.__call__` reports: the parameter
   list of the function `__call__` without its first entry, the receiver.
   */
  function BoundParameters(unbound: seq<Parameter>): (bound: seq<Parameter>)
    ensures |unbound| > 0 ==> [unbound[0]] + bound == unbound
  {
    if unbound == [] then [] else unbound[1..]
  }

  /** The keyword arguments a callable declaring `params` receives when `run` is called with `kw`. */
  function Arguments(params: seq<Parameter>, kw: Kwargs): Kwargs
  {
    Filter(Merge(kw), params)
  }

  /**
   The filtered keys are exactly the declared names that the merged context
   holds, and each one carries the value the caller passed, or `None` for an
   unpassed fixed field. No undeclared key is ever passed.
   */
  lemma ArgumentsExact(params: seq<Parameter>, kw: Kwargs)
    ensures Arguments(params, kw).Keys == (FixedKeys + kw.Keys) * Names(params)
    ensures Arguments(params, kw).Keys <= Names(params)
    ensures forall k :: k in Arguments(params, kw) ==> Arguments(params, kw)[k] == ArgumentOrNone(kw, k)
  {
  }

  /** A declared fixed field is always passed, as the caller's value or as `None`. */
  lemma FixedFieldAlwaysPassed(params: seq<Parameter>, kw: Kwargs, key: string)
    requires key in FixedKeys && Declares(params, key)
    ensures key in Arguments(params, kw)
    ensures Arguments(params, kw)[key] == ArgumentOrNone(kw, key)
  {
  }

  /** Only a declared parameter that is neither a fixed field nor a passed key can be missing. */
  lemma OnlyExtraParametersMissing(params: seq<Parameter>, kw: Kwargs, key: string)
    requires Declares(params, key) && key !in Arguments(params, kw)
    ensures key !in FixedKeys && key !in kw
  {
  }
}
