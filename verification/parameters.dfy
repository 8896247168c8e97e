/** Runtime parameters as the dynamic-reconfiguration callbacks receive them:
    a name and a typed value. A callback acts on a parameter only when both
    its name and its type are the ones a field expects. */
module Parameters {
  import opened Geometry

  datatype ParameterValue =
    | NotSet
    | BoolValue(b: bool)
    | IntegerValue(i: int)
    | DoubleValue(d: real)
    | StringValue(s: string)
    | ArrayValue

  datatype Parameter = Parameter(name: string, value: ParameterValue)

  datatype SetParametersResult = SetParametersResult(successful: bool)

  /** The parameter types a callback dispatches on. */
  datatype Kind = Integer | Double | Bool

  predicate HasKind(v: ParameterValue, k: Kind)
  {
    match k
    case Integer => v.IntegerValue?
    case Double => v.DoubleValue?
    case Bool => v.BoolValue?
  }

  predicate Matches(p: Parameter, key: string, k: Kind)
  {
    p.name == key && HasKind(p.value, k)
  }

  /** The value of the last parameter in `ps` named `key` with a value of kind
      `k`, if any: the value a field keyed by `key` ends with after a
      callback, since later parameters overwrite earlier ones. */
  function LastOfKind(ps: seq<Parameter>, key: string, k: Kind): Option<ParameterValue>
  {
    if |ps| == 0 then None
    else if Matches(ps[|ps| - 1], key, k) then Some(ps[|ps| - 1].value)
    else LastOfKind(ps[..|ps| - 1], key, k)
  }

  /** LastOfKind finds nothing exactly when no parameter matches. */
  lemma {:induction false} LastOfKindNone(ps: seq<Parameter>, key: string, k: Kind)
    ensures LastOfKind(ps, key, k).None? <==> forall i :: 0 <= i < |ps| ==> !Matches(ps[i], key, k)
  {
    if |ps| > 0 && !Matches(ps[|ps| - 1], key, k) {
      var init := ps[..|ps| - 1];
      LastOfKindNone(init, key, k);
      assert forall i :: 0 <= i < |init| ==> init[i] == ps[i];
    }
  }

  /** What LastOfKind finds is the value of a matching parameter that no
      later parameter matches. */
  lemma {:induction false} LastOfKindSome(ps: seq<Parameter>, key: string, k: Kind)
    requires LastOfKind(ps, key, k).Some?
    ensures HasKind(LastOfKind(ps, key, k).value, k)
    ensures exists i ::
      && 0 <= i < |ps|
      && ps[i] == Parameter(key, LastOfKind(ps, key, k).value)
      && (forall j :: i < j < |ps| ==> !Matches(ps[j], key, k))
  {
    var n := |ps| - 1;
    if Matches(ps[n], key, k) {
      assert ps[n] == Parameter(key, ps[n].value);
    } else {
      var init := ps[..n];
      LastOfKindSome(init, key, k);
      var i :| 0 <= i < |init| && init[i] == Parameter(key, LastOfKind(init, key, k).value) &&
        forall j :: i < j < |init| ==> !Matches(init[j], key, k);
      assert ps[i] == init[i];
      assert forall j :: i < j < n ==> ps[j] == init[j];
    }
  }

  function IntegerOr(v: Option<ParameterValue>, otherwise: int): int
  {
    if v.Some? && v.value.IntegerValue? then v.value.i else otherwise
  }

  function DoubleOr(v: Option<ParameterValue>, otherwise: real): real
  {
    if v.Some? && v.value.DoubleValue? then v.value.d else otherwise
  }

  function BoolOr(v: Option<ParameterValue>, otherwise: bool): bool
  {
    if v.Some? && v.value.BoolValue? then v.value.b else otherwise
  }

  /** Fully qualified parameter names with distinct suffixes are distinct. */
  lemma QualifiedNamesDiffer(prefix: string, a: string, b: string)
    requires a != b
    ensures prefix + a != prefix + b
  {
    assert (prefix + a)[|prefix|..] == a;
    assert (prefix + b)[|prefix|..] == b;
  }
}
