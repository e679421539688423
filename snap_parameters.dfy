/**
 * The parameter dictionary every snap variant is built from, and the early
 * check `test_parameters` runs on it against the variant's schema (the
 * allowed Python types per parameter name).  Dictionaries keep insertion
 * order, so both are association lists with distinct keys.
 */
module SnapParameters {
  import opened Optional
  import opened PyDict

  /** A parameter value, tagged with its exact Python type. */
  datatype Value = Int(i: int) | Float(f: real) | Str(s: string) | Bool(b: bool)

  datatype Kind = IntType | FloatType | StrType | BoolType

  /** Python's `type(value)`: a bool is a bool, not an int. */
  function KindOf(v: Value): Kind
  {
    match v
    case Int(_) => IntType
    case Float(_) => FloatType
    case Str(_) => StrType
    case Bool(_) => BoolType
  }

  /** The types a numeric parameter allows: `(float, int)`. */
  const Numeric: seq<Kind> := [FloatType, IntType]
  /** The types a location parameter allows: `(str,)`. */
  const Text: seq<Kind> := [StrType]

  type ParameterSet = Dict<Value>
  type Schema = Dict<seq<Kind>>

  /** The entry's value has one of the types the schema allows for its name. */
  predicate Allowed(schema: Schema, entry: (string, Value))
  {
    match Lookup(schema, entry.0)
    case Some(kinds) => KindOf(entry.1) in kinds
    case None => false
  }

  /** How `test_parameters` ends: normally, or with the first ParameterException it raises. */
  datatype Outcome = Passed | WrongCount | MissingKey(key: string) | WrongType(key: string)

  lemma SubsetOfEqualSize(a: set<string>, b: set<string>)
    requires a <= b && |a| == |b|
    ensures a == b
  {
    if x :| x in b && x !in a {
      assert a <= b - {x};
      assert |b - {x}| == |b| - 1;
      SubsetCard(a, b - {x});
      assert false;
    }
  }

  lemma {:induction false} SubsetCard(a: set<string>, b: set<string>)
    requires a <= b
    ensures |a| <= |b|
    decreases |b|
  {
    if a != b {
      var x :| x in b && x !in a;
      SubsetCard(a, b - {x});
    }
  }

  /**
   * `test_parameters`: the count must match the schema, every schema name must
   * be present (checked in schema order), and every value's exact type must be
   * allowed for its name (checked in the parameters' order).
   */
  method TestParameters(schema: Schema, parameters: ParameterSet) returns (outcome: Outcome)
    requires DistinctKeys(schema) && DistinctKeys(parameters)
    ensures outcome == WrongCount <==> |parameters| != |schema|
    ensures outcome.MissingKey? ==>
              |parameters| == |schema| && outcome.key !in Keys(parameters) &&
              exists i :: 0 <= i < |schema| && schema[i].0 == outcome.key &&
                forall j :: 0 <= j < i ==> schema[j].0 in Keys(parameters)
    ensures outcome.WrongType? ==>
              |parameters| == |schema| && Keys(parameters) == Keys(schema) &&
              exists i :: 0 <= i < |parameters| && parameters[i].0 == outcome.key &&
                !Allowed(schema, parameters[i]) &&
                forall j :: 0 <= j < i ==> Allowed(schema, parameters[j])
    ensures outcome == Passed <==>
              |parameters| == |schema| && Keys(parameters) == Keys(schema) &&
              forall i :: 0 <= i < |parameters| ==> Allowed(schema, parameters[i])
  {
    if |parameters| != |schema| {
      return WrongCount;
    }
    var n := 0;
    while n < |schema|
      invariant 0 <= n <= |schema|
      invariant forall j :: 0 <= j < n ==> schema[j].0 in Keys(parameters)
    {
      if Lookup(parameters, schema[n].0).None? {
        return MissingKey(schema[n].0);
      }
      n := n + 1;
    }
    assert Keys(schema) <= Keys(parameters);
    DistinctKeysCount(schema);
    DistinctKeysCount(parameters);
    SubsetOfEqualSize(Keys(schema), Keys(parameters));
    var m := 0;
    while m < |parameters|
      invariant 0 <= m <= |parameters|
      invariant forall j :: 0 <= j < m ==> Allowed(schema, parameters[j])
    {
      var (key, value) := parameters[m];
      var allowedTypes := Lookup(schema, key).value;
      if KindOf(value) !in allowedTypes {
        return WrongType(key);
      }
      m := m + 1;
    }
    return Passed;
  }
}
