/**
 * Workflow conditions (`evaluateConditions` / `evaluateCondition`).
 *
 * The conditions are not a boolean expression: they are read left to right,
 * and each one can end the evaluation on its own. An `OR` condition that holds
 * accepts at once; an `AND` condition, or one without a logic flag, that fails
 * rejects at once; anything else moves on, and reaching the end accepts.
 */
module Conditions {
  import opened Wrappers
  import opened Json

  datatype Operator =
    | Equals | NotEquals | Contains | GreaterThan | LessThan | In | NotIn
    | UnknownOperator(name: string)

  /** The logic flag: `AND`, `OR`, absent (or any falsy value), or some other string. */
  datatype Logic = And | Or | Absent | OtherLogic(flag: string)

  datatype Condition = Condition(field: string, op: Operator, value: Json, logic: Logic)

  /** `Array.isArray(list) && list.includes(v)`. */
  predicate ArrayIncludes(list: Json, v: Json) {
    list.Arr? && exists i :: 0 <= i < |list.items| && StrictEquals(list.items[i], v)
  }

  /** `Number(a) > Number(b)`; a comparison with NaN is false. */
  predicate NumericGreater(a: Json, b: Json) {
    match (ToNumber(a), ToNumber(b))
    case (Some(x), Some(y)) => x > y
    case _ => false
  }

  /** `evaluateCondition(fieldValue, operator, expectedValue)`. */
  function EvaluateCondition(fieldValue: Json, op: Operator, expected: Json): (r: bool)
    ensures op.UnknownOperator? ==> !r
    ensures (op.In? || op.NotIn?) && !expected.Arr? ==> !r
    ensures op.GreaterThan? ==>
      (r <==> ToNumber(fieldValue).Some? && ToNumber(expected).Some? && ToNumber(fieldValue).value > ToNumber(expected).value)
    ensures op.LessThan? ==>
      (r <==> ToNumber(fieldValue).Some? && ToNumber(expected).Some? && ToNumber(fieldValue).value < ToNumber(expected).value)
  {
    match op
    case Equals => LooseEquals(fieldValue, expected)
    case NotEquals => !LooseEquals(fieldValue, expected)
    case Contains => Includes(ToStr(fieldValue), ToStr(expected))
    case GreaterThan => NumericGreater(fieldValue, expected)
    case LessThan => NumericGreater(expected, fieldValue)
    case In => ArrayIncludes(expected, fieldValue)
    case NotIn => expected.Arr? && !ArrayIncludes(expected, fieldValue)
    case UnknownOperator(_) => false
  }

  /** Whether one condition's comparison holds against the trigger data. */
  predicate Holds(c: Condition, data: Json) {
    EvaluateCondition(GetNestedValue(data, c.field), c.op, c.value)
  }

  /** The condition ends the evaluation with true. */
  predicate Accepts(c: Condition, data: Json) {
    c.logic == Or && Holds(c, data)
  }

  /** The condition ends the evaluation with false. */
  predicate Rejects(c: Condition, data: Json) {
    (c.logic == And || c.logic == Absent) && !Holds(c, data)
  }

  /**
   * The conditions are met unless some condition rejects before any
   * condition has accepted.
   */
  ghost predicate ConditionsMet(conditions: seq<Condition>, data: Json)
    ensures conditions != [] && Accepts(conditions[0], data) ==> ConditionsMet(conditions, data)
    ensures conditions != [] && Rejects(conditions[0], data) ==> !ConditionsMet(conditions, data)
  {
    assert conditions != [] && Rejects(conditions[0], data) ==> StopsAt(conditions, 0, data);
    !exists k :: StopsAt(conditions, k, data)
  }

  /** Condition `k` rejects and none before it accepts: the evaluation returns false there. */
  ghost predicate StopsAt(conditions: seq<Condition>, k: int, data: Json) {
    0 <= k < |conditions| && Rejects(conditions[k], data)
    && forall j :: 0 <= j < k ==> !Accepts(conditions[j], data)
  }

  /** `evaluateConditions(conditions, data)`: the loop with its early returns. */
  method EvaluateConditions(conditions: seq<Condition>, data: Json) returns (met: bool)
    ensures met == ConditionsMet(conditions, data)
  {
    if |conditions| == 0 {
      return true;
    }
    for i := 0 to |conditions|
      invariant forall j :: 0 <= j < i ==> !Accepts(conditions[j], data) && !Rejects(conditions[j], data)
    {
      var condition := conditions[i];
      var fieldValue := GetNestedValue(data, condition.field);
      var result := EvaluateCondition(fieldValue, condition.op, condition.value);
      if condition.logic == Or && result {
        assert Accepts(conditions[i], data);
        assert forall k :: !StopsAt(conditions, k, data);
        return true;
      }
      if condition.logic == And && !result {
        assert StopsAt(conditions, i, data);
        return false;
      }
      if condition.logic == Absent && !result {
        assert StopsAt(conditions, i, data);
        return false;
      }
    }
    assert forall k :: !StopsAt(conditions, k, data);
    return true;
  }

  /** An empty condition list is met by any data. */
  lemma EmptyConditionsMet(data: Json)
    ensures ConditionsMet([], data)
  {
  }

  /** An `OR` condition never rejects, whatever its comparison gives. */
  lemma FailingOrNeverRejects(c: Condition, data: Json)
    requires c.logic == Or
    ensures !Rejects(c, data)
  {
  }

  /** Conditions that are all `OR` are always met, whatever their comparisons give. */
  lemma AllOrConditionsAlwaysMet(conditions: seq<Condition>, data: Json)
    requires forall i :: 0 <= i < |conditions| ==> conditions[i].logic == Or
    ensures ConditionsMet(conditions, data)
  {
  }

  /** Without `OR` flags, and with only `AND` or absent ones, the conditions are met exactly when every comparison holds. */
  lemma AndOnlyIsConjunction(conditions: seq<Condition>, data: Json)
    requires forall i :: 0 <= i < |conditions| ==> conditions[i].logic == And || conditions[i].logic == Absent
    ensures ConditionsMet(conditions, data) <==> forall i :: 0 <= i < |conditions| ==> Holds(conditions[i], data)
  {
    if !forall i :: 0 <= i < |conditions| ==> Holds(conditions[i], data) {
      var k :| 0 <= k < |conditions| && !Holds(conditions[k], data);
      assert StopsAt(conditions, k, data);
    }
  }

  /** Behind a condition that does not accept, the evaluation stops one position later. */
  lemma StopsAtShift(c: Condition, rest: seq<Condition>, k: nat, data: Json)
    requires !Accepts(c, data)
    ensures StopsAt([c] + rest, k + 1, data) <==> StopsAt(rest, k, data)
  {
    var all := [c] + rest;
    assert forall j :: 0 <= j < |rest| ==> all[j + 1] == rest[j];
    if StopsAt(rest, k, data) {
      forall j | 0 <= j < k + 1 ensures !Accepts(all[j], data) {
        if j > 0 { assert all[j] == rest[j - 1]; }
      }
    }
    if StopsAt(all, k + 1, data) {
      forall j | 0 <= j < k ensures !Accepts(rest[j], data) {
        assert all[j + 1] == rest[j];
      }
    }
  }

  /** Prepending a condition that neither accepts nor rejects does not change the verdict. */
  lemma PassingConditionIsNeutral(c: Condition, rest: seq<Condition>, data: Json)
    requires !Accepts(c, data) && !Rejects(c, data)
    ensures ConditionsMet([c] + rest, data) == ConditionsMet(rest, data)
  {
    if !ConditionsMet(rest, data) {
      var k :| StopsAt(rest, k, data);
      StopsAtShift(c, rest, k, data);
    }
    if !ConditionsMet([c] + rest, data) {
      var k :| StopsAt([c] + rest, k, data);
      assert k != 0;
      StopsAtShift(c, rest, k - 1, data);
    }
  }

  /** `in` and `not_in` are both false when the expected value is not an array: `not_in` is not the complement of `in`. */
  lemma InAndNotInBothFalseWithoutArray(fieldValue: Json, expected: Json)
    requires !expected.Arr?
    ensures !EvaluateCondition(fieldValue, In, expected) && !EvaluateCondition(fieldValue, NotIn, expected)
  {
  }

  /** On an array, `not_in` is the complement of `in`. */
  lemma NotInComplementsInOnArrays(fieldValue: Json, expected: Json)
    requires expected.Arr?
    ensures EvaluateCondition(fieldValue, NotIn, expected) == !EvaluateCondition(fieldValue, In, expected)
  {
  }

  /** `greater_than` and `less_than` are strict: no value is greater or less than itself. */
  lemma ComparisonsAreStrict(v: Json)
    ensures !EvaluateCondition(v, GreaterThan, v) && !EvaluateCondition(v, LessThan, v)
  {
  }

  /** `greater_than` is `less_than` with the operands swapped. */
  lemma GreaterIsSwappedLess(a: Json, b: Json)
    ensures EvaluateCondition(a, GreaterThan, b) == EvaluateCondition(b, LessThan, a)
  {
  }

  /** The amount example: 1500 > 1000 holds and 500 > 1000 does not. */
  lemma AmountExample()
    ensures Holds(Condition("amount", GreaterThan, Num(1000), Absent), Obj(map["amount" := Num(1500)]))
    ensures !Holds(Condition("amount", GreaterThan, Num(1000), Absent), Obj(map["amount" := Num(500)]))
  {
    SplitWithoutSeparator("amount", '.');
  }

  /**
   * The mixed example: `a equals 1` (no flag) holds and
   * `b equals 2` (OR) fails against `{a: 1, b: 99}`; neither ends the
   * evaluation, so the conditions are met.
   */
  lemma MixedFlagsExample()
    ensures ConditionsMet([Condition("a", Equals, Num(1), Absent), Condition("b", Equals, Num(2), Or)],
                          Obj(map["a" := Num(1), "b" := Num(99)]))
  {
    var data := Obj(map["a" := Num(1), "b" := Num(99)]);
    var c1 := Condition("a", Equals, Num(1), Absent);
    var c2 := Condition("b", Equals, Num(2), Or);
    SplitWithoutSeparator("a", '.');
    SplitWithoutSeparator("b", '.');
    assert Holds(c1, data);
    assert !Holds(c2, data);
    PassingConditionIsNeutral(c2, [], data);
    PassingConditionIsNeutral(c1, [c2], data);
    assert [c1] + [c2] == [c1, c2];
    assert [c2] + [] == [c2];
  }
}
