/**
 * The validation set: an ordered, append-only list of failures plus a mutable
 * summary message. Every check registered on it always runs and returns the
 * same set, so all violations are collected together; `ValidateAndThrow`
 * turns a non-empty list into one raised exception.
 */
module ValidationSets {
  import opened Wrappers
  import opened Predicates

  /**
   * The text of a failure. `Formatted(template, params)` stands for
   * `template.format(*params)`: the rendering itself is not modelled, so a
   * formatted message is kept as the free term built from its arguments.
   * `Literal` is a message handed to `AddError` as it is.
   */
  datatype Message =
    | Literal(text: string)
    | Formatted(template: string, params: seq<Value>)

  /** One recorded violation. */
  datatype ValidationError = ValidationError(message: Message)

  /** What `validate_and_throw` raises: the summary current at the time and every failure. */
  datatype ValidationException = ValidationException(message: Option<string>, failures: seq<ValidationError>)

  /**
   * Python truth value of a ValidationError instance. Its class is not part
   * of this model; it is assumed to define neither `__bool__` nor `__len__`,
   * so that every instance is true.
   */
  predicate ErrorIsTruthy(e: ValidationError)
  {
    true
  }

  /** Python's `any(xs)`, under the truth value `truthy` of the elements. */
  predicate Any<T>(xs: seq<T>, truthy: T -> bool)
  {
    xs != [] && (truthy(xs[0]) || Any(xs[1..], truthy))
  }

  /** When every element is true, `any` is plain non-emptiness. */
  lemma AnyOfTruthyElements<T>(xs: seq<T>, truthy: T -> bool)
    requires forall x :: truthy(x)
    ensures Any(xs, truthy) <==> xs != []
  {
  }

  /**
   * What one `add_validation(condition, template, *params)` appends: nothing
   * when the condition holds, otherwise exactly one failure formatted from
   * the template and parameters.
   */
  function Record(condition: bool, template: string, params: seq<Value>): (added: seq<ValidationError>)
    ensures |added| <= 1
    ensures added == [] <==> condition
    ensures !condition ==> added[0].message == Formatted(template, params)
  {
    if condition then [] else [ValidationError(Formatted(template, params))]
  }

  /** One check of a fluent chain: its outcome and the message it would record. */
  datatype Check = Check(condition: bool, template: string, params: seq<Value>)

  /** What one check of a chain records. */
  function RecordOf(c: Check): seq<ValidationError>
  {
    Record(c.condition, c.template, c.params)
  }

  /** The failures a chain of checks appends, in call order. */
  function Failures(checks: seq<Check>): (failures: seq<ValidationError>)
    ensures |failures| <= |checks|
  {
    if checks == [] then []
    else
      Failures(checks[..|checks| - 1]) + RecordOf(checks[|checks| - 1])
  }

  /** How many checks of a chain fail: occurrences of `false` among their outcomes. */
  function FailedCount(checks: seq<Check>): nat
  {
    multiset(seq(|checks|, i requires 0 <= i < |checks| => checks[i].condition))[false]
  }

  /** Registering one more check appends exactly what that check records. */
  lemma FailuresSnoc(checks: seq<Check>, c: Check)
    ensures Failures(checks + [c]) == Failures(checks) + RecordOf(c)
  {
    assert (checks + [c])[..|checks|] == checks;
  }

  /** Chaining is associative: the failures of a longer chain are those of its parts, in order. */
  lemma {:induction false} FailuresAppend(a: seq<Check>, b: seq<Check>)
    ensures Failures(a + b) == Failures(a) + Failures(b)
  {
    if b == [] {
      assert a + b == a;
    } else {
      var init := b[..|b| - 1];
      assert a + b == (a + init) + [b[|b| - 1]];
      FailuresAppend(a, init);
      FailuresSnoc(a + init, b[|b| - 1]);
    }
  }

  /** Fail-together: a chain records exactly one failure per failing check, never stopping early. */
  lemma {:induction false} FailuresCount(checks: seq<Check>)
    ensures |Failures(checks)| == FailedCount(checks)
  {
    if checks != [] {
      var init := checks[..|checks| - 1];
      FailuresCount(init);
      var all := seq(|checks|, i requires 0 <= i < |checks| => checks[i].condition);
      var initAll := seq(|init|, i requires 0 <= i < |init| => init[i].condition);
      assert all == initAll + [checks[|checks| - 1].condition];
    }
  }

  /** A chain records nothing exactly when every one of its checks passes. */
  lemma {:induction false} FailuresEmptyIffAllPass(checks: seq<Check>)
    ensures Failures(checks) == [] <==> forall i :: 0 <= i < |checks| ==> checks[i].condition
  {
    if checks != [] {
      var init := checks[..|checks| - 1];
      FailuresEmptyIffAllPass(init);
      assert forall i :: 0 <= i < |init| ==> init[i] == checks[i];
    }
  }

  /**
   * As written, every per-predicate wrapper calls
   * `self.add_validation(self, <predicate>, template, *params)`: the set itself
   * fills the condition slot and the predicate's result the template slot.
   * A ValidationSet defines neither `__bool__` nor `__len__`, so the condition
   * is always true and the wrapper records what `Record(true, ...)` does.
   * (In `add_is_defined_validation` the argument `isinstance(value, TEnum)`
   * raises TypeError first, a TypeVar not being a class.)
   */
  function WrapperRecordAsWritten(predicateResult: bool, template: string, params: seq<Value>): (added: seq<ValidationError>)
  {
    Record(SetIsTruthy, template, params)
  }

  /** Truth value of a ValidationSet instance. */
  const SetIsTruthy := true

  /** With the doubled `self`, a failing comparison is lost; delegating with the predicate records it. */
  lemma DoubledSelfDropsFailure(value: int, min: int, template: string, params: seq<Value>)
    requires !IsGreaterThan(value, min)
    ensures WrapperRecordAsWritten(IsGreaterThan(value, min), template, params) == []
    ensures Record(IsGreaterThan(value, min), template, params) == [ValidationError(Formatted(template, params))]
  {
  }

  /** An enum class: its name and the names of its members (aliases included). */
  datatype EnumClass = EnumClass(name: string, members: set<string>)

  /** `value` is a member of the enum class `enumType`. */
  predicate IsDefined(value: Value, enumType: EnumClass)
    ensures IsDefined(value, enumType) ==> IsNotNone(value) && IsNotEmpty(value)
  {
    value.Member? && value.enum == enumType.name && value.name in enumType.members
  }

  class ValidationSet {
    /** The failures recorded so far, in insertion order. */
    var errors: seq<ValidationError>
    /** The summary message carried by the exception. */
    var summary: Option<string>

    constructor (errorMessage: Option<string>)
      ensures errors == [] && summary == errorMessage
      ensures IsValid()
    {
      errors := [];
      summary := errorMessage;
    }

    /** `is_valid`: `not any(errors)`, which holds exactly when nothing was recorded. */
    predicate IsValid()
      reads this
      ensures IsValid() <==> errors == []
    {
      AnyOfTruthyElements(errors, ErrorIsTruthy);
      !Any(errors, ErrorIsTruthy)
    }

    /** Appends one failure with the literal message; no deduplication. */
    method AddError(message: Message)
      modifies this
      ensures errors == old(errors) + [ValidationError(message)]
      ensures summary == old(summary)
    {
      errors := errors + [ValidationError(message)];
    }

    /** Raises with the current summary and every failure when something was recorded. */
    method ValidateAndThrow() returns (outcome: Outcome<ValidationException>)
      ensures outcome.Pass? <==> errors == []
      ensures outcome.Fail? ==> outcome.error.message == summary && outcome.error.failures == errors
    {
      if !IsValid() {
        return Fail(ValidationException(summary, errors));
      }
      return Pass;
    }

    /** Replaces the summary only. */
    method SetErrorMessage(errorMessage: Option<string>) returns (chained: ValidationSet)
      modifies this
      ensures chained == this
      ensures summary == errorMessage && errors == old(errors)
    {
      summary := errorMessage;
      return this;
    }

    /** Records one failure formatted from the template exactly when `condition` is false. */
    method AddValidation(condition: bool, template: string, params: seq<Value>) returns (chained: ValidationSet)
      modifies this
      ensures chained == this && summary == old(summary)
      ensures condition ==> errors == old(errors)
      ensures !condition ==> errors == old(errors) + [ValidationError(Formatted(template, params))]
    {
      if !condition {
        AddError(Formatted(template, params));
      }
      return this;
    }

    /** `add_validation(condition(obj), ...)`. */
    method AddValidationWithCondition<T>(obj: T, condition: T -> bool, template: string, params: seq<Value>)
      returns (chained: ValidationSet)
      modifies this
      ensures chained == this && summary == old(summary)
      ensures errors == old(errors) + Record(condition(obj), template, params)
    {
      chained := AddValidation(condition(obj), template, params);
    }

    method AddGreaterThanValidation(value: int, min: int, template: string, params: seq<Value>)
      returns (chained: ValidationSet)
      modifies this
      ensures chained == this && summary == old(summary)
      ensures errors == old(errors) + Record(IsGreaterThan(value, min), template, params)
    {
      chained := AddValidation(IsGreaterThan(value, min), template, params);
    }

    method AddGreaterThanOrEqualToValidation(value: int, min: int, template: string, params: seq<Value>)
      returns (chained: ValidationSet)
      modifies this
      ensures chained == this && summary == old(summary)
      ensures errors == old(errors) + Record(IsGreaterThanOrEqualTo(value, min), template, params)
    {
      chained := AddValidation(IsGreaterThanOrEqualTo(value, min), template, params);
    }

    method AddLessThanValidation(value: int, end: int, template: string, params: seq<Value>)
      returns (chained: ValidationSet)
      modifies this
      ensures chained == this && summary == old(summary)
      ensures errors == old(errors) + Record(IsLessThan(value, end), template, params)
    {
      chained := AddValidation(IsLessThan(value, end), template, params);
    }

    method AddLessOrEqualToValidation(value: int, end: int, template: string, params: seq<Value>)
      returns (chained: ValidationSet)
      modifies this
      ensures chained == this && summary == old(summary)
      ensures errors == old(errors) + Record(IsLessOrEqualTo(value, end), template, params)
    {
      chained := AddValidation(IsLessOrEqualTo(value, end), template, params);
    }

    method AddBetweenValidation(value: int, start: int, end: int, template: string, params: seq<Value>)
      returns (chained: ValidationSet)
      modifies this
      ensures chained == this && summary == old(summary)
      ensures errors == old(errors) + Record(Between(value, start, end), template, params)
    {
      chained := AddValidation(Between(value, start, end), template, params);
    }

    method AddLengthBetweenValidation(value: string, start: int, end: int, template: string, params: seq<Value>)
      returns (chained: ValidationSet)
      modifies this
      ensures chained == this && summary == old(summary)
      ensures errors == old(errors) + Record(LengthBetween(value, start, end), template, params)
    {
      chained := AddValidation(LengthBetween(value, start, end), template, params);
    }

    method AddIsNotNoneValidation(obj: Value, template: string, params: seq<Value>)
      returns (chained: ValidationSet)
      modifies this
      ensures chained == this && summary == old(summary)
      ensures errors == old(errors) + Record(IsNotNone(obj), template, params)
    {
      chained := AddValidation(IsNotNone(obj), template, params);
    }

    method AddIsNotEmptyValidation(value: Value, template: string, params: seq<Value>)
      returns (chained: ValidationSet)
      modifies this
      ensures chained == this && summary == old(summary)
      ensures errors == old(errors) + Record(IsNotEmpty(value), template, params)
    {
      chained := AddValidation(IsNotEmpty(value), template, params);
    }

    method AddIsNotEmptyOrWhitespaceValidation(value: Value, template: string, params: seq<Value>)
      returns (chained: ValidationSet)
      requires value.NoneValue? || value.Str?
      modifies this
      ensures chained == this && summary == old(summary)
      ensures errors == old(errors) + Record(IsNotEmptyOrWhiteSpace(value), template, params)
    {
      chained := AddValidation(IsNotEmptyOrWhiteSpace(value), template, params);
    }

    /** Records a failure unless `value` is a member of its declared enum type `enumType`. */
    method AddIsDefinedValidation(value: Value, enumType: EnumClass, template: string, params: seq<Value>)
      returns (chained: ValidationSet)
      modifies this
      ensures chained == this && summary == old(summary)
      ensures errors == old(errors) + Record(IsDefined(value, enumType), template, params)
    {
      chained := AddValidation(IsDefined(value, enumType), template, params);
    }

    /** Looks `stringValue` up among the member names of `enumClass`; a miss records one failure. */
    method AddIsParsedValidation(stringValue: string, enumClass: EnumClass, template: string, params: seq<Value>)
      returns (chained: ValidationSet)
      modifies this
      ensures chained == this && summary == old(summary)
      ensures stringValue in enumClass.members ==> errors == old(errors)
      ensures stringValue !in enumClass.members ==>
                errors == old(errors) + [ValidationError(Formatted(template, params))]
    {
      if stringValue !in enumClass.members {
        AddError(Formatted(template, params));
      }
      return this;
    }
  }
}
