/**
 * The predicate library of the validations package: total boolean checks over
 * ordered values, string lengths, presence and emptiness.
 *
 * The library is written against Python's dynamic values. Comparisons are
 * modelled over `int`; presence and emptiness over `Value`, a closed set of the
 * runtime values the validators hand to these checks.
 */
module Predicates {

  /** A runtime value as the validators see it. */
  datatype Value =
    | NoneValue                           // Python's None
    | Str(s: string)                      // a str
    | Num(n: int)                         // an int or float (modelled as int)
    | Member(enum: string, name: string)  // a member `name` of the enum class named `enum`
    | Uuid(bits: nat)                     // a uuid.UUID

  /**
   * Python's truth value `bool(v)`: None, the empty string and zero are false;
   * enum members and UUIDs define neither `__bool__` nor `__len__` and are true.
   */
  predicate Truthy(v: Value)
  {
    match v
    case NoneValue => false
    case Str(s) => s != []
    case Num(n) => n != 0
    case Member(_, _) => true
    case Uuid(_) => true
  }

  /** Characters for which Python's `str.isspace` holds. */
  predicate IsWhiteSpaceChar(c: char)
  {
    c in {' ', '\t', '\n', '\r', '\U{0B}', '\U{0C}', '\U{1C}', '\U{1D}', '\U{1E}', '\U{1F}',
          '\U{85}', '\U{A0}', '\U{1680}', '\U{2028}', '\U{2029}', '\U{202F}', '\U{205F}', '\U{3000}'}
    || ('\U{2000}' <= c <= '\U{200A}')
  }

  /** Python's `s.isspace()`: the string is non-empty and every character is white space. */
  predicate IsSpace(s: string)
  {
    |s| > 0 && forall i :: 0 <= i < |s| ==> IsWhiteSpaceChar(s[i])
  }

  /** `value <= end`: inclusive, so it admits `end` itself besides the values strictly below it. */
  predicate IsLessOrEqualTo(value: int, end: int)
    ensures IsLessOrEqualTo(value, end) <==> value < end || value == end
  {
    value <= end
  }

  /** `value >= start`: the converse of `IsLessOrEqualTo`. */
  predicate IsGreaterThanOrEqualTo(value: int, start: int)
    ensures IsGreaterThanOrEqualTo(value, start) <==> IsLessOrEqualTo(start, value)
  {
    value >= start
  }

  /** `value > min`: strict, the complement of `IsLessOrEqualTo`. */
  predicate IsGreaterThan(value: int, min: int)
    ensures IsGreaterThan(value, min) <==> !IsLessOrEqualTo(value, min)
  {
    value > min
  }

  /** `value < end`: strict, the complement of `IsGreaterThanOrEqualTo`. */
  predicate IsLessThan(value: int, end: int)
    ensures IsLessThan(value, end) <==> !IsGreaterThanOrEqualTo(value, end)
  {
    value < end
  }

  /** `start <= value <= end`: inclusive at both ends. */
  predicate Between(value: int, start: int, end: int)
    ensures Between(value, start, end) <==>
            IsGreaterThanOrEqualTo(value, start) && IsLessOrEqualTo(value, end)
  {
    start <= value <= end
  }

  /** `start <= len(value) <= end`, length counted in characters. */
  predicate LengthBetween(value: string, start: int, end: int)
    ensures LengthBetween(value, start, end) <==> Between(|value|, start, end)
  {
    start <= |value| <= end
  }

  /** `obj is not None`; an absent value is also empty. */
  predicate IsNotNone(obj: Value)
    ensures !IsNotNone(obj) ==> !IsNotEmpty(obj)
  {
    !obj.NoneValue?
  }

  /** `bool(value)`: applied by the validators to strings and non-strings alike. */
  predicate IsNotEmpty(value: Value)
    ensures value.NoneValue? ==> !IsNotEmpty(value)
    ensures value.Str? ==> (IsNotEmpty(value) <==> |value.s| > 0)
  {
    Truthy(value)
  }

  /**
   * `bool(value and not value.isspace())`. Declared for strings (None
   * included): `isspace` does not exist on the other values.
   */
  predicate IsNotEmptyOrWhiteSpace(value: Value)
    requires value.NoneValue? || value.Str?
    ensures IsNotEmptyOrWhiteSpace(value) ==> IsNotEmpty(value)
    ensures value.Str? ==> (IsNotEmptyOrWhiteSpace(value) <==>
                            exists i :: 0 <= i < |value.s| && !IsWhiteSpaceChar(value.s[i]))
  {
    Truthy(value) && !IsSpace(value.s)
  }

  // ----- Boundary behaviour of the comparisons -----

  lemma ComparisonsAtEquality(x: int)
    ensures !IsGreaterThan(x, x) && IsGreaterThanOrEqualTo(x, x)
    ensures !IsLessThan(x, x) && IsLessOrEqualTo(x, x)
  {
  }

  lemma BetweenAcceptsEndpoints(start: int, end: int)
    requires start <= end
    ensures Between(start, start, end) && Between(end, start, end)
  {
  }

  lemma BetweenEmptyRange(value: int, start: int, end: int)
    requires start > end
    ensures !Between(value, start, end)
  {
  }

  lemma LengthBetweenExamples()
    ensures LengthBetween("", 0, 0)
    ensures !LengthBetween("ab", 1, 1)
  {
  }

  // ----- Presence and emptiness -----

  lemma IsNotNoneIffPresent(obj: Value)
    ensures IsNotNone(obj) <==> obj != NoneValue
  {
  }

  /** Emptiness follows Python's truthiness, on strings and on the other values. */
  lemma EmptinessIsTruthiness(s: string, n: int, e: string, m: string, u: nat)
    ensures !IsNotEmpty(NoneValue) && !IsNotEmpty(Str(""))
    ensures IsNotEmpty(Str(s)) <==> |s| > 0
    ensures IsNotEmpty(Num(n)) <==> n != 0
    ensures IsNotEmpty(Member(e, m)) && IsNotEmpty(Uuid(u))
  {
  }

  /** A string made only of white space is rejected, however long. */
  lemma WhiteSpaceOnlyRejected(s: string)
    requires forall i :: 0 <= i < |s| ==> IsWhiteSpaceChar(s[i])
    ensures !IsNotEmptyOrWhiteSpace(Str(s))
  {
  }

  lemma WhiteSpaceExamples()
    ensures !IsNotEmptyOrWhiteSpace(NoneValue)
    ensures !IsNotEmptyOrWhiteSpace(Str(""))
    ensures !IsNotEmptyOrWhiteSpace(Str("   "))
    ensures IsNotEmptyOrWhiteSpace(Str(" a "))
  {
    assert !IsWhiteSpaceChar(" a "[1]);
  }
}
