# Validation sets for domain entities

This project models the validation framework of a small finance web API in Dafny. The framework has three parts:

- **Predicate library** (`Predicates`, `predicates.dfy`). Total boolean checks:
  - strict and inclusive comparisons;
  - inclusive `between` and `length_between`;
  - presence (`is_not_none`);
  - emptiness, which follows Python truthiness;
  - blank strings (`is_not_empty_or_white_space`).
- **Validation set** (`ValidationSets`, `validation_set.py` → `validation_set.dfy`). A class with two fields:
  - `errors`: an append-only, ordered list of failures;
  - `summary`: a mutable summary message.

  Every `Add…Validation` call always runs and returns the same set (`chained == this`). A chain of checks therefore collects every violation together instead of stopping at the first. `ValidateAndThrow` raises a single `ValidationException` when the list is non-empty. The exception carries the summary current at that moment and all of the failures. What a chain records is specified by two functions:
  - `Record(condition, template, params)`: the effect of one check;
  - `Failures(checks)`: the effect of a chain of checks.

  The lemmas relate `Failures` to an independent count of the failing checks (`FailedCount`) and to the concatenation of chains.
- **Note validators** (`NoteValidator`, `note_validator.dfy`).
  - `ValidateToCreateNote` runs a fixed chain of eight checks on a note.
  - `ValidateToUpdateNote` reuses that set, replaces its summary and appends two checks on `id`.

  Both methods are proved against the spec functions `CreateChecks` and `IdChecks`.

Python's dynamic values are modelled by `Predicates.Value`:
- `NoneValue`;
- strings;
- numbers (as `int`);
- enum members;
- UUIDs.

`Truthy` is Python's `bool()` on these values. `Wrappers` holds `Option`, `Outcome` (an operation passes or raises) and `Result`.

The message constants, `MIN_VALUE` and the member names of `NoteType` come from modules that are not part of this model. `NoteResources` declares them without values.

## Reading of the source

The source text has several defects. The model follows what the docstrings and the call sites evidently intend:
- **Doubled `self` in the wrappers.** Every per-predicate wrapper passes `self` twice. See `src/clean/sdk/validations/validation_set.py:54`, and also lines 70, 86, 102, 119, 136, 151, 166, 181, 196 and 252. The model delegates `add_validation(<predicate>, template, *params)`, as the docstrings describe. The as-written behaviour is kept beside it (see Findings).
- **Property/field name clash.** The properties `__error_message` and `__errors` (`validation_set.py:32-38`) share their names with the fields. The first failure comes at construction: the assignments at `validation_set.py:14-15` target properties with no setter, so they raise AttributeError. Only after that could the getters recurse. Both are modelled as plain fields.
- **Enum check against a TypeVar.** `isinstance(value, TEnum)` (`validation_set.py:196`) tests against a type variable. As written, that call raises TypeError before `add_validation` is even reached, so at this line the doubled `self` never comes into play. It is modelled as membership of the declared enum class, which `AddIsDefinedValidation` receives as an explicit `EnumClass` argument.
- **Missing return.** Neither validator returns its set.
  - In `validate_to_create_note`, lines 11-23 are a set-literal expression with no `return`. `validate_to_update_note` uses its result anyway (`note_validator.py:27-28`).
  - In `validate_to_update_note`, lines 30-34 are also a set literal, so `note.py:24` calls `.validate_and_throw()` on None.

  Both validators are modelled as returning the set.
- **Comparison with `None`.** The third create check compares `note.value >= MIN_VALUE`. If `value` is not a number, Python raises `TypeError` there, and the two failures already recorded are discarded with the set. Both validators therefore return `Result<ValidationSet, PyError>` and fail exactly when `value` is not a number. As a result, a missing `value` never reaches the caller as a validation failure.
- **Emptiness on non-string fields.** `add_is_not_empty_validation` is applied to the value, the note type and the ids (`note_validator.py:14, 18, 22, 33`). It is modelled as Python truthiness:
  - `None` and `0` are empty;
  - enum members and UUIDs are never empty.

  This is a likely latent defect: a note whose value is 0 is reported as having an empty value, even when 0 is at least `MIN_VALUE` (`NoteValidator.ZeroValueReportedEmpty`).

## Model

| member | source | states |
|---|---|---|
| `Predicates.IsLessOrEqualTo` | src/clean/sdk/validations/__init__.py:46-57 | inclusive `<=`: holds for `end` itself and for every value strictly below it |
| `Predicates.IsGreaterThanOrEqualTo` | src/clean/sdk/validations/__init__.py:18-29 | inclusive `>=`: the converse of `IsLessOrEqualTo` |
| `Predicates.IsGreaterThan` | src/clean/sdk/validations/__init__.py:4-15 | strict `>`; holds exactly when `IsLessOrEqualTo` does not |
| `Predicates.IsLessThan` | src/clean/sdk/validations/__init__.py:32-43 | strict `<`; holds exactly when `IsGreaterThanOrEqualTo` does not |
| `Predicates.ComparisonsAtEquality` | src/clean/sdk/validations/__init__.py:15-57 | at `value == bound` the strict comparisons are false and the inclusive ones are true |
| `Predicates.Between` | src/clean/sdk/validations/__init__.py:60-72 | inclusive range: the conjunction of `>= start` and `<= end` |
| `Predicates.BetweenAcceptsEndpoints` | src/clean/sdk/validations/__init__.py:72 | when `start <= end`, both endpoints are accepted |
| `Predicates.BetweenEmptyRange` | src/clean/sdk/validations/__init__.py:72 | when `start > end`, no value is between |
| `Predicates.LengthBetween` | src/clean/sdk/validations/__init__.py:75-87 | `Between` applied to the string's length |
| `Predicates.LengthBetweenExamples` | src/clean/sdk/validations/__init__.py:87 | `""` has length between 0 and 0; `"ab"` does not have length between 1 and 1 |
| `Predicates.IsNotNone` | src/clean/sdk/validations/__init__.py:90-100 | an absent value is also empty |
| `Predicates.IsNotNoneIffPresent` | src/clean/sdk/validations/__init__.py:100 | true exactly for values other than None |
| `Predicates.IsNotEmpty` | src/clean/sdk/validations/__init__.py:103-113 | None is empty; a string is non-empty exactly when its length is positive |
| `Predicates.EmptinessIsTruthiness` | src/clean/sdk/validations/__init__.py:103-113 | None, `""` and 0 are empty; non-empty strings, non-zero numbers, enum members and UUIDs are not |
| `Predicates.IsNotEmptyOrWhiteSpace` | src/clean/sdk/validations/__init__.py:116-126 | implies `IsNotEmpty`; for a string, holds exactly when some character is not white space |
| `Predicates.WhiteSpaceOnlyRejected` | src/clean/sdk/validations/__init__.py:126 | any string made only of white space is rejected |
| `Predicates.WhiteSpaceExamples` | src/clean/sdk/validations/__init__.py:116-126 | None, `""` and `"   "` are rejected; `" a "` is accepted |
| `ValidationSets.ValidationSet.constructor` | src/clean/sdk/validations/validation_set.py:13-15 | no failures, valid, summary equal to the argument |
| `ValidationSets.ValidationSet.AddError` | src/clean/sdk/validations/validation_set.py:17-18 | appends exactly one failure at the end, with no deduplication; summary unchanged |
| `ValidationSets.ValidationSet.ValidateAndThrow` | src/clean/sdk/validations/validation_set.py:20-22 | raises exactly when failures exist, carrying the current summary and the whole list; otherwise passes |
| `ValidationSets.ValidationSet.SetErrorMessage` | src/clean/sdk/validations/validation_set.py:24-26 | replaces only the summary; failures unchanged; returns the same set |
| `ValidationSets.ValidationSet.IsValid` | src/clean/sdk/validations/validation_set.py:28-30 | `not any(errors)` holds exactly when the failure list is empty |
| `ValidationSets.AnyOfTruthyElements` | src/clean/sdk/validations/validation_set.py:30 | over elements that are all true, `any` is non-emptiness |
| `ValidationSets.ValidationSet.AddValidation` | src/clean/sdk/validations/validation_set.py:220-236 | a true condition leaves the list unchanged; a false one appends exactly `Formatted(template, params)`; summary unchanged; returns the same set |
| `ValidationSets.ValidationSet.AddValidationWithCondition` | src/clean/sdk/validations/validation_set.py:238-252 | behaves as `AddValidation(condition(obj), …)` |
| `ValidationSets.ValidationSet.AddGreaterThanValidation` | src/clean/sdk/validations/validation_set.py:40-54 | behaves as `AddValidation(IsGreaterThan(value, min), …)` |
| `ValidationSets.ValidationSet.AddGreaterThanOrEqualToValidation` | src/clean/sdk/validations/validation_set.py:56-70 | behaves as `AddValidation(IsGreaterThanOrEqualTo(value, min), …)` |
| `ValidationSets.ValidationSet.AddLessThanValidation` | src/clean/sdk/validations/validation_set.py:72-86 | behaves as `AddValidation(IsLessThan(value, end), …)` |
| `ValidationSets.ValidationSet.AddLessOrEqualToValidation` | src/clean/sdk/validations/validation_set.py:88-102 | behaves as `AddValidation(IsLessOrEqualTo(value, end), …)` |
| `ValidationSets.ValidationSet.AddBetweenValidation` | src/clean/sdk/validations/validation_set.py:104-119 | behaves as `AddValidation(Between(value, start, end), …)` |
| `ValidationSets.ValidationSet.AddLengthBetweenValidation` | src/clean/sdk/validations/validation_set.py:121-136 | behaves as `AddValidation(LengthBetween(value, start, end), …)` |
| `ValidationSets.ValidationSet.AddIsNotNoneValidation` | src/clean/sdk/validations/validation_set.py:138-151 | behaves as `AddValidation(IsNotNone(obj), …)` |
| `ValidationSets.ValidationSet.AddIsNotEmptyValidation` | src/clean/sdk/validations/validation_set.py:153-166 | behaves as `AddValidation(IsNotEmpty(value), …)` |
| `ValidationSets.ValidationSet.AddIsNotEmptyOrWhitespaceValidation` | src/clean/sdk/validations/validation_set.py:168-181 | behaves as `AddValidation(IsNotEmptyOrWhiteSpace(value), …)` |
| `ValidationSets.IsDefined` | src/clean/sdk/validations/validation_set.py:196 | membership of the declared enum class; a defined value is present and non-empty |
| `ValidationSets.ValidationSet.AddIsDefinedValidation` | src/clean/sdk/validations/validation_set.py:183-196 | behaves as `AddValidation(value is a member of the declared enum, …)` |
| `ValidationSets.ValidationSet.AddIsParsedValidation` | src/clean/sdk/validations/validation_set.py:198-218 | appends exactly one failure when the string is not a member name of the enum, and none otherwise; returns the same set either way |
| `ValidationSets.Record` | src/clean/sdk/validations/validation_set.py:233-236 | one check adds at most one failure: none exactly when its condition holds, otherwise one carrying the formatted template |
| `ValidationSets.Failures` | src/clean/sdk/validations/validation_set.py:233-236 | a chain never records more failures than it has checks |
| `ValidationSets.FailuresSnoc` | src/clean/sdk/validations/validation_set.py:233-236 | registering one more check appends exactly its own record at the end |
| `ValidationSets.FailuresAppend` | src/clean/sdk/validations/validation_set.py:233-236 | chains compose: the failures of `a + b` are those of `a` followed by those of `b`, with no reordering |
| `ValidationSets.FailuresCount` | src/clean/sdk/validations/validation_set.py:233-236 | fail-together: a chain records exactly as many failures as it has failing checks |
| `ValidationSets.FailuresEmptyIffAllPass` | src/clean/sdk/validations/validation_set.py:233-236 | a chain records nothing exactly when every check passes |
| `ValidationSets.DoubledSelfDropsFailure` | src/clean/sdk/validations/validation_set.py:54 | with the doubled `self`, a failing comparison records nothing; with delegation it records one failure |
| `NoteValidator.CreateChecks` | src/domain/model/notes/note_validator.py:13-22 | exactly eight checks in source order; the `value` none-check always passes, because a value that is not a number raises at the comparison instead |
| `NoteValidator.IdChecks` | src/domain/model/notes/note_validator.py:31-33 | exactly two checks, none then empty; an id that passes the empty check also passes the none check |
| `NoteValidator.ValidateToCreateNote` | src/domain/model/notes/note_validator.py:8-23 | fresh set with the creating summary and the failures of the eight create checks; raises TypeError exactly when `value` is not a number |
| `NoteValidator.CreateFailuresInCallOrder` | src/domain/model/notes/note_validator.py:11-23 | the create failures are the records of the eight checks, in call order |
| `NoteValidator.ValidateToUpdateNote` | src/domain/model/notes/note_validator.py:26-33 | fresh set; the updating summary replaces the creating one; failures are the create failures followed by the two `id` checks' failures |
| `NoteValidator.IdFailuresInCallOrder` | src/domain/model/notes/note_validator.py:30-34 | the `id` failures are the none record followed by the empty record |
| `NoteValidator.CreateValidIff` | src/domain/model/notes/note_validator.py:13-22 | no create failure exactly when the value is a non-zero number at least `MIN_VALUE`, the type is a NoteType member and the account id is present and non-empty |
| `NoteValidator.ValueBelowMinimumReported` | src/domain/model/notes/note_validator.py:15 | a value below `MIN_VALUE` is reported from the greater-or-equal template with `("value", MIN_VALUE)` |
| `NoteValidator.ZeroValueReportedEmpty` | src/domain/model/notes/note_validator.py:14 | a zero value is reported as empty, and this is the first failure |
| `NoteValidator.MissingAccountIdReportedTwice` | src/domain/model/notes/note_validator.py:21-22 | a missing account id ends the list with the none failure followed by the empty failure |
| `NoteValidator.IdChecksReport` | src/domain/model/notes/note_validator.py:31-33 | the `id` checks add nothing exactly when the id is present and non-empty; a missing id adds the none failure and then the empty failure |
| `NoteValidator.EnumParamNamesMetaclass` | src/domain/model/notes/note_validator.py:19 | the as-written message parameter names the metaclass `EnumType`, not `NoteType` |

## Findings

| source | as written | input that shows it | evidently intended | confidence | as-written member | corrected member |
|---|---|---|---|---|---|---|
| src/clean/sdk/validations/validation_set.py:54 | each per-predicate wrapper calls `self.add_validation(self, <predicate>, template, *params)`, and so do lines 70, 86, 102, 119, 136, 151, 166, 181, 196 and 252; the set itself fills the condition slot and is always true (at line 196 the `isinstance` call against a TypeVar raises TypeError first) | `add_greater_than_validation(0, 1, t)` records nothing | `add_validation(<predicate>, template, *params)`, as each docstring says | high; not executed | `ValidationSets.WrapperRecordAsWritten` (shown by `ValidationSets.DoubledSelfDropsFailure`) | `ValidationSets.ValidationSet.AddGreaterThanValidation` and the other wrappers |
| src/domain/model/notes/note_validator.py:19 | the second message parameter is `type(NoteType).__name__`, the name of the enum metaclass | any note whose type is not a NoteType member: the message names `EnumType` | `NoteType.__name__`, that is `"NoteType"` | high; not executed | `NoteValidator.UndefinedEnumParamsAsWritten` (shown by `NoteValidator.EnumParamNamesMetaclass`) | `NoteValidator.UndefinedEnumParams` |

## Left out

- String rendering by `str.format` is not modelled.
  - A formatted failure is kept as the term `Formatted(template, params)`, so two failures are equal exactly when their templates and parameters are.
  - The IndexError that Python raises when a template has more placeholders than there are parameters is not modelled.
- Comparisons are modelled over `int` only. The source's TypeVar also admits strings and other ordered types.
- `Note.value` is a Python `float` and is modelled as `int`. Floating point is not modelled.
- The `ValidationError` class is not part of this model. A failure holds only its message, and every instance is taken to be true for `any`.
- `ValidationException` is folded into the value returned by `ValidateAndThrow`.
  - It copies the failure list instead of holding a reference to the set, so aliasing between the exception and a set that is changed later is not modelled.
  - Its name-mangled read of `__error_message` (`validation_exception.py:6`) is a Python runtime defect and is not modelled.
- `Predicates.IsNotEmptyOrWhiteSpace` requires a string or None, its declared type, and so does `ValidationSets.ValidationSet.AddIsNotEmptyOrWhitespaceValidation`. On a false non-string such as `0`, Python returns False. On a true non-string, Python raises AttributeError. Neither case is modelled.
- The white-space set is the fixed list of characters for which Python 3's `str.isspace` holds. It is not derived from the Unicode database.
- An exception raised by the callable passed to `add_validation_with_condition` is not modelled. The condition is a total function.
- Python runtime breakage is not modelled:
  - the circular imports at `validation_set.py:3-6`;
  - the recursive name-mangled properties.
- The entity base class `domain_entity.py`, the `Account` holder and the `Note` constructors in `note.py` are not part of this model. They only store fields, or call a validator and then `validate_and_throw`. `note.py` also declares two `__init__` methods, so the second shadows the first.
- The values of `MIN_VALUE`, of the message templates and of NoteType's member names are not part of this model. They are opaque constants in `NoteResources`.
