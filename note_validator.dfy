/**
 * Names the note validators take from modules that are not part of this
 * model (note parameters, message resources, the NoteType enum). Their values
 * are not known here, so they are declared without one.
 */
module NoteResources {
  import opened ValidationSets

  /** `note_parameters.MIN_VALUE`: the smallest accepted note value. */
  const MIN_VALUE: int

  /** Message templates of `validation_error_messages`. */
  const INVALID_PARAMETERS_FOR_CREATING_THE_ENTITY: string
  const INVALID_PARAMETERS_FOR_UPDATING_THE_ENTITY: string
  const ERROR_NONE_PARAMETER: string
  const ERROR_EMPTY_PARAMETER: string
  const ERROR_GREATER_THAN_OR_EQUAL_PARAMETER: string
  const ERROR_UNDEFINED_VALUE_FOR_ENUM: string

  /** The member names of the NoteType enum. */
  const NOTE_TYPE_MEMBERS: set<string>

  /** The NoteType enum class. */
  const NOTE_TYPE := EnumClass("NoteType", NOTE_TYPE_MEMBERS)

  /** `__name__` of the metaclass of every enum class (Python 3.11 and later). */
  const ENUM_METACLASS_NAME := "EnumType"
}

/** The validators run before a note is created or updated. */
module NoteValidator {
  import opened Wrappers
  import opened Predicates
  import opened ValidationSets
  import opened NoteResources

  /** A note as the validators read it; every field may hold any runtime value, None included. */
  datatype Note = Note(id: Value, value: Value, noteType: Value, accountId: Value)

  /** The exception Python raises when comparing values of unrelated types (`None >= 0`). */
  datatype PyError = TypeError

  /** Parameters of the undefined-enum message: the offending value and the enum's name. */
  function UndefinedEnumParams(noteType: Value): seq<Value>
  {
    [noteType, Str(NOTE_TYPE.name)]
  }

  /** As written, the second parameter is `type(NoteType).__name__`, the metaclass's name. */
  function UndefinedEnumParamsAsWritten(noteType: Value): seq<Value>
  {
    [noteType, Str(ENUM_METACLASS_NAME)]
  }

  /** The message as written names the metaclass; the intended one names NoteType. */
  lemma EnumParamNamesMetaclass(noteType: Value)
    ensures UndefinedEnumParams(noteType)[1] == Str("NoteType")
    ensures UndefinedEnumParamsAsWritten(noteType)[1] == Str("EnumType")
    ensures UndefinedEnumParamsAsWritten(noteType) != UndefinedEnumParams(noteType)
  {
    assert UndefinedEnumParamsAsWritten(noteType)[1] != UndefinedEnumParams(noteType)[1];
  }

  /**
   * The eight checks of the create validator, in call order: `value` none,
   * empty and at least MIN_VALUE; `note_type` none, empty and defined;
   * `account_id` none and empty. Only defined when `value` is a number: the
   * comparison raises otherwise.
   */
  function CreateChecks(note: Note): (checks: seq<Check>)
    requires note.value.Num?
    ensures |checks| == 8
    ensures checks[0].condition  // a value that reaches the comparison is never None
  {
    [ Check(IsNotNone(note.value), ERROR_NONE_PARAMETER, [Str("value")]),
      Check(IsNotEmpty(note.value), ERROR_EMPTY_PARAMETER, [Str("value")]),
      Check(IsGreaterThanOrEqualTo(note.value.n, MIN_VALUE), ERROR_GREATER_THAN_OR_EQUAL_PARAMETER,
            [Str("value"), Num(MIN_VALUE)]),
      Check(IsNotNone(note.noteType), ERROR_NONE_PARAMETER, [Str("note_type")]),
      Check(IsNotEmpty(note.noteType), ERROR_EMPTY_PARAMETER, [Str("note_type")]),
      Check(IsDefined(note.noteType, NOTE_TYPE), ERROR_UNDEFINED_VALUE_FOR_ENUM,
            UndefinedEnumParams(note.noteType)),
      Check(IsNotNone(note.accountId), ERROR_NONE_PARAMETER, [Str("account_id")]),
      Check(IsNotEmpty(note.accountId), ERROR_EMPTY_PARAMETER, [Str("account_id")]) ]
  }

  /** The failures of the create chain, check by check in call order. */
  lemma CreateFailuresInCallOrder(note: Note)
    requires note.value.Num?
    ensures var c := CreateChecks(note);
            Failures(c) == RecordOf(c[0]) + RecordOf(c[1]) + RecordOf(c[2]) + RecordOf(c[3]) +
                           RecordOf(c[4]) + RecordOf(c[5]) + RecordOf(c[6]) + RecordOf(c[7])
  {
    var c := CreateChecks(note);
    var done := [];
    FailuresSnoc(done, c[0]); done := done + [c[0]];
    FailuresSnoc(done, c[1]); done := done + [c[1]];
    FailuresSnoc(done, c[2]); done := done + [c[2]];
    FailuresSnoc(done, c[3]); done := done + [c[3]];
    FailuresSnoc(done, c[4]); done := done + [c[4]];
    FailuresSnoc(done, c[5]); done := done + [c[5]];
    FailuresSnoc(done, c[6]); done := done + [c[6]];
    FailuresSnoc(done, c[7]); done := done + [c[7]];
    assert done == c;
  }

  /** The two identifier checks the update validator appends. */
  function IdChecks(note: Note): (checks: seq<Check>)
    ensures |checks| == 2
    ensures checks[1].condition ==> checks[0].condition  // a non-empty id is present
  {
    [ Check(IsNotNone(note.id), ERROR_NONE_PARAMETER, [Str("id")]),
      Check(IsNotEmpty(note.id), ERROR_EMPTY_PARAMETER, [Str("id")]) ]
  }

  /**
   * Builds the create set by one fluent chain on a fresh set. A `value` that
   * is not a number makes the third check raise TypeError, so a missing value
   * never reaches the caller as a validation failure.
   */
  method ValidateToCreateNote(note: Note) returns (r: Result<ValidationSet, PyError>)
    ensures r.Failure? <==> !note.value.Num?
    ensures r.Success? ==> fresh(r.value)
    ensures r.Success? ==> r.value.summary == Some(INVALID_PARAMETERS_FOR_CREATING_THE_ENTITY)
    ensures r.Success? ==> r.value.errors == Failures(CreateChecks(note))
  {
    var validationSet := new ValidationSet(Some(INVALID_PARAMETERS_FOR_CREATING_THE_ENTITY));
    var chained := validationSet.AddIsNotNoneValidation(note.value, ERROR_NONE_PARAMETER, [Str("value")]);
    chained := chained.AddIsNotEmptyValidation(note.value, ERROR_EMPTY_PARAMETER, [Str("value")]);
    if !note.value.Num? {
      return Failure(TypeError);
    }
    chained := chained.AddGreaterThanOrEqualToValidation(note.value.n, MIN_VALUE,
      ERROR_GREATER_THAN_OR_EQUAL_PARAMETER, [Str("value"), Num(MIN_VALUE)]);
    chained := chained.AddIsNotNoneValidation(note.noteType, ERROR_NONE_PARAMETER, [Str("note_type")]);
    chained := chained.AddIsNotEmptyValidation(note.noteType, ERROR_EMPTY_PARAMETER, [Str("note_type")]);
    chained := chained.AddIsDefinedValidation(note.noteType, NOTE_TYPE, ERROR_UNDEFINED_VALUE_FOR_ENUM,
      UndefinedEnumParams(note.noteType));
    chained := chained.AddIsNotNoneValidation(note.accountId, ERROR_NONE_PARAMETER, [Str("account_id")]);
    chained := chained.AddIsNotEmptyValidation(note.accountId, ERROR_EMPTY_PARAMETER, [Str("account_id")]);
    CreateFailuresInCallOrder(note);
    return Success(validationSet);
  }

  /**
   * Reuses the create set, replaces its summary, then appends the two `id`
   * checks after the create failures.
   */
  method ValidateToUpdateNote(note: Note) returns (r: Result<ValidationSet, PyError>)
    ensures r.Failure? <==> !note.value.Num?
    ensures r.Success? ==> fresh(r.value)
    ensures r.Success? ==> r.value.summary == Some(INVALID_PARAMETERS_FOR_UPDATING_THE_ENTITY)
    ensures r.Success? ==> r.value.errors == Failures(CreateChecks(note)) + Failures(IdChecks(note))
    ensures r.Success? ==> r.value.errors == Failures(CreateChecks(note) + IdChecks(note))
  {
    var created := ValidateToCreateNote(note);
    if created.Failure? {
      return Failure(created.error);
    }
    var validationSet := created.value;
    var chained := validationSet.SetErrorMessage(Some(INVALID_PARAMETERS_FOR_UPDATING_THE_ENTITY));
    chained := chained.AddIsNotNoneValidation(note.id, ERROR_NONE_PARAMETER, [Str("id")]);
    chained := chained.AddIsNotEmptyValidation(note.id, ERROR_EMPTY_PARAMETER, [Str("id")]);
    IdFailuresInCallOrder(note);
    FailuresAppend(CreateChecks(note), IdChecks(note));
    return Success(validationSet);
  }

  /** The failures of the identifier checks, in call order. */
  lemma IdFailuresInCallOrder(note: Note)
    ensures Failures(IdChecks(note)) == RecordOf(IdChecks(note)[0]) + RecordOf(IdChecks(note)[1])
  {
    var c := IdChecks(note);
    assert Failures([c[0]]) == RecordOf(c[0]) by {
      FailuresSnoc([], c[0]);
      assert [] + [c[0]] == [c[0]];
    }
    assert [c[0]] + [c[1]] == c;
    FailuresSnoc([c[0]], c[1]);
  }

  /**
   * A note passes the create checks exactly when its value is a non-zero
   * number of at least MIN_VALUE, its type is a NoteType member and its
   * account id is present and non-empty.
   */
  lemma CreateValidIff(note: Note)
    requires note.value.Num?
    ensures Failures(CreateChecks(note)) == [] <==>
              note.value.n >= MIN_VALUE && note.value.n != 0 &&
              IsDefined(note.noteType, NOTE_TYPE) &&
              note.accountId != NoneValue && IsNotEmpty(note.accountId)
  {
    var c := CreateChecks(note);
    FailuresEmptyIffAllPass(c);
    assert (forall i :: 0 <= i < |c| ==> c[i].condition) <==>
           c[0].condition && c[1].condition && c[2].condition && c[3].condition &&
           c[4].condition && c[5].condition && c[6].condition && c[7].condition;
  }

  /** A value below MIN_VALUE is reported with the value's name and the minimum. */
  lemma ValueBelowMinimumReported(note: Note)
    requires note.value.Num? && note.value.n < MIN_VALUE
    ensures ValidationError(Formatted(ERROR_GREATER_THAN_OR_EQUAL_PARAMETER, [Str("value"), Num(MIN_VALUE)]))
            in Failures(CreateChecks(note))
  {
    CreateFailuresInCallOrder(note);
  }

  /** A zero value is reported as empty, being false in Python: the first create failure. */
  lemma ZeroValueReportedEmpty(note: Note)
    requires note.value == Num(0)
    ensures Failures(CreateChecks(note)) != []
    ensures Failures(CreateChecks(note))[0] == ValidationError(Formatted(ERROR_EMPTY_PARAMETER, [Str("value")]))
  {
    CreateFailuresInCallOrder(note);
  }

  /** A missing account id yields two failures that end the create list: absent, then empty. */
  lemma MissingAccountIdReportedTwice(note: Note)
    requires note.value.Num? && note.accountId == NoneValue
    ensures var f := Failures(CreateChecks(note));
            |f| >= 2 &&
            f[|f| - 2..] == [ValidationError(Formatted(ERROR_NONE_PARAMETER, [Str("account_id")])),
                             ValidationError(Formatted(ERROR_EMPTY_PARAMETER, [Str("account_id")]))]
  {
    CreateFailuresInCallOrder(note);
    var c := CreateChecks(note);
    var f := Failures(c);
    var head := RecordOf(c[0]) + RecordOf(c[1]) + RecordOf(c[2]) + RecordOf(c[3]) +
                RecordOf(c[4]) + RecordOf(c[5]);
    assert f == head + RecordOf(c[6]) + RecordOf(c[7]);
    assert f[|f| - 2..] == RecordOf(c[6]) + RecordOf(c[7]);
  }

  /** The update checks add nothing exactly when the id is present and non-empty; a missing id adds two. */
  lemma IdChecksReport(note: Note)
    ensures Failures(IdChecks(note)) == [] <==> IsNotEmpty(note.id)
    ensures note.id == NoneValue ==>
              Failures(IdChecks(note)) == [ValidationError(Formatted(ERROR_NONE_PARAMETER, [Str("id")])),
                                           ValidationError(Formatted(ERROR_EMPTY_PARAMETER, [Str("id")]))]
  {
    IdFailuresInCallOrder(note);
  }
}
