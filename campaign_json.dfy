/**
  The campaign record handed over by the JSON parser. Each member is either
  absent, present with a value the org.json getter accepts, or present with a
  value that getter rejects (`getInt` on a non-number, `getJSONObject` on a
  non-object, and so on).
 */
module CampaignJson {
  import opened Wrappers

  datatype Field<+T> = Absent | Malformed | Present(value: T)

  /** The `rules` object of a campaign. */
  datatype RulesData = RulesData(
    displayOrder: Field<string>,
    dismissAfterViews: Field<int>,
    delayFirstMessage: Field<int>,
    minDelayBetweenMessages: Field<int>)

  /**
    A campaign record. `messageCenter` is what `optBoolean` reads (None when the
    member is missing or is a value `optBoolean` cannot read as a boolean; the
    strings "true" and "false" in any case are read as booleans); `subject` is
    None when the member is missing or JSON null.
   */
  datatype CampaignData = CampaignData(
    id: Field<int>,
    messageCenter: Option<bool>,
    subject: Option<string>,
    triggers: Field<seq<string>>,
    rules: Field<RulesData>,
    startDate: Field<int>,
    endDate: Field<int>)

  /** The two ways a required getter throws `JSONException`. */
  datatype JsonError = NotFound(key: string) | TypeMismatch(key: string)

  /** A required getter (`getInt`, `getLong`, `getString`, `getJSONArray`, `getJSONObject`). */
  function Get<T>(f: Field<T>, key: string): (r: Result<T, JsonError>)
    ensures r.Success? <==> f.Present?
    ensures r.Success? ==> r.value == f.value
    ensures f.Absent? ==> r == Failure(NotFound(key))
    ensures f.Malformed? ==> r == Failure(TypeMismatch(key))
  {
    match f
    case Absent => Failure(NotFound(key))
    case Malformed => Failure(TypeMismatch(key))
    case Present(v) => Success(v)
  }

  /** `has(key) ? getInt(key) : none`: an absent member is no error, a malformed one is. */
  function GetIfPresent<T>(f: Field<T>, key: string): (r: Result<Option<T>, JsonError>)
    ensures r.Failure? <==> f.Malformed?
    ensures f.Absent? ==> r == Success(None)
    ensures f.Present? ==> r == Success(Some(f.value))
    ensures f.Malformed? ==> r == Failure(TypeMismatch(key))
  {
    match f
    case Absent => Success(None)
    case Malformed => Failure(TypeMismatch(key))
    case Present(v) => Success(Some(v))
  }
}
