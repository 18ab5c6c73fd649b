/**
 * The persisted moderation record: its fields, the status enumeration and
 * the defaults the document schema fills in when a record is first saved.
 */
module Moderation {
  import opened Wrappers

  /** The moderation process status. */
  datatype Status = Pending | Failed | Completed

  /** The strings the schema admits for `status`, in declaration order. */
  const StatusValues: seq<string> := ["Pending", "Failed", "Completed"]

  function StatusName(s: Status): string {
    match s
    case Pending => "Pending"
    case Failed => "Failed"
    case Completed => "Completed"
  }

  /** Reads a stored status string; `None` when the enum validator rejects it. */
  function ParseStatus(name: string): (r: Option<Status>)
    ensures r.Some? <==> name == "Pending" || name == "Failed" || name == "Completed"
    ensures r.Some? ==> StatusName(r.value) == name
  {
    if name == "Pending" then Some(Pending)
    else if name == "Failed" then Some(Failed)
    else if name == "Completed" then Some(Completed)
    else None
  }

  /** Every status has a name in the enumeration, and that name reads back as it. */
  lemma StatusNameRoundTrip(s: Status)
    ensures StatusName(s) in StatusValues
    ensures ParseStatus(StatusName(s)) == Some(s)
  {
  }

  /** A schema-less value, as held by the three recognition result fields. */
  datatype Json =
    | JNull
    | JBool(b: bool)
    | JNumber(n: int)
    | JString(s: string)
    | JArray(items: seq<Json>)
    | JObject(fields: map<string, Json>)

  const EmptyObject: Json := JObject(map[])

  /** A stored moderation record; `createdAt` and `updatedAt` are the schema's timestamps. */
  datatype ModerationRecord = ModerationRecord(
    id: string,
    kycId: string,
    idRecogData: Json,
    faceRecogData: Json,
    faceLiveData: Json,
    errorLogs: seq<string>,
    status: Status,
    createdAt: int,
    updatedAt: int)

  /** The fields a caller supplies when creating a record; `None` is "not supplied". */
  datatype NewModeration = NewModeration(
    id: Option<string>,
    kycId: Option<string>,
    idRecogData: Option<Json>,
    faceRecogData: Option<Json>,
    faceLiveData: Option<Json>,
    errorLogs: Option<seq<string>>,
    status: Option<string>)

  /** One failed schema validator, named by the field path it guards. */
  datatype ValidationError = Required(path: string) | NotInEnum(path: string, value: string)

  /** The required check on a string field: it must be present and non-empty. */
  predicate PresentString(v: Option<string>) {
    v.Some? && v.value != ""
  }

  /** The validators that fail for an input, in schema field order. */
  function ValidationErrors(input: NewModeration): (errors: seq<ValidationError>)
    ensures Required("kycId") in errors <==> !PresentString(input.kycId)
    ensures forall v :: NotInEnum("status", v) in errors <==>
              input.status == Some(v) && ParseStatus(v).None?
    ensures forall e :: e in errors ==> e == Required("kycId") || e.NotInEnum?
    ensures errors == [] <==> PresentString(input.kycId) && (input.status.None? || ParseStatus(input.status.value).Some?)
  {
    (if PresentString(input.kycId) then [] else [Required("kycId")]) +
    (if input.status.Some? && ParseStatus(input.status.value).None? then [NotInEnum("status", input.status.value)] else [])
  }

  /**
   * Creating and first saving a record: `generatedId` is what the id
   * generator returns for the prefix "mod-" and `now` the save time. A
   * record is stored only when every validator passes; unsupplied fields
   * take their defaults and supplied ones are kept as given.
   */
  function CreateModeration(input: NewModeration, generatedId: string, now: int)
    : (r: Result<ModerationRecord, seq<ValidationError>>)
    ensures r.Ok? <==> PresentString(input.kycId) && (input.status.None? || input.status.value in StatusValues)
    ensures r.Err? ==> r.error != [] && r.error == ValidationErrors(input)
    ensures r.Ok? ==>
      && r.value.kycId == input.kycId.value
      && r.value.id == (if input.id.Some? then input.id.value else generatedId)
      && r.value.idRecogData == (if input.idRecogData.Some? then input.idRecogData.value else EmptyObject)
      && r.value.faceRecogData == (if input.faceRecogData.Some? then input.faceRecogData.value else EmptyObject)
      && r.value.faceLiveData == (if input.faceLiveData.Some? then input.faceLiveData.value else EmptyObject)
      && r.value.errorLogs == (if input.errorLogs.Some? then input.errorLogs.value else [])
      && StatusName(r.value.status) == (if input.status.Some? then input.status.value else "Pending")
      && r.value.createdAt == now && r.value.updatedAt == now
  {
    var errors := ValidationErrors(input);
    if errors != [] then Err(errors)
    else
      Ok(ModerationRecord(
        if input.id.Some? then input.id.value else generatedId,
        input.kycId.value,
        if input.idRecogData.Some? then input.idRecogData.value else EmptyObject,
        if input.faceRecogData.Some? then input.faceRecogData.value else EmptyObject,
        if input.faceLiveData.Some? then input.faceLiveData.value else EmptyObject,
        if input.errorLogs.Some? then input.errorLogs.value else [],
        if input.status.Some? then ParseStatus(input.status.value).value else Pending,
        now, now))
  }

  /** A record created from a KYC identifier alone carries every default. */
  lemma NewRecordDefaults(kycId: string, generatedId: string, now: int)
    requires kycId != ""
    ensures CreateModeration(NewModeration(None, Some(kycId), None, None, None, None, None), generatedId, now) ==
            Ok(ModerationRecord(generatedId, kycId, EmptyObject, EmptyObject, EmptyObject, [], Pending, now, now))
  {
  }

  /** Creating a record without a KYC identifier is refused, whatever else is supplied. */
  lemma KycIdRequired(input: NewModeration, generatedId: string, now: int)
    requires input.kycId.None?
    ensures CreateModeration(input, generatedId, now).Err?
    ensures Required("kycId") in CreateModeration(input, generatedId, now).error
  {
  }

  /** Every field of a record, supplied back as input. */
  function AsInput(m: ModerationRecord): NewModeration {
    NewModeration(Some(m.id), Some(m.kycId), Some(m.idRecogData), Some(m.faceRecogData),
                  Some(m.faceLiveData), Some(m.errorLogs), Some(StatusName(m.status)))
  }

  /**
   * Supplied fields are kept as given: supplying all of a valid record's
   * fields recreates it, whatever the id generator would have produced.
   */
  lemma CreateFromRecordKeepsIt(m: ModerationRecord, generatedId: string)
    requires m.kycId != "" && m.createdAt == m.updatedAt
    ensures CreateModeration(AsInput(m), generatedId, m.createdAt) == Ok(m)
  {
    StatusNameRoundTrip(m.status);
  }
}
