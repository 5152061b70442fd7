/**
 * The table of credential fields per company and the ordered checks a
 * credential submission goes through before anything is stored.
 */
module Validation {
  import opened Wrappers
  import Encryption
  import FirebaseStore

  type UserId = FirebaseStore.UserId

  /** For each supported bank or card company, the credential fields it needs, in order. */
  const CredentialFields: map<string, seq<string>> := map[
    "leumi" := ["username", "password"],
    "mizrahi" := ["username", "password"],
    "otsarHahayal" := ["username", "password"],
    "max" := ["username", "password"],
    "visaCal" := ["username", "password"],
    "union" := ["username", "password"],
    "beinleumi" := ["username", "password"],
    "massad" := ["username", "password"],
    "pagi" := ["username", "password"],
    "hapoalim" := ["userCode", "password"],
    "discount" := ["id", "password", "num"],
    "mercantile" := ["id", "password", "num"],
    "isracard" := ["id", "password", "card6Digits"],
    "amex" := ["id", "password", "card6Digits"],
    "yahav" := ["username", "password"],
    "beyahadBishvilha" := ["id", "password"],
    "behatsdaa" := ["id", "password"]
  ]

  /**
   * The members of a submission body the service reads. A body that is
   * missing or empty (`{}`) is `None`; a `Some` body whose members are all
   * `None` is a non-empty body with none of these keys.
   */
  datatype SubmitBody = SubmitBody(
    token: Option<string>,
    companyId: Option<string>,
    credentials: Option<Encryption.Credentials>,
    startDate: Option<string>,
    consent: Option<bool>)

  /** A string member counts as given when it is present and not empty. */
  predicate HasText(s: Option<string>) {
    s.Some? && s.value != ""
  }

  /** A credential field counts as given when it is present and not empty. */
  predicate Present(creds: Encryption.Credentials, field: string) {
    field in creds && creds[field] != ""
  }

  datatype Rejection =
    | MissingBody
    | MissingRequiredFields
    | ConsentRequired
    | InvalidToken(reason: string)
    | InvalidCompany(companyId: string)
    | MissingField(field: string)

  /** The HTTP status each rejection is answered with. */
  function Code(r: Rejection): nat {
    if r.InvalidToken? then 401 else 400
  }

  /** The `error` text of each rejection. */
  function Message(r: Rejection): string {
    match r
    case MissingBody => "Missing request body"
    case MissingRequiredFields => "Missing required fields"
    case ConsentRequired => "User consent is required"
    case InvalidToken(reason) => "Invalid Firebase token: " + reason
    case InvalidCompany(c) => "Invalid company: " + c
    case MissingField(f) => "Missing required field: " + f
  }

  /** The position, among the checks, of the check that raises each rejection. */
  function Stage(r: Rejection): nat {
    match r
    case MissingBody => 0
    case MissingRequiredFields => 1
    case ConsentRequired => 2
    case InvalidToken(_) => 3
    case InvalidCompany(_) => 4
    case MissingField(_) => 5
  }

  const StageCount := 6

  /** Whether the submission passes the check at position `stage` considered on its own. */
  predicate Passes(stage: nat, body: Option<SubmitBody>, verify: string -> Result<UserId, string>) {
    match stage
    case 0 => body.Some?
    case 1 =>
      && body.Some?
      && HasText(body.value.token)
      && HasText(body.value.companyId)
      && body.value.credentials.Some?
      && |body.value.credentials.value| > 0
    case 2 => body.Some? && body.value.consent == Some(true)
    case 3 => body.Some? && body.value.token.Some? && verify(body.value.token.value).Ok?
    case 4 => body.Some? && body.value.companyId.Some? && body.value.companyId.value in CredentialFields
    case 5 =>
      && body.Some?
      && body.value.companyId.Some?
      && body.value.companyId.value in CredentialFields
      && body.value.credentials.Some?
      && var fields := CredentialFields[body.value.companyId.value];
         forall i :: 0 <= i < |fields| ==> Present(body.value.credentials.value, fields[i])
    case _ => true
  }

  /** A submission that passed every check. */
  datatype Submission = Submission(
    userId: UserId,
    companyId: string,
    credentials: Encryption.Credentials,
    startDate: Option<string>)

  /** The position of the first field not given, in the order of `fields`. */
  function FirstMissing(fields: seq<string>, creds: Encryption.Credentials): (r: Option<nat>)
    ensures r.None? <==> forall i :: 0 <= i < |fields| ==> Present(creds, fields[i])
    ensures r.Some? ==> r.value < |fields| && !Present(creds, fields[r.value])
    ensures r.Some? ==> forall j :: 0 <= j < r.value ==> Present(creds, fields[j])
  {
    if fields == [] then None
    else if !Present(creds, fields[0]) then Some(0)
    else
      match FirstMissing(fields[1..], creds)
      case None => None
      case Some(i) => Some(i + 1)
  }

  /**
   * The checks, in order: a body; token, company and credentials given;
   * consent; a valid token; a known company; every field of that company
   * given. The first check that fails decides the rejection.
   */
  function ValidateSubmission(body: Option<SubmitBody>, verify: string -> Result<UserId, string>)
    : (r: Result<Submission, Rejection>)
    ensures r.Ok? <==> forall s :: 0 <= s < StageCount ==> Passes(s, body, verify)
    ensures r.Err? ==> Stage(r.error) < StageCount && !Passes(Stage(r.error), body, verify)
    ensures r.Err? ==> forall s :: 0 <= s < Stage(r.error) ==> Passes(s, body, verify)
    ensures r.Err? && r.error.InvalidToken? ==>
      body.Some? && body.value.token.Some? && verify(body.value.token.value) == Err(r.error.reason)
    ensures r.Err? && r.error.InvalidCompany? ==> body.Some? && body.value.companyId == Some(r.error.companyId)
    ensures r.Ok? ==>
      && body.Some? && body.value.token.Some? && body.value.companyId.Some? && body.value.credentials.Some?
      && verify(body.value.token.value).Ok?
      && r.value == Submission(verify(body.value.token.value).value, body.value.companyId.value,
                               body.value.credentials.value, body.value.startDate)
  {
    if body.None? then assert !Passes(0, body, verify); Err(MissingBody)
    else
      var b := body.value;
      if !(HasText(b.token) && HasText(b.companyId) && b.credentials.Some? && |b.credentials.value| > 0) then
        assert !Passes(1, body, verify);
        Err(MissingRequiredFields)
      else if b.consent != Some(true) then assert !Passes(2, body, verify); Err(ConsentRequired)
      else
        match verify(b.token.value)
        case Err(reason) => assert !Passes(3, body, verify); Err(InvalidToken(reason))
        case Ok(uid) =>
          if b.companyId.value !in CredentialFields then
            assert !Passes(4, body, verify);
            Err(InvalidCompany(b.companyId.value))
          else
            var fields := CredentialFields[b.companyId.value];
            match FirstMissing(fields, b.credentials.value)
            case Some(i) => assert !Passes(5, body, verify); Err(MissingField(fields[i]))
            case None => Ok(Submission(uid, b.companyId.value, b.credentials.value, b.startDate))
  }

  /** A missing field is reported by name, and it is the first of the company's fields that is missing. */
  lemma MissingFieldIsFirst(body: Option<SubmitBody>, verify: string -> Result<UserId, string>)
    requires ValidateSubmission(body, verify).Err? && ValidateSubmission(body, verify).error.MissingField?
    ensures
      && body.Some? && body.value.companyId.Some? && body.value.companyId.value in CredentialFields
      && body.value.credentials.Some?
      && var fields := CredentialFields[body.value.companyId.value];
         exists i :: 0 <= i < |fields| && fields[i] == ValidateSubmission(body, verify).error.field
                   && !Present(body.value.credentials.value, fields[i])
                   && forall j :: 0 <= j < i ==> Present(body.value.credentials.value, fields[j])
  {
    var fields := CredentialFields[body.value.companyId.value];
    var i := FirstMissing(fields, body.value.credentials.value).value;
    assert fields[i] == ValidateSubmission(body, verify).error.field;
  }
}
