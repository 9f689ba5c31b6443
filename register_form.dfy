/**
 * The registration page's submit handler: three guards with early returns,
 * each showing a toast, then the register request; on success the page
 * moves to the login route.
 */
module RegisterForm {
  import opened Wrappers
  import opened JsString

  /** `password.length` counts UTF-16 code units. */
  const MinPasswordLength := 8

  const MissingFields := "Missing fields"
  const PasswordMismatch := "Password mismatch"
  const PasswordTooShort := "Password too short"
  const LoginRoute := "/login"

  /** The request body: the confirmation is not sent. */
  datatype Credentials = Credentials(username: string, password: string)

  /** A toast and no request, or the register request with its payload. */
  datatype Submission = Rejected(title: string, description: string) | Submit(payload: Credentials)

  /** What the three guards require together. */
  predicate Acceptable(username: string, password: string, confirmPassword: string) {
    && username != "" && password != "" && confirmPassword != ""
    && password == confirmPassword
    && Utf16Length(password) >= MinPasswordLength
  }

  function HandleSubmit(username: string, password: string, confirmPassword: string): (r: Submission)
    ensures r.Submit? <==> Acceptable(username, password, confirmPassword)
    ensures r.Submit? ==> r.payload == Credentials(username, password)
    ensures r.Rejected? ==> r.title == MissingFields || r.title == PasswordMismatch || r.title == PasswordTooShort
  {
    if username == "" || password == "" || confirmPassword == "" then
      Rejected(MissingFields, "Please fill out all fields")
    else if password != confirmPassword then
      Rejected(PasswordMismatch, "Passwords do not match")
    else if Utf16Length(password) < MinPasswordLength then
      Rejected(PasswordTooShort, "Password must be at least 8 characters long")
    else
      Submit(Credentials(username, password))
  }

  /** The checks apply in order: a missing field is reported whatever else is wrong. */
  lemma MissingFieldsFirst(username: string, password: string, confirmPassword: string)
    ensures HandleSubmit(username, password, confirmPassword).Rejected? &&
            HandleSubmit(username, password, confirmPassword).title == MissingFields
            <==> username == "" || password == "" || confirmPassword == ""
  {
  }

  /** With every field filled, a mismatch is reported before the length. */
  lemma MismatchSecond(username: string, password: string, confirmPassword: string)
    requires username != "" && password != "" && confirmPassword != ""
    ensures HandleSubmit(username, password, confirmPassword).Rejected? &&
            HandleSubmit(username, password, confirmPassword).title == PasswordMismatch
            <==> password != confirmPassword
  {
  }

  /** With matching filled fields, only the length is left to reject. */
  lemma TooShortThird(username: string, password: string)
    requires username != "" && password != ""
    ensures HandleSubmit(username, password, password).Rejected? <==> Utf16Length(password) < MinPasswordLength
    ensures HandleSubmit(username, password, password).Rejected? ==>
              HandleSubmit(username, password, password).title == PasswordTooShort
  {
  }

  /** A submitted password has at least four characters, and at least eight when all lie in the Basic Multilingual Plane. */
  lemma SubmittedPasswordLength(username: string, password: string, confirmPassword: string)
    requires HandleSubmit(username, password, confirmPassword).Submit?
    ensures |password| >= MinPasswordLength / 2
    ensures (forall i :: 0 <= i < |password| ==> password[i] as int < 0x1_0000) ==> |password| >= MinPasswordLength
  {
  }

  /** Four astral characters are eight UTF-16 code units, which is long enough. */
  lemma AstralPasswordAccepted()
    ensures HandleSubmit("ada", "\U{1F600}\U{1F600}\U{1F600}\U{1F600}", "\U{1F600}\U{1F600}\U{1F600}\U{1F600}").Submit?
  {
    var p := "\U{1F600}\U{1F600}\U{1F600}\U{1F600}";
    assert Utf16Length(p) == 2 + Utf16Length(p[1..]);
    assert Utf16Length(p[1..]) == 2 + Utf16Length(p[2..]);
    assert Utf16Length(p[2..]) == 2 + Utf16Length(p[3..]);
    assert Utf16Length(p[3..]) == 2 + Utf16Length(p[4..]);
  }

  /** The route the page navigates to once the register request settles. */
  function AfterResponse(succeeded: bool): (r: Option<string>)
    ensures r.Some? <==> succeeded
    ensures r.Some? ==> r.value == LoginRoute
  {
    if succeeded then Some(LoginRoute) else None
  }
}
