/** The signup page: the role chosen from the `role` query parameter, the
    client-side checks of `handleSignup`, the body it posts to
    `/api/auth/signup`, and the error it shows. The server's reply is an input. */
module SignupPage {
  import opened Wrappers
  import SignupRoute

  datatype FormData = FormData(email: string, password: string, fullName: string, companyName: string)

  const EmptyForm := FormData("", "", "", "")

  /** `(searchParams.get("role") as UserRole) || "applicant"`: the cast checks
      nothing, so any non-empty value is kept as it is. */
  function InitialRole(param: Option<string>): (role: string)
    ensures role != ""
    ensures param.Some? && param.value != "" ==> role == param.value
    ensures param.None? || param == Some("") ==> role == "applicant"
  {
    if param.Some? && param.value != "" then param.value else "applicant"
  }

  /** The two checks before the request, as the message they throw. */
  function Validate(role: string, f: FormData): (err: Option<string>)
    ensures err.None? <==> f.email != "" && f.password != "" && f.fullName != ""
                           && (role == "company" ==> f.companyName != "")
  {
    if f.email == "" || f.password == "" || f.fullName == "" then Some("Please fill in all required fields")
    else if role == "company" && f.companyName == "" then Some("Company name is required")
    else None
  }

  /** The JSON body sent; `companyName` is `null` unless the role is "company". */
  function RequestBody(role: string, f: FormData): SignupRoute.SignupBody
  {
    SignupRoute.SignupBody(Some(f.email), Some(f.password), Some(f.fullName),
                           if role == "company" then Some(f.companyName) else None, Some(role))
  }

  /** What `fetch` gives back: an ok response, a non-ok one whose JSON has
      this `error` field, or a thrown `Error` with this message. */
  datatype Reply = Accepted | Rejected(error: Option<string>) | FetchThrew(message: string)

  /** The response the route's answer makes on the page. */
  function ReplyFor(r: SignupRoute.SignupResponse): Reply
  {
    match r
    case Created(_) => Accepted
    case BadRequest => Rejected(Some("Missing required fields"))
    case Failed(e) => Rejected(Some(e))
  }

  /** `errorData.error || "Failed to sign up"`. */
  function RejectionMessage(error: Option<string>): (m: string)
    ensures m != ""
  {
    if error.Some? && error.value != "" then error.value else "Failed to sign up"
  }

  /** The result of one submit: the body posted (if any), the error shown
      (if any), and whether the page moves to "/auth/verify-email". */
  datatype Submission = Submission(sent: Option<SignupRoute.SignupBody>, error: Option<string>, verifyEmail: bool)

  function Submit(role: string, f: FormData, reply: Reply): (s: Submission)
    ensures s.sent.Some? <==> Validate(role, f).None?
    ensures s.verifyEmail <==> s.sent.Some? && reply == Accepted
    ensures s.verifyEmail <==> s.error.None?
    ensures s.sent.Some? ==> s.sent.value == RequestBody(role, f)
    ensures Validate(role, f).Some? ==> s.error == Validate(role, f)
    ensures s.sent.Some? && reply.Rejected? ==> s.error == Some(RejectionMessage(reply.error))
    ensures s.sent.Some? && reply.FetchThrew? ==> s.error == Some(reply.message)
  {
    var err := Validate(role, f);
    if err.Some? then Submission(None, err, false)
    else
      match reply
      case Accepted => Submission(Some(RequestBody(role, f)), None, true)
      case Rejected(e) => Submission(Some(RequestBody(role, f)), Some(RejectionMessage(e)), false)
      case FetchThrew(m) => Submission(Some(RequestBody(role, f)), Some(m), false)
  }

  // ---------------------------------------------------------------- properties

  /** A missing required field is reported before a missing company name,
      whatever the role. */
  lemma RequiredFieldsFirst(role: string, f: FormData)
    requires f.email == "" || f.password == "" || f.fullName == ""
    ensures Validate(role, f) == Some("Please fill in all required fields")
  {
  }

  /** A company without a name is refused, and only a company. */
  lemma CompanyNameRequired(role: string, f: FormData)
    requires f.email != "" && f.password != "" && f.fullName != "" && f.companyName == ""
    ensures Validate(role, f) == (if role == "company" then Some("Company name is required") else None)
  {
  }

  /** The company name is sent exactly for a company, and then as typed. */
  lemma CompanyNameOnlyForCompany(role: string, f: FormData)
    ensures RequestBody(role, f).companyName.Some? <==> role == "company"
    ensures role == "company" ==> RequestBody(role, f).companyName == Some(f.companyName)
  {
  }

  /** A form the page lets through always passes the route's own check, so
      the route never answers 400 to this page, and a company's name is
      never empty on the way in. */
  lemma PageBodyPassesRoute(role: string, f: FormData, o: SignupRoute.Outcomes)
    requires Validate(role, f).None?
    ensures SignupRoute.HasRequiredFields(RequestBody(role, f))
    ensures role == "company" ==> SignupRoute.Present(RequestBody(role, f).companyName)
    ensures SignupRoute.Signup(Ok(RequestBody(role, f)), o).response != SignupRoute.BadRequest
  {
  }

  /** The message shown for a refusal is the route's error when it has one. */
  lemma RouteErrorShown(role: string, f: FormData, r: SignupRoute.SignupResponse)
    requires Validate(role, f).None? && !r.Created?
    ensures var s := Submit(role, f, ReplyFor(r));
      s.error == Some(if r.Failed? && r.error != "" then r.error
                      else if r.Failed? then "Failed to sign up"
                      else "Missing required fields")
  {
  }

  /** The page's state: the role, the form and the shown error. */
  class SignupForm {
    var loading: bool
    var error: Option<string>
    var role: string
    var form: FormData

    /** The `useState` initial values. */
    constructor (roleParam: Option<string>)
      ensures role == InitialRole(roleParam) && form == EmptyForm
      ensures !loading && error.None?
    {
      loading := false;
      error := None;
      role := InitialRole(roleParam);
      form := EmptyForm;
    }

    /** The role radio buttons. */
    method SetRole(r: string)
      modifies this
      ensures role == r && form == old(form) && error == old(error) && loading == old(loading)
    {
      role := r;
    }

    /** `setFormData` from the inputs. */
    method SetForm(f: FormData)
      modifies this
      ensures form == f && role == old(role) && error == old(error) && loading == old(loading)
    {
      form := f;
    }

    /** `handleSignup` to the end of its `finally`: returns the body posted
        and whether the page navigates; `reply` stands for the awaited fetch. */
    method HandleSignup(reply: Reply) returns (sent: Option<SignupRoute.SignupBody>, verifyEmail: bool)
      modifies this
      ensures var s := Submit(old(role), old(form), reply);
        sent == s.sent && verifyEmail == s.verifyEmail && error == s.error
      ensures !loading && role == old(role) && form == old(form)
    {
      loading := true;
      error := None;
      sent := None;
      verifyEmail := false;
      var check := Validate(role, form);
      if check.Some? {
        error := check;
      } else {
        sent := Some(RequestBody(role, form));
        match reply
        case Accepted =>
          verifyEmail := true;
        case Rejected(e) =>
          error := Some(RejectionMessage(e));
        case FetchThrew(m) =>
          error := Some(m);
      }
      loading := false;
    }
  }
}
