/** `POST /api/auth/signup`: checks the required fields, then creates the
    auth user, its `users` row and, by role, an applicant or a company profile,
    in that order. The first step that fails ends the request with a 500 and
    the rows written before it stay. The store's answers are inputs; the
    writes are recorded in order in a log. */
module SignupRoute {
  import opened Wrappers

  /** The JSON body. A field the client left out or sent as `null` is `None`. */
  datatype SignupBody = SignupBody(
    email: Option<string>,
    password: Option<string>,
    fullName: Option<string>,
    companyName: Option<string>,
    role: Option<string>)

  /** A write the route makes, in the store's terms. */
  datatype Insert =
    | AuthUser(id: string, email: string)
    | UserRow(id: string, email: string, fullName: string, role: Option<string>)
    | ApplicantProfile(userId: string)
    | CompanyProfile(userId: string, companyName: Option<string>)

  /** What a failed step throws: an `Error` object or some other value (the
      store's error records are not `Error` instances). */
  datatype Thrown = ErrorObject(message: string) | OtherValue

  /** `error instanceof Error ? error.message : "Failed to sign up"`. */
  function Message(t: Thrown): string
  {
    match t
    case ErrorObject(m) => m
    case OtherValue => "Failed to sign up"
  }

  /** The store's answers: `createUser` gives an error, no user, or the new
      user's id; each insert gives an error or none. */
  datatype Outcomes = Outcomes(
    createUser: Result<Option<string>, Thrown>,
    usersInsert: Option<Thrown>,
    profileInsert: Option<Thrown>)

  datatype SignupResponse = Created(userId: string) | BadRequest | Failed(error: string)

  function Status(r: SignupResponse): int
  {
    match r
    case Created(_) => 200
    case BadRequest => 400
    case Failed(_) => 500
  }

  /** JavaScript truthiness of a string field: present and not empty. */
  predicate Present(f: Option<string>)
  {
    f.Some? && f.value != ""
  }

  /** `!email || !password || !fullName` fails. */
  predicate HasRequiredFields(b: SignupBody)
  {
    Present(b.email) && Present(b.password) && Present(b.fullName)
  }

  /** The profile row for the role, if the role has one. */
  function ProfileFor(b: SignupBody, id: string): seq<Insert>
  {
    if b.role == Some("applicant") then [ApplicantProfile(id)]
    else if b.role == Some("company") then [CompanyProfile(id, b.companyName)]
    else []
  }

  /** Every write of a signup that goes through, in order. */
  function Plan(b: SignupBody, id: string): (p: seq<Insert>)
    requires HasRequiredFields(b)
    ensures 2 <= |p| <= 3
    ensures p[0] == AuthUser(id, b.email.value)
    ensures p[1] == UserRow(id, b.email.value, b.fullName.value, b.role)
  {
    [AuthUser(id, b.email.value), UserRow(id, b.email.value, b.fullName.value, b.role)] + ProfileFor(b, id)
  }

  datatype Run = Run(applied: seq<Insert>, response: SignupResponse)

  /** The route on a parsed body (`Err` when `request.json()` throws). */
  function Signup(body: Result<SignupBody, Thrown>, o: Outcomes): (r: Run)
    ensures body.Err? ==> r == Run([], Failed(Message(body.error)))
    ensures body.Ok? && !HasRequiredFields(body.value) ==> r == Run([], BadRequest)
    ensures r.response == BadRequest <==> body.Ok? && !HasRequiredFields(body.value)
    ensures body.Ok? && HasRequiredFields(body.value) && o.createUser.Err? ==>
      r == Run([], Failed(Message(o.createUser.error)))
    ensures r.response.Created? <==>
      && body.Ok? && HasRequiredFields(body.value)
      && o.createUser.Ok? && o.createUser.value.Some?
      && o.usersInsert.None?
      && (ProfileFor(body.value, o.createUser.value.value) == [] || o.profileInsert.None?)
    ensures r.applied != [] ==>
      && body.Ok? && HasRequiredFields(body.value)
      && o.createUser.Ok? && o.createUser.value.Some?
      && r.applied <= Plan(body.value, o.createUser.value.value)
    ensures r.response.Created? ==> r.applied == Plan(body.value, r.response.userId)
  {
    if body.Err? then Run([], Failed(Message(body.error)))
    else
      var b := body.value;
      if !HasRequiredFields(b) then Run([], BadRequest)
      else if o.createUser.Err? then Run([], Failed(Message(o.createUser.error)))
      else if o.createUser.value.None? then Run([], Failed("Failed to create user"))
      else
        var id := o.createUser.value.value;
        var p := Plan(b, id);
        if o.usersInsert.Some? then Run(p[..1], Failed(Message(o.usersInsert.value)))
        else if ProfileFor(b, id) == [] then Run(p, Created(id))
        else if o.profileInsert.Some? then Run(p[..2], Failed(Message(o.profileInsert.value)))
        else Run(p, Created(id))
  }

  // ---------------------------------------------------------------- properties

  /** A body without email, password or full name writes nothing and gets a 400. */
  lemma MissingFieldsWriteNothing(b: SignupBody, o: Outcomes)
    requires !Present(b.email) || !Present(b.password) || !Present(b.fullName)
    ensures Signup(Ok(b), o).applied == [] && Status(Signup(Ok(b), o).response) == 400
  {
  }

  /** The auth user comes first and the `users` row second; an applicant
      then gets an `applicant_profiles` row holding only the user id, a
      company a `company_profiles` row with the company name, and any other
      role nothing more. */
  lemma RoleDispatch(b: SignupBody, id: string)
    requires HasRequiredFields(b)
    ensures b.role == Some("applicant") ==> Plan(b, id)[2..] == [ApplicantProfile(id)]
    ensures b.role == Some("company") ==> Plan(b, id)[2..] == [CompanyProfile(id, b.companyName)]
    ensures b.role != Some("applicant") && b.role != Some("company") ==> |Plan(b, id)| == 2
  {
  }

  /** A failed `users` insert stops before any profile row, and the auth user
      already created is not removed. */
  lemma UsersFailureKeepsAuthUser(b: SignupBody, id: string, t: Thrown, profile: Option<Thrown>)
    requires HasRequiredFields(b)
    ensures var r := Signup(Ok(b), Outcomes(Ok(Some(id)), Some(t), profile));
      r.applied == [AuthUser(id, b.email.value)] && r.response == Failed(Message(t))
  {
  }

  /** A failed profile insert leaves the auth user and the `users` row. */
  lemma ProfileFailureKeepsRows(b: SignupBody, id: string, t: Thrown)
    requires HasRequiredFields(b) && ProfileFor(b, id) != []
    ensures var r := Signup(Ok(b), Outcomes(Ok(Some(id)), None, Some(t)));
      r.applied == [AuthUser(id, b.email.value), UserRow(id, b.email.value, b.fullName.value, b.role)]
      && r.response == Failed(Message(t)) && Status(r.response) == 500
  {
  }

  /** A `createUser` that returns no user fails with "Failed to create user"
      and writes nothing. */
  lemma NoUserCreated(b: SignupBody, o: Outcomes)
    requires HasRequiredFields(b) && o.createUser == Ok(None)
    ensures Signup(Ok(b), o) == Run([], Failed("Failed to create user"))
  {
  }

  /** The route does not check the company name: a company signup with an
      empty or missing name succeeds and stores that name. */
  lemma CompanyNameUnchecked(b: SignupBody, id: string)
    requires HasRequiredFields(b) && b.role == Some("company") && !Present(b.companyName)
    ensures var r := Signup(Ok(b), Outcomes(Ok(Some(id)), None, None));
      r.response == Created(id) && CompanyProfile(id, b.companyName) in r.applied
  {
    assert Plan(b, id)[2] == CompanyProfile(id, b.companyName);
  }

  /** Any other role, "admin" included, is stored on the `users` row as sent,
      with no profile row, and the signup succeeds. */
  lemma OtherRoleStoredAsSent(b: SignupBody, id: string, profile: Option<Thrown>)
    requires HasRequiredFields(b) && b.role != Some("applicant") && b.role != Some("company")
    ensures Signup(Ok(b), Outcomes(Ok(Some(id)), None, profile))
         == Run([AuthUser(id, b.email.value), UserRow(id, b.email.value, b.fullName.value, b.role)], Created(id))
  {
  }

  /** The store as the route sees it: the writes made so far, in order. */
  class Backend {
    var log: seq<Insert>

    constructor ()
      ensures log == []
    {
      log := [];
    }

    /** `POST`, step by step with early returns. */
    method HandleSignup(body: Result<SignupBody, Thrown>, o: Outcomes) returns (response: SignupResponse)
      modifies this
      ensures log == old(log) + Signup(body, o).applied
      ensures response == Signup(body, o).response
    {
      if body.Err? {
        return Failed(Message(body.error));
      }
      var b := body.value;
      if !Present(b.email) || !Present(b.password) || !Present(b.fullName) {
        return BadRequest;
      }
      if o.createUser.Err? {
        return Failed(Message(o.createUser.error));
      }
      if o.createUser.value.None? {
        return Failed("Failed to create user");
      }
      var id := o.createUser.value.value;
      log := log + [AuthUser(id, b.email.value)];
      if o.usersInsert.Some? {
        return Failed(Message(o.usersInsert.value));
      }
      log := log + [UserRow(id, b.email.value, b.fullName.value, b.role)];
      if b.role == Some("applicant") {
        if o.profileInsert.Some? {
          return Failed(Message(o.profileInsert.value));
        }
        log := log + [ApplicantProfile(id)];
      } else if b.role == Some("company") {
        if o.profileInsert.Some? {
          return Failed(Message(o.profileInsert.value));
        }
        log := log + [CompanyProfile(id, b.companyName)];
      }
      response := Created(id);
    }
  }
}
