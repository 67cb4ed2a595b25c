/** The sign-in / sign-up form (src/pages/ProfilePage.tsx): its fields, the
    checks `handleSubmit` runs before calling the auth service, and the
    state each handler leaves behind. The service call itself is a
    parameter of the submit handler: its outcome. */
module ProfilePage {
  import opened Options

  datatype FormData = FormData(name: string, email: string, password: string, passwordConfirm: string)

  const EmptyForm: FormData := FormData("", "", "", "")

  /** The `name` attribute of the input that changed. */
  datatype Field = Name | Email | Password | PasswordConfirm

  const FillInAll: string := "Please fill in all fields"
  const Mismatch: string := "Passwords do not match"
  const TooShort: string := "Password must be at least 6 characters"
  const MinPasswordLength: nat := 6

  /** The first check that fails, in the order `handleSubmit` runs them. */
  function Validate(isLogin: bool, f: FormData): (e: Option<string>)
    ensures e.None? ==> f.email != "" && f.password != ""
    ensures e.None? && !isLogin ==>
      f.name != "" && f.password == f.passwordConfirm && |f.password| >= MinPasswordLength
    ensures isLogin && e.Some? ==> e.value == FillInAll
    ensures e.Some? ==> e.value in {FillInAll, Mismatch, TooShort}
  {
    if isLogin then
      if f.email == "" || f.password == "" then Some(FillInAll) else None
    else if f.name == "" || f.email == "" || f.password == "" then Some(FillInAll)
    else if f.password != f.passwordConfirm then Some(Mismatch)
    else if |f.password| < MinPasswordLength then Some(TooShort)
    else None
  }

  /** Signing in checks only that e-mail and password are filled in. */
  lemma LoginValidation(f: FormData, name: string, confirm: string)
    ensures Validate(true, f) == Some(FillInAll) <==> f.email == "" || f.password == ""
    ensures Validate(true, f) == None <==> f.email != "" && f.password != ""
    ensures Validate(true, f) == Validate(true, f.(name := name, passwordConfirm := confirm))
  {
  }

  /** Registering: a missing field is reported first, then a mismatch, then
      a short password; six characters are enough. */
  lemma RegisterValidationOrder(f: FormData)
    ensures (f.name == "" || f.email == "" || f.password == "") ==> Validate(false, f) == Some(FillInAll)
    ensures f.name != "" && f.email != "" && f.password != "" && f.password != f.passwordConfirm ==>
      Validate(false, f) == Some(Mismatch)
    ensures Validate(false, f) == Some(TooShort) <==>
      f.name != "" && f.email != "" && f.password != "" && f.password == f.passwordConfirm && |f.password| < 6
    ensures Validate(false, f) == None <==>
      f.name != "" && f.email != "" && f.password == f.passwordConfirm && |f.password| >= 6
  {
  }

  /** What the handler sends to the auth service; registration sends the
      name as `username`. */
  datatype AuthRequest =
    | LoginRequest(email: string, password: string)
    | RegisterRequest(username: string, email: string, password: string)

  function RequestFor(isLogin: bool, f: FormData): (r: AuthRequest)
    ensures isLogin <==> r.LoginRequest?
    ensures r.email == f.email && r.password == f.password
    ensures r.RegisterRequest? ==> r.username == f.name
  {
    if isLogin then LoginRequest(f.email, f.password) else RegisterRequest(f.name, f.email, f.password)
  }

  /** The outcome of the service call; a failure may carry the server's
      `response.data.message`. */
  datatype CallOutcome = Succeeded | Failed(serverMessage: Option<string>)

  /** The message shown after a failed call: the server's message when it
      is a non-empty string, else the mode's fallback. */
  function FailureMessage(isLogin: bool, serverMessage: Option<string>): (m: string)
    ensures m != ""
    ensures serverMessage.Some? && serverMessage.value != "" ==> m == serverMessage.value
    ensures (serverMessage.None? || serverMessage.value == "") ==>
      m == if isLogin then "Login failed. Please try again." else "Registration failed. Please try again."
  {
    if serverMessage.Some? && serverMessage.value != "" then serverMessage.value
    else if isLogin then "Login failed. Please try again."
    else "Registration failed. Please try again."
  }

  /** The value of one input of the form. */
  function FieldOf(f: FormData, field: Field): string {
    match field
    case Name => f.name
    case Email => f.email
    case Password => f.password
    case PasswordConfirm => f.passwordConfirm
  }

  /** `{ ...prev, [name]: value }`: the named field takes the value and every
      other field keeps its own. */
  function Update(f: FormData, field: Field, value: string): (g: FormData)
    ensures FieldOf(g, field) == value
    ensures forall other :: other != field ==> FieldOf(g, other) == FieldOf(f, other)
  {
    match field
    case Name => f.(name := value)
    case Email => f.(email := value)
    case Password => f.(password := value)
    case PasswordConfirm => f.(passwordConfirm := value)
  }

  /** The component state of the form. */
  class ProfileForm {
    var isLogin: bool
    var formData: FormData
    var error: string
    var loading: bool

    constructor()
      ensures isLogin && formData == EmptyForm && error == "" && !loading
    {
      isLogin := true;
      formData := EmptyForm;
      error := "";
      loading := false;
    }

    /** handleInputChange: the named field takes the new value and the
        error is cleared. */
    method InputChange(field: Field, value: string)
      modifies this
      ensures formData == Update(old(formData), field, value)
      ensures error == ""
      ensures isLogin == old(isLogin) && loading == old(loading)
    {
      formData := Update(formData, field, value);
      error := "";
    }

    /** The "Sign up" / "Sign in" switch. */
    method ToggleMode()
      modifies this
      ensures isLogin == !old(isLogin)
      ensures error == ""
      ensures formData == old(formData) && loading == old(loading)
    {
      isLogin := !isLogin;
      error := "";
    }

    /** handleSubmit. Returns the request sent to the auth service, if the
        checks let one through; `outcome` is what that request returns. */
    method Submit(outcome: CallOutcome) returns (sent: Option<AuthRequest>)
      modifies this
      ensures sent.Some? <==> Validate(old(isLogin), old(formData)).None?
      ensures sent.Some? ==> sent.value == RequestFor(old(isLogin), old(formData))
      ensures Validate(old(isLogin), old(formData)).Some? ==>
        error == Validate(old(isLogin), old(formData)).value && formData == old(formData)
      ensures sent.Some? && outcome.Succeeded? ==> error == "" && formData == EmptyForm
      ensures sent.Some? && outcome.Failed? ==>
        error == FailureMessage(old(isLogin), outcome.serverMessage) && formData == old(formData)
      ensures !loading && isLogin == old(isLogin)
    {
      error := "";
      loading := true;
      if isLogin {
        if formData.email == "" || formData.password == "" {
          error := FillInAll;
          loading := false;
          return None;
        }
        sent := Some(LoginRequest(formData.email, formData.password));
      } else {
        if formData.name == "" || formData.email == "" || formData.password == "" {
          error := FillInAll;
          loading := false;
          return None;
        }
        if formData.password != formData.passwordConfirm {
          error := Mismatch;
          loading := false;
          return None;
        }
        if |formData.password| < MinPasswordLength {
          error := TooShort;
          loading := false;
          return None;
        }
        sent := Some(RegisterRequest(formData.name, formData.email, formData.password));
      }
      match outcome {
        case Succeeded =>
          formData := EmptyForm;
        case Failed(message) =>
          error := FailureMessage(isLogin, message);
      }
      loading := false;
    }
  }
}
