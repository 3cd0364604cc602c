/** The registration page: five checks run in a fixed order and the first
    that fails is the one reported; a form that passes is sent without its
    confirmation field, and the reply either signs the user in or explains
    what went wrong. */
module Register {
  import opened Base
  import opened Session
  import Routing

  const NAME_LIMIT: nat := 100
  const PASSWORD_MIN: nat := 6
  const REGISTER_FAILED := "Registration failed. Please try again."

  datatype RegisterForm = RegisterForm(name: string, email: string, password: string, confirmPassword: string)

  /** The body of the register call: the form without `confirmPassword`. */
  datatype RegisterData = RegisterData(name: string, email: string, password: string)

  datatype FieldName = Name | Email | Password | ConfirmPassword

  /** `{ ...prev, [name]: value }`. */
  function WithField(form: RegisterForm, f: FieldName, v: string): (r: RegisterForm)
    ensures r.name == if f == Name then v else form.name
    ensures r.email == if f == Email then v else form.email
    ensures r.password == if f == Password then v else form.password
    ensures r.confirmPassword == if f == ConfirmPassword then v else form.confirmPassword
  {
    match f
    case Name => form.(name := v)
    case Email => form.(email := v)
    case Password => form.(password := v)
    case ConfirmPassword => form.(confirmPassword := v)
  }

  // ------------------------------------------------------------- checks

  datatype Check = NameRequired | NameTooLong | InvalidEmail | PasswordTooShort | PasswordMismatch

  /** The order in which `handleSubmit` runs the checks. */
  const CHECKS := [NameRequired, NameTooLong, InvalidEmail, PasswordTooShort, PasswordMismatch]

  /** Whether a check rejects the form; `emailOk` is the email pattern. */
  predicate Rejects(c: Check, form: RegisterForm, emailOk: string -> bool) {
    match c
    case NameRequired => Blank(form.name)
    case NameTooLong => |form.name| > NAME_LIMIT
    case InvalidEmail => !emailOk(form.email)
    case PasswordTooShort => |form.password| < PASSWORD_MIN
    case PasswordMismatch => form.password != form.confirmPassword
  }

  function Message(c: Check): string {
    match c
    case NameRequired => "Name is required"
    case NameTooLong => "Name cannot exceed 100 characters"
    case InvalidEmail => "Please provide a valid email"
    case PasswordTooShort => "Password must be at least 6 characters"
    case PasswordMismatch => "Passwords do not match"
  }

  /** The first of `checks` that rejects the form. */
  function FirstRejecting(checks: seq<Check>, form: RegisterForm, emailOk: string -> bool): (r: Option<Check>)
    ensures r.None? <==> forall i :: 0 <= i < |checks| ==> !Rejects(checks[i], form, emailOk)
    ensures r.Some? ==> exists i :: 0 <= i < |checks| && checks[i] == r.value && Rejects(r.value, form, emailOk)
                                    && forall j :: 0 <= j < i ==> !Rejects(checks[j], form, emailOk)
  {
    if checks == [] then None
    else if Rejects(checks[0], form, emailOk) then Some(checks[0])
    else
      var r := FirstRejecting(checks[1..], form, emailOk);
      assert forall i :: 1 <= i < |checks| ==> checks[1..][i - 1] == checks[i];
      if r.Some? then
        var k :| 0 <= k < |checks[1..]| && checks[1..][k] == r.value && Rejects(r.value, form, emailOk)
                 && forall j :: 0 <= j < k ==> !Rejects(checks[1..][j], form, emailOk);
        assert checks[k + 1] == r.value;
        r
      else r
  }

  /** Spelled out for the five checks: the name must be non-blank, then at
      most 100 characters, the email must match, the password must have at
      least 6 characters, and only then must it equal its confirmation. */
  lemma CheckOrder(form: RegisterForm, emailOk: string -> bool)
    ensures FirstRejecting(CHECKS, form, emailOk) ==
      if Blank(form.name) then Some(NameRequired)
      else if |form.name| > NAME_LIMIT then Some(NameTooLong)
      else if !emailOk(form.email) then Some(InvalidEmail)
      else if |form.password| < PASSWORD_MIN then Some(PasswordTooShort)
      else if form.password != form.confirmPassword then Some(PasswordMismatch)
      else None
  {
    var c4: seq<Check> := [PasswordMismatch];
    var c3 := [PasswordTooShort] + c4;
    var c2 := [InvalidEmail] + c3;
    var c1 := [NameTooLong] + c2;
    var c0 := [NameRequired] + c1;
    assert c4[1..] == [] && c3[1..] == c4 && c2[1..] == c3 && c1[1..] == c2 && c0[1..] == c1;
    assert c0 == CHECKS;
    assert FirstRejecting(c4, form, emailOk)
      == if form.password != form.confirmPassword then Some(PasswordMismatch) else None;
    assert FirstRejecting(c3, form, emailOk)
      == if |form.password| < PASSWORD_MIN then Some(PasswordTooShort) else FirstRejecting(c4, form, emailOk);
    assert FirstRejecting(c2, form, emailOk)
      == if !emailOk(form.email) then Some(InvalidEmail) else FirstRejecting(c3, form, emailOk);
    assert FirstRejecting(c1, form, emailOk)
      == if |form.name| > NAME_LIMIT then Some(NameTooLong) else FirstRejecting(c2, form, emailOk);
  }

  // ------------------------------------------------------------ replies

  /** What the page shows as its error: a text, or the "already registered"
      notice with its link to the login page. */
  datatype ErrorView = Text(text: string) | AlreadyRegistered

  /** The error shown for a rejected register call: the backend's field
      messages joined with ", ", else the notice when the message mentions
      an existing account, else the message, else the fallback. */
  function RejectionView(err: Thrown): (v: ErrorView)
    ensures err.errors.Some? ==> v == Text(JoinWith(err.errors.value, ", "))
    ensures v == AlreadyRegistered <==> err.errors.None? && Contains(err.message, "already exists")
    ensures err.errors.None? && !Contains(err.message, "already exists") ==>
              v == Text(Or(err.message, REGISTER_FAILED))
  {
    if err.errors.Some? then Text(JoinWith(err.errors.value, ", "))
    else if err.message != "" && Contains(err.message, "already exists") then AlreadyRegistered
    else Text(Or(err.message, REGISTER_FAILED))
  }

  // --------------------------------------------------------------- page

  class RegisterPage {
    var form: RegisterForm
    var loading: bool
    var error: Option<ErrorView>

    constructor ()
      ensures form == RegisterForm("", "", "", "") && !loading && error.None?
    {
      form := RegisterForm("", "", "", "");
      loading := false;
      error := None;
    }

    method HandleChange(f: FieldName, v: string)
      modifies this`form
      ensures form == WithField(old(form), f, v)
    {
      form := WithField(form, f, v);
    }

    /** `handleSubmit`: the checks run in order and the first failure is
        shown without any call; otherwise the form minus its confirmation is
        sent once. Loading is down again afterwards in every case. */
    method HandleSubmit(emailOk: string -> bool, reply: Reply<AuthResponse>)
      returns (sent: Option<RegisterData>, session: Option<AuthData>, navigate: Option<Routing.Path>)
      modifies this`loading, this`error
      ensures !loading
      ensures var first := FirstRejecting(CHECKS, form, emailOk);
        first.Some? ==> sent.None? && session.None? && navigate.None? && error == Some(Text(Message(first.value)))
      ensures FirstRejecting(CHECKS, form, emailOk).None? ==>
        sent == Some(RegisterData(form.name, form.email, form.password))
      ensures session.Some? <==> sent.Some? && reply.Resolved? && Accepted(reply.value)
      ensures session.Some? ==> session == reply.value.data && navigate == Some(Routing.LANDING) && error.None?
      ensures sent.Some? && reply.Resolved? && !Accepted(reply.value) ==>
        navigate.None? && error == Some(Text(Or(reply.value.message, REGISTER_FAILED)))
      ensures sent.Some? && reply.Rejected? ==> session.None? && navigate.None? && error == Some(RejectionView(reply.error))
    {
      CheckOrder(form, emailOk);
      loading := true;
      error := None;
      sent, session, navigate := None, None, None;
      var blank := TrimsToEmpty(form.name);
      if blank {
        error, loading := Some(Text(Message(NameRequired))), false;
        return;
      }
      if |form.name| > NAME_LIMIT {
        error, loading := Some(Text(Message(NameTooLong))), false;
        return;
      }
      if !emailOk(form.email) {
        error, loading := Some(Text(Message(InvalidEmail))), false;
        return;
      }
      if |form.password| < PASSWORD_MIN {
        error, loading := Some(Text(Message(PasswordTooShort))), false;
        return;
      }
      if form.password != form.confirmPassword {
        error, loading := Some(Text(Message(PasswordMismatch))), false;
        return;
      }
      sent := Some(RegisterData(form.name, form.email, form.password));
      match reply {
        case Resolved(response) =>
          if Accepted(response) {
            session, navigate := response.data, Some(Routing.LANDING);
          } else {
            error := Some(Text(Or(response.message, REGISTER_FAILED)));
          }
        case Rejected(err) =>
          error := Some(RejectionView(err));
      }
      loading := false;
    }
  }
}
