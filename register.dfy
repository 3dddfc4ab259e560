/** The registration screen (src/components/register/register.js): the
    four-field form, the completeness and password-match checks on the
    untrimmed values, the trimmed body without the confirmation, and the
    outcome notification. The handler is split at its `await` into
    `BeginRegister` and `FinishRegister`. */
module Register {
  import opened Js
  import opened Browser
  import opened Http

  datatype RegisterForm = RegisterForm(name: string, email: string, password: string, confirmPassword: string)

  datatype RegisterField = Name | Email | Password | ConfirmPassword

  const RegisterEndpoint := "/register"
  const FillAllFields := "Please fill all fields"
  const PasswordsDiffer := "Passwords do not match"

  /** Why a form is not sent, or that it is. */
  datatype Verdict = Incomplete | Mismatch | Ready

  /** The two checks in their order: every field non-empty before trimming,
      then the password equal to its confirmation, also untrimmed. */
  function Check(form: RegisterForm): (v: Verdict)
    ensures v == Incomplete <==> form.name == "" || form.email == "" || form.password == "" || form.confirmPassword == ""
    ensures v == Mismatch <==> v != Incomplete && form.password != form.confirmPassword
    ensures v == Ready <==> form.name != "" && form.email != "" && form.password != "" && form.password == form.confirmPassword
  {
    if !(|form.name| > 0 && |form.email| > 0 && |form.password| > 0 && |form.confirmPassword| > 0) then Incomplete
    else if form.password != form.confirmPassword then Mismatch
    else Ready
  }

  /** The body sent: the trimmed name, email and password; the confirmation
      is never sent. */
  function RegisterBody(form: RegisterForm): (b: Body)
    ensures b.Json? && |b.fields| == 3
    ensures b.fields[0] == ("name", Trim(form.name))
    ensures b.fields[1] == ("email", Trim(form.email))
    ensures b.fields[2] == ("password", Trim(form.password))
    ensures forall k :: 0 <= k < |b.fields| ==> b.fields[k].0 != "confirmPassword"
  {
    var n, e, p := Trim(form.name), Trim(form.email), Trim(form.password);
    var fields := [("name", n), ("email", e), ("password", p)];
    assert forall k :: 0 <= k < |fields| ==> fields[k].0 in ["name", "email", "password"];
    Json(fields)
  }

  /** The notification for a settled registration call. */
  function RegisterToast(outcome: Outcome<Reply>): (t: Toast)
    ensures t.SuccessToast? <==> outcome.Resolved? && Accepted(outcome.data)
    ensures t.SuccessToast? ==> t.text == Or(outcome.data.message, "Registration successful!")
    ensures outcome.Resolved? && !Accepted(outcome.data) ==> t == ErrorToast(Or(outcome.data.message, "Registration failed"))
    ensures outcome.Rejected? ==> t == ErrorToast(ErrorMessage(outcome.error, "Registration failed"))
    ensures Truthy(t.text)
  {
    match outcome
    case Resolved(res) =>
      if Accepted(res) then SuccessToast(Or(res.message, "Registration successful!"))
      else ErrorToast(Or(res.message, "Registration failed"))
    case Rejected(e) => ErrorToast(ErrorMessage(e, "Registration failed"))
  }

  /** The match check compares the untrimmed fields: a password and a
      confirmation that differ only in whitespace padding are refused, though
      both would be sent as the same text. */
  lemma MatchIgnoresTrimming(form: RegisterForm)
    requires form.name != "" && form.email != "" && form.password != "" && form.confirmPassword != ""
    requires Trim(form.password) == Trim(form.confirmPassword) && form.password != form.confirmPassword
    ensures Check(form) == Mismatch
  {
  }

  /** A form that passes both checks sends its confirmation, trimmed, as the
      password; any whitespace padding around the typed password is dropped
      from what is sent. */
  lemma ReadySendsTrimmedPassword(form: RegisterForm, pad: string, core: string, tail: string)
    requires Check(form) == Ready
    requires form.password == pad + core + tail
    requires forall k :: 0 <= k < |pad| ==> IsWhitespace(pad[k])
    requires forall k :: 0 <= k < |tail| ==> IsWhitespace(tail[k])
    ensures RegisterBody(form).fields[2] == ("password", Trim(form.confirmPassword))
    ensures RegisterBody(form).fields[2] == ("password", Trim(core))
  {
    TrimIgnoresPadding(pad, core, tail);
  }

  datatype RegisterState = RegisterState(form: RegisterForm, loading: bool)

  /** The `Register` component's state. */
  class RegisterPage {
    var form: RegisterForm
    var loading: bool

    ghost function State(): RegisterState
      reads this
    {
      RegisterState(form, loading)
    }

    constructor ()
      ensures State() == RegisterState(RegisterForm("", "", "", ""), false)
    {
      form := RegisterForm("", "", "", "");
      loading := false;
    }

    /** `handleChange`: the named field takes the typed value. */
    method HandleChange(field: RegisterField, value: string)
      modifies this
      ensures field == Name ==> State() == old(State()).(form := old(form).(name := value))
      ensures field == Email ==> State() == old(State()).(form := old(form).(email := value))
      ensures field == Password ==> State() == old(State()).(form := old(form).(password := value))
      ensures field == ConfirmPassword ==> State() == old(State()).(form := old(form).(confirmPassword := value))
    {
      match field {
        case Name => form := form.(name := value);
        case Email => form := form.(email := value);
        case Password => form := form.(password := value);
        case ConfirmPassword => form := form.(confirmPassword := value);
      }
    }

    /** `handleRegister` up to the request: an incomplete form or a mismatch
        gets its warning and no request; otherwise loading starts and the
        trimmed body is posted. */
    method BeginRegister() returns (request: Option<Request>, toast: Option<Toast>)
      modifies this
      ensures Check(old(form)) == Incomplete ==>
        request == None && toast == Some(ErrorToast(FillAllFields)) && State() == old(State())
      ensures Check(old(form)) == Mismatch ==>
        request == None && toast == Some(ErrorToast(PasswordsDiffer)) && State() == old(State())
      ensures Check(old(form)) == Ready ==>
        && request == Some(PostRequest(RegisterEndpoint, RegisterBody(old(form))))
        && toast == None && State() == old(State()).(loading := true)
    {
      match Check(form) {
        case Incomplete => return None, Some(ErrorToast(FillAllFields));
        case Mismatch => return None, Some(ErrorToast(PasswordsDiffer));
        case Ready =>
      }
      loading := true;
      request := Some(PostRequest(RegisterEndpoint, RegisterBody(form)));
      toast := None;
    }

    /** `handleRegister` after the request: the notification, and loading
        ends in every case. */
    method FinishRegister(outcome: Outcome<Reply>) returns (toast: Toast)
      modifies this
      ensures State() == old(State()).(loading := false)
      ensures toast == RegisterToast(outcome)
    {
      match outcome {
        case Resolved(res) =>
          if Accepted(res) {
            toast := SuccessToast(Or(res.message, "Registration successful!"));
          } else {
            toast := ErrorToast(Or(res.message, "Registration failed"));
          }
        case Rejected(e) =>
          toast := ErrorToast(ErrorMessage(e, "Registration failed"));
      }
      loading := false;
    }
  }
}
