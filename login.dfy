/** The login screen (src/components/login/login.js): the form, the
    validation on the untrimmed fields, the trimmed request body, the success
    predicate and what a successful login writes to `localStorage`. The
    handler is split at its `await`: `BeginLogin` runs up to the request and
    `FinishLogin` runs after it, given the settled call. */
module Login {
  import opened Js
  import opened Browser
  import opened Http
  import opened UserDataJson

  /** `res.user` of a login answer; any of its fields may be absent. */
  datatype LoginUser = LoginUser(userId: Option<string>, username: Option<string>, email: Option<string>)

  /** The login answer as the screen reads it: the common reply fields, the
      token and the user. */
  datatype LoginResponse = LoginResponse(reply: Reply, token: Option<string>, user: Option<LoginUser>)

  datatype LoginForm = LoginForm(email: string, password: string)

  datatype LoginField = Email | Password

  const LoginEndpoint := "/login"
  const FillAllFields := "Please fill all fields"

  /** The guard of the handler, `!email || !password`, passes: both fields
      are truthy before trimming, so a field of spaces passes. */
  function CanSubmit(form: LoginForm): (b: bool)
    ensures b <==> Truthy(form.email) && Truthy(form.password)
  {
    |form.email| > 0 && |form.password| > 0
  }

  /** The body sent: the trimmed password and the trimmed email. */
  function LoginBody(form: LoginForm): (b: Body)
    ensures b.Json? && |b.fields| == 2
    ensures b.fields[0] == ("password", Trim(form.password)) && b.fields[1] == ("email", Trim(form.email))
  {
    Json([("password", Trim(form.password)), ("email", Trim(form.email))])
  }

  /** The guard and the body disagree on whitespace: a field made only of
      whitespace passes the guard and is sent empty, and padding around either
      field is never sent. */
  lemma WhitespaceFieldSentEmpty(form: LoginForm, pad: string, core: string, tail: string)
    requires forall k :: 0 <= k < |pad| ==> IsWhitespace(pad[k])
    requires forall k :: 0 <= k < |tail| ==> IsWhitespace(tail[k])
    ensures form.email == pad + tail && pad != "" ==>
              CanSubmit(form) == Truthy(form.password) && LoginBody(form).fields[1] == ("email", "")
    ensures form.password == pad + core + tail ==> LoginBody(form).fields[0] == ("password", Trim(core))
  {
    TrimIgnoresPadding(pad, core, tail);
    TrimIgnoresPadding(pad, "", tail);
    assert pad + "" + tail == pad + tail;
  }

  /** The record stored as `userData`: the answer's `userId` under `uid`. */
  function StoredUser(user: LoginUser): UserData {
    UserData(user.userId, user.username, user.email)
  }

  /** The storage after an accepted login. `token` holds `String(res.token)`
      (the text `undefined` when the answer has no token); `userData` holds
      the record's JSON text when the answer has a user and is removed
      otherwise; no other key changes. */
  function StorageAfterLogin(entries: map<string, string>, res: LoginResponse): (r: map<string, string>)
    ensures "token" in r && r["token"] == ToJsString(res.token)
    ensures "userData" in r <==> res.user.Some?
    ensures res.user.Some? ==> r["userData"] == Encode(StoredUser(res.user.value))
    ensures forall k :: k != "token" && k != "userData" ==>
              (k in r <==> k in entries) && (k in entries ==> r[k] == entries[k])
  {
    var withToken := entries["token" := ToJsString(res.token)];
    if res.user.Some? then withToken["userData" := Encode(StoredUser(res.user.value))]
    else withToken - {"userData"}
  }

  /** The notification for a settled login call. */
  function LoginToast(outcome: Outcome<LoginResponse>): (t: Toast)
    ensures t.SuccessToast? <==> outcome.Resolved? && Accepted(outcome.data.reply)
    ensures t.SuccessToast? ==> t.text == Or(outcome.data.reply.message, "Login successful!")
    ensures outcome.Resolved? && !Accepted(outcome.data.reply) ==> t == ErrorToast(Or(outcome.data.reply.message, "Login failed"))
    ensures outcome.Rejected? ==> t == ErrorToast(ErrorMessage(outcome.error, "Login failed"))
    ensures Truthy(t.text)
  {
    match outcome
    case Resolved(res) =>
      if Accepted(res.reply) then SuccessToast(Or(res.reply.message, "Login successful!"))
      else ErrorToast(Or(res.reply.message, "Login failed"))
    case Rejected(e) => ErrorToast(ErrorMessage(e, "Login failed"))
  }

  /** An accepted login without a token stores the text `undefined`, which is
      truthy: every later request carries `Bearer undefined`. */
  lemma MissingTokenSendsUndefined(entries: map<string, string>, res: LoginResponse,
                                   headers: map<string, string>, body: Body)
    requires res.token.None?
    ensures var stored := StorageAfterLogin(entries, res);
            PrepareHeaders(headers, Some(stored["token"]), body)["Authorization"] == "Bearer undefined"
  {
  }

  /** A rejected login never raises the session-expired signal. */
  lemma LoginNeverExpiresSession(e: HttpError)
    ensures !Settle<LoginResponse>(LoginEndpoint, Failed(e)).sessionExpired
  {
    LoginPathNeverSignals(e, "");
    assert LoginEndpoint == LoginPath + "";
    assert OccursAt(LoginEndpoint, LoginPath, 0);
  }

  datatype LoginState = LoginState(form: LoginForm, loading: bool)

  /** The `Login` component's state. */
  class LoginPage {
    var form: LoginForm
    var loading: bool

    ghost function State(): LoginState
      reads this
    {
      LoginState(form, loading)
    }

    constructor ()
      ensures State() == LoginState(LoginForm("", ""), false)
    {
      form := LoginForm("", "");
      loading := false;
    }

    /** `handleChange`: the named field takes the typed value. */
    method HandleChange(field: LoginField, value: string)
      modifies this
      ensures field == Email ==> State() == old(State()).(form := old(form).(email := value))
      ensures field == Password ==> State() == old(State()).(form := old(form).(password := value))
    {
      match field {
        case Email => form := form.(email := value);
        case Password => form := form.(password := value);
      }
    }

    /** `handleLogin` up to the request: an incomplete form gets a warning and
        no request; otherwise loading starts and the trimmed body is posted. */
    method BeginLogin() returns (request: Option<Request>, toast: Option<Toast>)
      modifies this
      ensures !CanSubmit(old(form)) ==>
        request == None && toast == Some(ErrorToast(FillAllFields)) && State() == old(State())
      ensures CanSubmit(old(form)) ==>
        && request == Some(PostRequest(LoginEndpoint, LoginBody(old(form))))
        && toast == None && State() == old(State()).(loading := true)
    {
      if !CanSubmit(form) {
        return None, Some(ErrorToast(FillAllFields));
      }
      loading := true;
      request := Some(PostRequest(LoginEndpoint, LoginBody(form)));
      toast := None;
    }

    /** `handleLogin` after the request: an accepted answer writes `token`
        and writes or removes `userData`; a refusal or a rejection leaves the
        storage alone. Loading ends in every case. */
    method FinishLogin(storage: LocalStorage, outcome: Outcome<LoginResponse>) returns (toast: Toast)
      modifies this, storage
      ensures State() == old(State()).(loading := false)
      ensures toast == LoginToast(outcome)
      ensures outcome.Resolved? && Accepted(outcome.data.reply) ==>
                storage.entries == StorageAfterLogin(old(storage.entries), outcome.data)
      ensures !(outcome.Resolved? && Accepted(outcome.data.reply)) ==> storage.entries == old(storage.entries)
    {
      match outcome {
        case Resolved(res) =>
          if Accepted(res.reply) {
            toast := SuccessToast(Or(res.reply.message, "Login successful!"));
            storage.SetItem("token", ToJsString(res.token));
            if res.user.Some? {
              storage.SetItem("userData", Encode(StoredUser(res.user.value)));
            } else {
              storage.RemoveItem("userData");
            }
          } else {
            toast := ErrorToast(Or(res.reply.message, "Login failed"));
          }
        case Rejected(e) =>
          toast := ErrorToast(ErrorMessage(e, "Login failed"));
      }
      loading := false;
    }
  }
}
