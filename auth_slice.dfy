/** The auth slice of the Redux store (src/store/slices/authSlice.js). Each
    reducer is a sequence of field assignments on the draft state, so the
    slice is a class whose methods are the reducers. The user record is
    whatever the login payload carries, so it is a type parameter. */
module AuthSlice {
  import opened Js

  datatype AuthState<U> = AuthState(isAuthenticated: bool, token: Option<string>, user: Option<U>,
                                    loading: bool, error: Option<string>, loginDisplay: bool)

  function InitialState<U>(): AuthState<U> {
    AuthState(false, None, None, false, None, false)
  }

  /** The payload of `loginSuccess`: `{token, user}`, either of which may be absent. */
  datatype LoginPayload<U> = LoginPayload(token: Option<string>, user: Option<U>)

  class AuthStore<U> {
    var isAuthenticated: bool
    var token: Option<string>
    var user: Option<U>
    var loading: bool
    var error: Option<string>
    var loginDisplay: bool

    ghost function State(): AuthState<U>
      reads this
    {
      AuthState(isAuthenticated, token, user, loading, error, loginDisplay)
    }

    constructor ()
      ensures State() == InitialState()
    {
      isAuthenticated, token, user := false, None, None;
      loading, error, loginDisplay := false, None, false;
    }

    method LoginStart()
      modifies this
      ensures State() == old(State()).(loading := true, error := None)
    {
      loading := true;
      error := None;
    }

    /** `loginSuccess`: authenticated with the payload's token and user, and
        the login dialog hidden. */
    method LoginSuccess(payload: LoginPayload<U>)
      modifies this
      ensures State() == AuthState(true, payload.token, payload.user, false, None, false)
    {
      isAuthenticated := true;
      token := payload.token;
      user := payload.user;
      loading := false;
      error := None;
      loginDisplay := false;
    }

    /** `loginFailure`: signed out with the error set; `loginDisplay` is kept. */
    method LoginFailure(payload: Option<string>)
      modifies this
      ensures State() == old(State()).(isAuthenticated := false, token := None, user := None,
                                       loading := false, error := payload)
    {
      loading := false;
      error := payload;
      isAuthenticated := false;
      token := None;
      user := None;
    }

    /** `logout`: back to the initial state, whatever the state was. */
    method Logout()
      modifies this
      ensures State() == InitialState()
    {
      isAuthenticated := false;
      token := None;
      user := None;
      loading := false;
      error := None;
      loginDisplay := false;
    }

    /** `setAuthToken`: authenticated exactly when the new token is truthy. */
    method SetAuthToken(payload: Option<string>)
      modifies this
      ensures State() == old(State()).(token := payload, isAuthenticated := TruthyOpt(payload))
    {
      token := payload;
      isAuthenticated := TruthyOpt(payload);
    }

    method SetUser(payload: Option<U>)
      modifies this
      ensures State() == old(State()).(user := payload)
    {
      user := payload;
    }

    method SetLoginDisplay(payload: bool)
      modifies this
      ensures State() == old(State()).(loginDisplay := payload)
    {
      loginDisplay := payload;
    }

    method ClearError()
      modifies this
      ensures State() == old(State()).(error := None)
    {
      error := None;
    }

    method SetLoading(payload: bool)
      modifies this
      ensures State() == old(State()).(loading := payload)
    {
      loading := payload;
    }
  }
}
