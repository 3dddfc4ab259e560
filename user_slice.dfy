/** The user slice of the Redux store (src/store/slices/userSlice.js): the
    fetched profile and the loading flags of fetching and updating it. The
    profile is whatever the payload carries, so it is a type parameter. */
module UserSlice {
  import opened Js

  datatype UserState<P> = UserState(profile: Option<P>, loading: bool, error: Option<string>, updateLoading: bool)

  function InitialState<P>(): UserState<P> {
    UserState(None, false, None, false)
  }

  class UserStore<P> {
    var profile: Option<P>
    var loading: bool
    var error: Option<string>
    var updateLoading: bool

    ghost function State(): UserState<P>
      reads this
    {
      UserState(profile, loading, error, updateLoading)
    }

    constructor ()
      ensures State() == InitialState()
    {
      profile, loading, error, updateLoading := None, false, None, false;
    }

    method GetUserProfileStart()
      modifies this
      ensures State() == old(State()).(loading := true, error := None)
    {
      loading := true;
      error := None;
    }

    method GetUserProfileSuccess(payload: Option<P>)
      modifies this
      ensures State() == old(State()).(profile := payload, loading := false, error := None)
    {
      profile := payload;
      loading := false;
      error := None;
    }

    method GetUserProfileFailure(payload: Option<string>)
      modifies this
      ensures State() == old(State()).(loading := false, error := payload)
    {
      loading := false;
      error := payload;
    }

    method UpdateUserProfileStart()
      modifies this
      ensures State() == old(State()).(updateLoading := true, error := None)
    {
      updateLoading := true;
      error := None;
    }

    method UpdateUserProfileSuccess(payload: Option<P>)
      modifies this
      ensures State() == old(State()).(profile := payload, updateLoading := false, error := None)
    {
      profile := payload;
      updateLoading := false;
      error := None;
    }

    method UpdateUserProfileFailure(payload: Option<string>)
      modifies this
      ensures State() == old(State()).(updateLoading := false, error := payload)
    {
      updateLoading := false;
      error := payload;
    }

    method ClearUserData()
      modifies this
      ensures State() == InitialState()
    {
      profile := None;
      loading := false;
      error := None;
      updateLoading := false;
    }

    method ClearUserError()
      modifies this
      ensures State() == old(State()).(error := None)
    {
      error := None;
    }
  }
}
