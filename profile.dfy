/** The profile screen (src/components/profile/profile.js): one fetch of the
    signed-in user's profile, shown in a popup on success, and the popup's
    close. The handler is split at its `await` into `BeginProfile` and
    `FinishProfile`. */
module Profile {
  import opened Js
  import opened Browser
  import opened Http

  /** The profile as displayed: `{name, username, email}` of `res.user`. */
  datatype UserProfile = UserProfile(name: Option<string>, username: Option<string>, email: Option<string>)

  /** The profile answer: the common reply fields and the user, if any. */
  datatype ProfileResponse = ProfileResponse(reply: Reply, user: Option<UserProfile>)

  const ProfileEndpoint := "/get_profile"

  /** The message of the TypeError thrown by `res.user.name` when an accepted
      answer has no user (the text is engine-dependent; this is V8's). */
  const MissingUserMessage := "Cannot read properties of undefined (reading 'name')"

  /** How a settled profile fetch ends: the profile is shown, or a message. */
  datatype Shown = ShowProfile(profile: UserProfile) | Warn(message: string)

  /** An accepted answer with a user shows it. An accepted answer without
      one throws inside the `try`, and the catch shows the TypeError's text.
      A refusal shows the server's message or "Failed to fetch profile"; a
      rejection shows the most specific error message or "Error fetching
      profile". */
  function Classify(outcome: Outcome<ProfileResponse>): (r: Shown)
    ensures r.ShowProfile? <==> outcome.Resolved? && Accepted(outcome.data.reply) && outcome.data.user.Some?
    ensures r.ShowProfile? ==> r.profile == outcome.data.user.value
    ensures outcome.Resolved? && Accepted(outcome.data.reply) && outcome.data.user.None? ==>
              r == Warn(MissingUserMessage)
    ensures outcome.Resolved? && !Accepted(outcome.data.reply) ==>
              r == Warn(Or(outcome.data.reply.message, "Failed to fetch profile"))
    ensures outcome.Rejected? ==> r == Warn(ErrorMessage(outcome.error, "Error fetching profile"))
    ensures r.Warn? ==> Truthy(r.message)
  {
    match outcome
    case Resolved(res) =>
      if Accepted(res.reply) then
        match res.user
        case Some(u) => ShowProfile(UserProfile(u.name, u.username, u.email))
        case None => Warn(ErrorMessage(HttpError(None, "", MissingUserMessage), "Error fetching profile"))
      else Warn(Or(res.reply.message, "Failed to fetch profile"))
    case Rejected(e) => Warn(ErrorMessage(e, "Error fetching profile"))
  }

  datatype ProfileState = ProfileState(profile: Option<UserProfile>, loading: bool, showPopup: bool)

  /** The `Profile` component's state. */
  class ProfilePage {
    var profile: Option<UserProfile>
    var loading: bool
    var showPopup: bool

    ghost function State(): ProfileState
      reads this
    {
      ProfileState(profile, loading, showPopup)
    }

    constructor ()
      ensures State() == ProfileState(None, false, false)
    {
      profile, loading, showPopup := None, false, false;
    }

    /** `handleProfile` up to the request: loading starts and the profile is
        requested. */
    method BeginProfile() returns (request: Request)
      modifies this
      ensures request == GetRequest(ProfileEndpoint, None)
      ensures State() == old(State()).(loading := true)
    {
      loading := true;
      request := GetRequest(ProfileEndpoint, None);
    }

    /** The mount effect: with the router's `autoShow` flag the profile is
        fetched at once. */
    method Mount(autoShow: bool) returns (request: Option<Request>)
      modifies this
      ensures autoShow ==> request == Some(GetRequest(ProfileEndpoint, None)) && State() == old(State()).(loading := true)
      ensures !autoShow ==> request == None && State() == old(State())
    {
      request := None;
      if autoShow {
        var r := BeginProfile();
        request := Some(r);
      }
    }

    /** `handleProfile` after the request: a shown profile replaces the old
        one and opens the popup; otherwise both are kept and the message is
        notified. Loading ends in every case. */
    method FinishProfile(outcome: Outcome<ProfileResponse>) returns (toast: Option<Toast>)
      modifies this
      ensures Classify(outcome).ShowProfile? ==>
        toast == None && State() == ProfileState(Some(Classify(outcome).profile), false, true)
      ensures Classify(outcome).Warn? ==>
        toast == Some(ErrorToast(Classify(outcome).message)) && State() == old(State()).(loading := false)
    {
      toast := None;
      match outcome {
        case Resolved(res) =>
          if Accepted(res.reply) {
            if res.user.Some? {
              var u := res.user.value;
              profile := Some(UserProfile(u.name, u.username, u.email));
              showPopup := true;
            } else {
              toast := Some(ErrorToast(ErrorMessage(HttpError(None, "", MissingUserMessage), "Error fetching profile")));
            }
          } else {
            toast := Some(ErrorToast(Or(res.reply.message, "Failed to fetch profile")));
          }
        case Rejected(e) =>
          toast := Some(ErrorToast(ErrorMessage(e, "Error fetching profile")));
      }
      loading := false;
    }

    /** `handleClose`: only the popup flag changes. */
    method HandleClose()
      modifies this
      ensures State() == old(State()).(showPopup := false)
    {
      showPopup := false;
    }
  }
}
