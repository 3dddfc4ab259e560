/** The dashboard (src/pages/Dashboard/Dashboard.js): logout removes the two
    session keys, and the greeting reads `userData` back from `localStorage`
    behind a guard against an absent or `undefined` value. */
module Dashboard {
  import opened Js
  import opened Browser
  import opened UserDataJson
  import opened Login

  const SessionKeys := {"token", "userData"}

  /** The object `{}`: every field absent. */
  const EmptyRecord := UserData(None, None, None)

  /** What the render reads from the stored `userData`: a record, or a text
      the model does not decode (where `JSON.parse` would throw or yield some
      other value). */
  datatype Read = Record(data: UserData) | Unrecognised

  /** The guarded read. An absent value, the empty text and the text
      `undefined` read as `{}` without parsing; any other text is parsed. */
  function ReadUserData(stored: Option<string>): (r: Read)
    ensures (stored.None? || stored.value == "" || stored.value == "undefined") ==> r == Record(EmptyRecord)
    ensures stored.Some? && stored.value != "" && stored.value != "undefined" ==>
              (r.Record? <==> Decode(stored.value).Some?) && (r.Record? ==> Decode(stored.value) == Some(r.data))
  {
    if TruthyOpt(stored) && stored.value != "undefined" then
      match Decode(stored.value)
      case Some(u) => Record(u)
      case None => Unrecognised
    else Record(EmptyRecord)
  }

  /** The greeting's name: the stored `username`, or `N/A` when it is absent
      or empty. */
  function DisplayedUsername(data: UserData): (name: string)
    ensures TruthyOpt(data.username) ==> name == data.username.value
    ensures !TruthyOpt(data.username) ==> name == "N/A"
  {
    Or(data.username.GetOr(""), "N/A")
  }

  /** After an accepted login the dashboard shows what the login stored: the
      answer's user (with `userId` read back as `uid`), or `{}` when the
      answer had none. */
  lemma LoginThenDashboard(entries: map<string, string>, res: LoginResponse)
    ensures var stored := StorageAfterLogin(entries, res);
            var found := if "userData" in stored then Some(stored["userData"]) else None;
            ReadUserData(found) == Record(if res.user.Some? then StoredUser(res.user.value) else EmptyRecord)
  {
    if res.user.Some? {
      DecodeEncode(StoredUser(res.user.value));
    }
  }

  /** `handleLogout`: `token` and `userData` are removed whatever they held;
      every other key is kept, and the greeting falls back to `N/A`. */
  method HandleLogout(storage: LocalStorage)
    modifies storage
    ensures storage.entries == old(storage.entries) - SessionKeys
    ensures "token" !in storage.entries && "userData" !in storage.entries
    ensures Greeting(storage) == Some("N/A")
  {
    storage.RemoveItem("token");
    storage.RemoveItem("userData");
  }

  /** The render's read of the greeting from the storage. */
  function Greeting(storage: LocalStorage): (r: Option<string>)
    reads storage
    ensures "userData" !in storage.entries ==> r == Some("N/A")
  {
    match ReadUserData(storage.GetItem("userData"))
    case Record(u) => Some(DisplayedUsername(u))
    case Unrecognised => None
  }
}
