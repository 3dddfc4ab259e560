/** The item detail popup (src/components/items/ItemPopup.js): a fetch guard
    that issues one fetch per open session, a reset on close, and the
    classification of the answer. React's effect scheduling is replaced by
    three prop changes, `Open`, `Rerun` and `Close`, each of which runs the
    two effects in declaration order when their dependencies changed, and
    `Resolve` delivers the settled fetch. */
module Popup {
  import opened Js
  import opened Http
  import opened Items

  /** How a settled detail fetch ends: an item to show, or a message. */
  datatype Fetched = Found(item: Item) | NotShown(message: string)

  /** The detail request for an identity: a GET without data on the list
      path, with the identity spliced in as `itemId=<id>`. */
  function DetailRequest(id: string): (r: Request)
    ensures r.verb == Get && r.body == NoBody
    ensures EndPoint(r) == "/get_items?itemId=" + id
  {
    GetRequest("/get_items", Some([QueryParam("itemId", Text(id))]))
  }

  /** An identity containing `/login` turns the session-expired signal off
      for its detail fetch, whatever the server answers. */
  lemma LoginIdentityDetailNeverSignals(id: string, e: HttpError)
    requires Contains(id, LoginPath)
    ensures !Settle<ListResponse>(EndPoint(DetailRequest(id)), Failed(e)).sessionExpired
  {
    LoginInEndPointNeverSignals<ListResponse>("/get_items?itemId=", id, "", e);
    assert "/get_items?itemId=" + id + "" == EndPoint(DetailRequest(id));
  }

  /** The answer's classification. A success with at least one item shows the
      first item. A success with no items or a refusal shows the server's
      message or "Item not found". A rejection shows the most specific message
      of the error, or "Failed to fetch item". */
  function Classify(outcome: Outcome<ListResponse>): (r: Fetched)
    ensures r.Found? <==> outcome.Resolved? && outcome.data.success && outcome.data.items.Some? && outcome.data.items.value != []
    ensures r.Found? ==> r.item == outcome.data.items.value[0]
    ensures r.NotShown? && outcome.Resolved? ==> r.message == Or(outcome.data.message, "Item not found")
    ensures outcome.Rejected? ==> r == NotShown(ErrorMessage(outcome.error, "Failed to fetch item"))
    ensures r.NotShown? ==> r.message != ""
  {
    match outcome
    case Resolved(res) =>
      if res.success && res.items.Some? && |res.items.value| > 0 then Found(res.items.value[0])
      else NotShown(Or(res.message, "Item not found"))
    case Rejected(e) => NotShown(ErrorMessage(e, "Failed to fetch item"))
  }

  datatype PopupState = PopupState(open: bool, itemId: Option<string>, item: Option<Item>,
                                   loading: bool, error: string, hasFetched: bool)

  /** The `ItemPopup` component: its props `open` and `itemId`, its state
      `item`, `loading` and `error`, and the `hasFetched` ref. */
  class ItemPopup {
    var open: bool
    var itemId: Option<string>
    var item: Option<Item>
    var loading: bool
    var error: string
    var hasFetched: bool

    ghost function State(): PopupState
      reads this
    {
      PopupState(open, itemId, item, loading, error, hasFetched)
    }

    /** A fetch has been issued only in a session that is open with a truthy
        identity, and a closed popup is never loading. */
    ghost predicate Valid()
      reads this
    {
      (hasFetched ==> open && TruthyOpt(itemId)) && (!open ==> !loading)
    }

    /** Mounted closed, with no identity, as the items page mounts it. */
    constructor ()
      ensures Valid()
      ensures State() == PopupState(false, None, None, false, "", false)
    {
      open, itemId, item, loading, error, hasFetched := false, None, None, false, "", false;
    }

    /** The fetch effect (dependencies `itemId` and `open`). Closed or without
        an identity, it forgets any fetch. Open with `hasFetched` set, it does
        nothing. Otherwise it starts loading, clears the error and the item,
        sets `hasFetched` and issues exactly one request. */
    method FetchEffect() returns (request: Option<Request>)
      modifies this
      ensures !old(open) || !TruthyOpt(old(itemId)) ==>
        request == None && State() == old(State()).(hasFetched := false)
      ensures old(open) && TruthyOpt(old(itemId)) && old(hasFetched) ==>
        request == None && State() == old(State())
      ensures old(open) && TruthyOpt(old(itemId)) && !old(hasFetched) ==>
        && request == Some(DetailRequest(old(itemId).value))
        && State() == old(State()).(loading := true, error := "", item := None, hasFetched := true)
    {
      if !open || !TruthyOpt(itemId) {
        hasFetched := false;
        return None;
      }
      if hasFetched {
        return None;
      }
      loading := true;
      error := "";
      item := None;
      hasFetched := true;
      request := Some(DetailRequest(itemId.value));
    }

    /** The close effect (dependency `open`): when closed, everything is reset. */
    method CloseEffect()
      modifies this
      ensures !old(open) ==> State() == old(State()).(hasFetched := false, item := None, error := "", loading := false)
      ensures old(open) ==> State() == old(State())
    {
      if !open {
        hasFetched := false;
        item := None;
        error := "";
        loading := false;
      }
    }

    /** The items page opens the popup on an identity: both props change, so
        the fetch effect runs, then the close effect (which does nothing while
        open). A truthy identity gets exactly one fetch and the loading state. */
    method Open(id: Option<string>) returns (request: Option<Request>)
      requires Valid() && !open
      modifies this
      ensures Valid()
      ensures TruthyOpt(id) ==>
        && request == Some(DetailRequest(id.value))
        && State() == old(State()).(open := true, itemId := id, loading := true, error := "",
                                    item := None, hasFetched := true)
      ensures !TruthyOpt(id) ==> request == None && State() == old(State()).(open := true, itemId := id)
    {
      open, itemId := true, id;
      request := FetchEffect();
      CloseEffect();
    }

    /** A re-render while open with a possibly different identity. The same
        identity does not re-run the effect. Once a fetch was issued in this
        session a new truthy identity is not fetched either; a falsy one clears
        the guard. */
    method Rerun(id: Option<string>) returns (request: Option<Request>)
      requires Valid() && open
      modifies this
      ensures Valid()
      ensures id == old(itemId) ==> request == None && State() == old(State())
      ensures id != old(itemId) && !TruthyOpt(id) ==>
        request == None && State() == old(State()).(itemId := id, hasFetched := false)
      ensures id != old(itemId) && TruthyOpt(id) && old(hasFetched) ==>
        request == None && State() == old(State()).(itemId := id)
      ensures id != old(itemId) && TruthyOpt(id) && !old(hasFetched) ==>
        && request == Some(DetailRequest(id.value))
        && State() == old(State()).(itemId := id, loading := true, error := "", item := None, hasFetched := true)
    {
      request := None;
      if id != itemId {
        itemId := id;
        request := FetchEffect();
      }
    }

    /** `onClose`: only `open` changes, so the fetch effect forgets the fetch
        and the close effect resets the item, the error and the loading flag;
        reopening on the same identity fetches again. */
    method Close()
      requires Valid() && open
      modifies this
      ensures Valid()
      ensures State() == old(State()).(open := false, hasFetched := false, item := None, error := "", loading := false)
    {
      open := false;
      var request := FetchEffect();
      CloseEffect();
    }

    /** The settled fetch: an item is shown, or the message is set with the
        item left as it was; loading ends either way. The answer is applied
        whatever the popup's state is by then. */
    method Resolve(outcome: Outcome<ListResponse>)
      requires Valid()
      modifies this
      ensures Valid()
      ensures Classify(outcome).Found? ==>
        State() == old(State()).(item := Some(Classify(outcome).item), loading := false)
      ensures Classify(outcome).NotShown? ==>
        State() == old(State()).(error := Classify(outcome).message, loading := false)
    {
      match Classify(outcome) {
        case Found(x) => item := Some(x);
        case NotShown(m) => error := m;
      }
      loading := false;
    }
  }

  /** Opening, re-rendering, closing and reopening on the same identity issues
      two fetches in all. */
  method ReopenFetchesAgain(id: string) returns (first: Option<Request>, again: Option<Request>, second: Option<Request>)
    requires id != ""
    ensures first == Some(DetailRequest(id)) && again == None && second == first
  {
    var popup := new ItemPopup();
    first := popup.Open(Some(id));
    again := popup.Rerun(Some(id));
    popup.Close();
    second := popup.Open(Some(id));
  }
}
