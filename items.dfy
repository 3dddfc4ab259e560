/** The items page (src/components/items/items.js): filter and pagination
    state, the list query and its reconciliation, required-field validation for
    add and update, the two-phase optimistic delete, and the `itemId || id`
    identity. Each asynchronous handler is split at its `await` into a `Begin…`
    method (everything before the request, returning what was sent and what
    the closure keeps) and a `Finish…` method (everything after, given the
    settled call), so that any interleaving of handlers can be replayed by a
    caller. */
module Items {
  import opened Js
  import opened Browser
  import opened Http

  /** An item as the service returns it. Its identity may arrive as `itemId`
      or as `id`, either of which may be absent (`None`); of the other fields
      only their text matters (`""` stands for an absent one), and `price` is
      kept as the text the form edits. */
  datatype Item = Item(itemId: Option<string>, id: Option<string>, title: string, description: string,
                       price: string, image: string)

  /** `item.itemId || item.id`, the identity used by the list, the delete and
      the update: a truthy `itemId` wins, and otherwise `id` is taken as it is,
      absent or empty. The identity is truthy iff one of the two is. */
  function Key(item: Item): (r: Option<string>)
    ensures r == item.itemId || r == item.id
    ensures TruthyOpt(item.itemId) ==> r == item.itemId
    ensures TruthyOpt(r) <==> TruthyOpt(item.itemId) || TruthyOpt(item.id)
  {
    if TruthyOpt(item.itemId) then item.itemId else item.id
  }

  datatype Filters = Filters(search: string, minPrice: string, maxPrice: string, page: int, limit: int)

  /** The filters the page starts with and `clearFilters` restores. */
  const DefaultFilters := Filters("", "", "", 1, 9)

  /** The `name` attributes of the three filter inputs. */
  datatype FilterField = Search | MinPrice | MaxPrice

  datatype Pagination = Pagination(currentPage: int, totalPages: int, totalItems: int)

  const InitialPagination := Pagination(1, 1, 0)

  datatype ItemForm = ItemForm(title: string, description: string, price: string)

  const EmptyForm := ItemForm("", "", "")

  /** The `name` attributes of the form's text inputs. */
  datatype FormField = Title | Description | Price

  /** The payload of a list query (absent fields are `None` or `""`). */
  datatype ListResponse = ListResponse(success: bool, items: Option<seq<Item>>, currentPage: Option<int>,
                                       totalPages: Option<int>, totalItems: Option<int>, message: string)

  // ---------------------------------------------------------------------------
  // The list query

  /** JavaScript truthiness of a filter value: `""` and `0` are falsy. */
  predicate TruthyValue(v: ParamValue) {
    match v
    case Text(s) => s != ""
    case Number(n) => n != 0
  }

  /** The filter object's entries in key order. */
  function FilterEntries(f: Filters): seq<QueryParam> {
    [QueryParam("search", Text(f.search)), QueryParam("minPrice", Text(f.minPrice)),
     QueryParam("maxPrice", Text(f.maxPrice)), QueryParam("page", Number(f.page)),
     QueryParam("limit", Number(f.limit))]
  }

  /** The `forEach` that appends only truthy, non-empty values, in order. */
  function KeepTruthy(ps: seq<QueryParam>): (r: seq<QueryParam>)
    ensures |r| <= |ps|
    ensures forall p :: p in r ==> p in ps && TruthyValue(p.value)
    ensures forall p :: p in ps && TruthyValue(p.value) ==> p in r
  {
    if ps == [] then []
    else (if TruthyValue(ps[0].value) then [ps[0]] else []) + KeepTruthy(ps[1..])
  }

  /** Filtering a concatenation filters each part. */
  lemma {:induction false} KeepTruthyAppend(a: seq<QueryParam>, b: seq<QueryParam>)
    ensures KeepTruthy(a + b) == KeepTruthy(a) + KeepTruthy(b)
  {
    if a == [] {
      assert a + b == b;
    } else {
      assert (a + b)[1..] == a[1..] + b;
      KeepTruthyAppend(a[1..], b);
    }
  }

  /** The query string of a list fetch for `f`: the truthy filter values and
      nothing else, at most one per filter. */
  function ListQuery(f: Filters): (r: seq<QueryParam>)
    ensures |r| <= 5
    ensures forall p :: p in r <==> p in FilterEntries(f) && TruthyValue(p.value)
  {
    KeepTruthy(FilterEntries(f))
  }

  /** `[p]` when `keep`, else nothing. */
  function Only(keep: bool, p: QueryParam): seq<QueryParam> {
    if keep then [p] else []
  }

  /** Filtering a list that starts with `p`. */
  lemma KeepTruthyCons(p: QueryParam, rest: seq<QueryParam>)
    ensures KeepTruthy([p] + rest) == Only(TruthyValue(p.value), p) + KeepTruthy(rest)
  {
    assert ([p] + rest)[1..] == rest;
  }

  /** The list query holds exactly the truthy filter values, in the key order
      search, minPrice, maxPrice, page, limit. */
  lemma ListQueryExact(f: Filters)
    ensures ListQuery(f) ==
      Only(f.search != "", QueryParam("search", Text(f.search)))
      + (Only(f.minPrice != "", QueryParam("minPrice", Text(f.minPrice)))
      + (Only(f.maxPrice != "", QueryParam("maxPrice", Text(f.maxPrice)))
      + (Only(f.page != 0, QueryParam("page", Number(f.page)))
      + Only(f.limit != 0, QueryParam("limit", Number(f.limit))))))
  {
    var s, lo, hi := QueryParam("search", Text(f.search)), QueryParam("minPrice", Text(f.minPrice)),
                     QueryParam("maxPrice", Text(f.maxPrice));
    var pg, lm := QueryParam("page", Number(f.page)), QueryParam("limit", Number(f.limit));
    var t4: seq<QueryParam> := [lm];
    var t3 := [pg] + t4;
    var t2 := [hi] + t3;
    var t1 := [lo] + t2;
    assert FilterEntries(f) == [s] + t1;
    KeepTruthyCons(lm, []);
    assert [lm] + [] == t4;
    var k4 := Only(f.limit != 0, lm);
    assert KeepTruthy(t4) == k4;
    KeepTruthyCons(pg, t4);
    var k3 := Only(f.page != 0, pg) + k4;
    assert KeepTruthy(t3) == k3;
    KeepTruthyCons(hi, t2[1..]);
    var k2 := Only(f.maxPrice != "", hi) + k3;
    assert KeepTruthy(t2) == k2;
    KeepTruthyCons(lo, t2);
    var k1 := Only(f.minPrice != "", lo) + k2;
    assert KeepTruthy(t1) == k1;
    KeepTruthyCons(s, t1);
    assert ListQuery(f) == Only(f.search != "", s) + k1;
  }

  /** The path of the list and detail fetches. */
  const ListPath := "/get_items"

  /** The request of a list fetch: a GET without data whose endpoint is the
      list path, a `?` (present even when no filter is truthy) and the query
      string. */
  function ListRequest(f: Filters): (r: Request)
    ensures r.verb == Get && r.body == NoBody
    ensures EndPoint(r) == ListPath + "?" + QueryText(ListQuery(f))
  {
    GetRequest(ListPath, Some(ListQuery(f)))
  }

  /** The values the list effect depends on; `limit` is not one of them. */
  function FetchDeps(f: Filters): (string, string, string, int) {
    (f.search, f.minPrice, f.maxPrice, f.page)
  }

  /** The effect re-runs, and so re-fetches, when a dependency changed. */
  predicate Refetches(before: Filters, after: Filters) {
    FetchDeps(before) != FetchDeps(after)
  }

  // ---------------------------------------------------------------------------
  // Looking items up by identity

  /** `items.findIndex(item => (item.itemId || item.id) === key)`. */
  function IndexOfKey(items: seq<Item>, key: string): (i: int)
    ensures -1 <= i < |items|
    ensures i == -1 <==> forall j :: 0 <= j < |items| ==> Key(items[j]) != Some(key)
    ensures 0 <= i ==> Key(items[i]) == Some(key) && forall j :: 0 <= j < i ==> Key(items[j]) != Some(key)
  {
    if items == [] then -1
    else if Key(items[0]) == Some(key) then 0
    else
      var r := IndexOfKey(items[1..], key);
      if r == -1 then -1 else r + 1
  }

  /** `items.find(...)` with the same predicate: the first item under `key`,
      or nothing exactly when no item has that identity. */
  function FindByKey(items: seq<Item>, key: string): (r: Option<Item>)
    ensures r.None? <==> forall j :: 0 <= j < |items| ==> Key(items[j]) != Some(key)
    ensures r.Some? ==> r.value in items && Key(r.value) == Some(key)
  {
    var i := IndexOfKey(items, key);
    if i == -1 then None else Some(items[i])
  }

  /** `items.filter(item => (item.itemId || item.id) !== key)`. */
  function Without(items: seq<Item>, key: string): (r: seq<Item>)
    ensures |r| <= |items|
    ensures forall x :: x in r <==> x in items && Key(x) != Some(key)
  {
    if items == [] then []
    else (if Key(items[0]) != Some(key) then [items[0]] else []) + Without(items[1..], key)
  }

  /** The items `Without` drops, in order. */
  function Matching(items: seq<Item>, key: string): (r: seq<Item>)
    ensures forall x :: x in r <==> x in items && Key(x) == Some(key)
  {
    if items == [] then []
    else (if Key(items[0]) == Some(key) then [items[0]] else []) + Matching(items[1..], key)
  }

  /** `Without` and `Matching` split the list: together they hold every item
      exactly as often as the list does. */
  lemma {:induction false} PartitionByKey(items: seq<Item>, key: string)
    ensures multiset(Without(items, key)) + multiset(Matching(items, key)) == multiset(items)
  {
    if items != [] {
      var h, t := items[0], items[1..];
      PartitionByKey(t, key);
      assert items == [h] + t;
      if Key(h) != Some(key) {
        assert Without(items, key) == [h] + Without(t, key);
        assert Matching(items, key) == Matching(t, key);
      } else {
        assert Without(items, key) == Without(t, key);
        assert Matching(items, key) == [h] + Matching(t, key);
      }
    }
  }

  /** The item `find` returns is the first of those `filter` drops. */
  lemma {:induction false} FoundIsFirstMatch(items: seq<Item>, key: string)
    requires FindByKey(items, key).Some?
    ensures Matching(items, key) != [] && Matching(items, key)[0] == FindByKey(items, key).value
  {
    var t := items[1..];
    if Key(items[0]) != Some(key) {
      assert IndexOfKey(items, key) == IndexOfKey(t, key) + 1;
      assert FindByKey(items, key) == FindByKey(t, key);
      assert Matching(items, key) == Matching(t, key);
      FoundIsFirstMatch(t, key);
    } else {
      assert Matching(items, key) == [items[0]] + Matching(t, key);
    }
  }

  /** Removing the item under a key and appending the one `find` returned gives
      back the same items when the key is unique in the list; with `n`
      duplicates, `n - 1` of them are lost. */
  lemma RollbackRestores(items: seq<Item>, key: string)
    requires FindByKey(items, key).Some?
    ensures |Without(items, key) + [FindByKey(items, key).value]| == |items| - |Matching(items, key)| + 1
    ensures |Matching(items, key)| == 1 ==>
              multiset(Without(items, key) + [FindByKey(items, key).value]) == multiset(items)
  {
    PartitionByKey(items, key);
    FoundIsFirstMatch(items, key);
    assert |multiset(Without(items, key))| + |multiset(Matching(items, key))| == |multiset(items)|;
    if |Matching(items, key)| == 1 {
      assert Matching(items, key) == [FindByKey(items, key).value];
    }
  }

  // ---------------------------------------------------------------------------
  // Add and update

  /** The required-field guard `!title || !description || !price` passes:
      all three fields are truthy. */
  function FormComplete(form: ItemForm): (b: bool)
    ensures b <==> Truthy(form.title) && Truthy(form.description) && Truthy(form.price)
  {
    form.title != "" && form.description != "" && form.price != ""
  }

  /** The FormData an add or update sends: title, description and price as
      typed, in that order, and an image entry exactly when a file is selected,
      after them. */
  function ItemFormData(form: ItemForm, file: Option<File>): (r: Body)
    ensures r.FormData? && |r.entries| >= 3
    ensures r.entries[..3] == [TextEntry("title", form.title), TextEntry("description", form.description),
                               TextEntry("price", form.price)]
    ensures (exists k :: 0 <= k < |r.entries| && r.entries[k].FileEntry?) <==> file.Some?
    ensures file.Some? ==> r.entries[|r.entries| - 1] == FileEntry("image", file.value)
  {
    var fields := [TextEntry("title", form.title), TextEntry("description", form.description),
                   TextEntry("price", form.price)];
    var entries := fields + (if file.Some? then [FileEntry("image", file.value)] else []);
    assert forall k :: 0 <= k < 3 ==> entries[k] == fields[k];
    assert file.Some? ==> entries[3].FileEntry?;
    FormData(entries)
  }

  /** Update treats a reply as success on `success` alone; every reply it
      accepts is one add accepts too. */
  function UpdateAccepted(res: Reply): (b: bool)
    ensures b ==> Accepted(res)
  {
    res.success
  }

  /** Every reply update accepts, add (which uses `Accepted`) accepts too; a reply carrying only
      `status: 200` is accepted by add and refused by update. */
  lemma UpdateStricterThanAdd(res: Reply)
    ensures UpdateAccepted(res) ==> Accepted(res)
    ensures !UpdateAccepted(Reply(false, Some(200), "")) && Accepted(Reply(false, Some(200), ""))
  {
  }

  /** Uploads never get the JSON content type, so the transport sets the
      multipart boundary itself. The `Content-Type: multipart/form-data` the
      update passes as a third argument never reaches the interceptor, since
      `AxiosPut` takes only a path and a body. */
  lemma UploadsGetNoContentType(token: Option<string>, form: ItemForm, file: Option<File>, key: Option<string>)
    ensures "Content-Type" !in PrepareHeaders(map[], token, UpdateItemRequest(key, ItemFormData(form, file)).body)
    ensures "Content-Type" !in PrepareHeaders(map[], token, PostRequest("/add_item", ItemFormData(form, file)).body)
  {
  }

  /** The message of the TypeError thrown by `editingItem.itemId` when no item is
      being edited (the text is engine-dependent; this is V8's). */
  const NullEditingItemMessage := "Cannot read properties of null (reading 'itemId')"

  /** What an add or update closure keeps across its `await`: the request and
      the filters of the render it was created in (used for the re-fetch). */
  datatype MutationCall = MutationCall(request: Request, filters: Filters)

  /** What `confirmDelete` keeps across its `await`: the request and the item
      it removed optimistically, if any. */
  datatype DeleteCall = DeleteCall(request: Request, key: string, removed: Option<Item>)

  /** The DELETE `confirmDelete` sends for an identity. */
  function DeleteItemRequest(key: string): (r: Request)
    ensures r.verb == Delete && r.body == NoBody
    ensures EndPoint(r) == "/delete_item?itemId=" + key
  {
    DeleteRequest("/delete_item", Some([QueryParam("itemId", Text(key))]))
  }

  /** The PUT `handleUpdateItem` sends: the identity is spliced into the path
      by a template literal, so a missing one is sent as `undefined`. */
  function UpdateItemRequest(key: Option<string>, body: Body): (r: Request)
    ensures r.verb == Put && r.body == body
    ensures key.Some? ==> EndPoint(r) == "/update_item/" + key.value
    ensures key.None? ==> EndPoint(r) == "/update_item/undefined"
  {
    PutRequest("/update_item/" + ToJsString(key), body)
  }

  /** An identity containing `/login` turns the session-expired signal off for
      its delete and its update, whatever the server answers: the identity is
      part of the endpoint text `handleError` inspects. */
  lemma LoginIdentityNeverSignals(key: string, body: Body, e: HttpError)
    requires Contains(key, LoginPath)
    ensures !Settle<Reply>(EndPoint(DeleteItemRequest(key)), Failed(e)).sessionExpired
    ensures !Settle<Reply>(EndPoint(UpdateItemRequest(Some(key), body)), Failed(e)).sessionExpired
  {
    LoginInEndPointNeverSignals<Reply>("/delete_item?itemId=", key, "", e);
    assert "/delete_item?itemId=" + key + "" == EndPoint(DeleteItemRequest(key));
    LoginInEndPointNeverSignals<Reply>("/update_item/", key, "", e);
    assert "/update_item/" + key + "" == EndPoint(UpdateItemRequest(Some(key), body));
  }

  /** The component's state as one value. */
  datatype PageState = PageState(items: seq<Item>, showAddForm: bool, editingItem: Option<Item>,
                                 loading: bool, fetchingItems: bool, formData: ItemForm,
                                 selectedFile: Option<File>, filters: Filters, pagination: Pagination,
                                 confirmOpen: bool, itemToDelete: Option<string>)

  /** The `Items` component's state hooks. */
  class ItemsPage {
    var items: seq<Item>
    var showAddForm: bool
    var editingItem: Option<Item>
    var loading: bool
    var fetchingItems: bool
    var formData: ItemForm
    var selectedFile: Option<File>
    var filters: Filters
    var pagination: Pagination
    var confirmOpen: bool
    var itemToDelete: Option<string>

    ghost function State(): PageState
      reads this
    {
      PageState(items, showAddForm, editingItem, loading, fetchingItems, formData,
                selectedFile, filters, pagination, confirmOpen, itemToDelete)
    }

    /** No handler changes the page size: it is always 9. */
    ghost predicate FixedPageSize()
      reads this
    {
      filters.limit == 9
    }

    /** The initial state of every hook. */
    constructor ()
      ensures FixedPageSize()
      ensures State() == PageState([], false, None, false, false, EmptyForm, None,
                                   DefaultFilters, InitialPagination, false, None)
    {
      items, showAddForm, editingItem, loading, fetchingItems := [], false, None, false, false;
      formData, selectedFile, filters, pagination := EmptyForm, None, DefaultFilters, InitialPagination;
      confirmOpen, itemToDelete := false, None;
    }

    /** `handleInputChange`: one form field takes the typed value. */
    method HandleInputChange(field: FormField, value: string)
      modifies this
      ensures State() == old(State()).(formData :=
        match field
        case Title => old(formData).(title := value)
        case Description => old(formData).(description := value)
        case Price => old(formData).(price := value))
    {
      match field
      case Title => formData := formData.(title := value);
      case Description => formData := formData.(description := value);
      case Price => formData := formData.(price := value);
    }

    /** `handleFileChange`: the first picked file, or none. */
    method HandleFileChange(file: Option<File>)
      modifies this
      ensures State() == old(State()).(selectedFile := file)
    {
      selectedFile := file;
    }

    /** The "Add New Item" button. */
    method OpenAddForm()
      modifies this
      ensures State() == old(State()).(showAddForm := true)
    {
      showAddForm := true;
    }

    // -------------------------------------------------------------------------
    // Fetching the list

    /** `fetchItems(filterParams)` up to its `await`: marks the list as being
        fetched and issues a GET whose query holds the truthy values of
        `params`. */
    method BeginFetch(params: Filters) returns (request: Request)
      modifies this
      ensures request == ListRequest(params)
      ensures State() == old(State()).(fetchingItems := true)
    {
      fetchingItems := true;
      request := GetRequest(ListPath, Some(KeepTruthy(FilterEntries(params))));
    }

    /** `fetchItems` after its `await`. A successful response replaces the
        items and the pagination wholesale; anything else leaves both as they
        were and reports a message. Whichever fetch finishes last wins: there is
        no check that the response belongs to the latest request. */
    method FinishFetch(outcome: Outcome<ListResponse>) returns (toast: Option<Toast>)
      modifies this
      ensures outcome.Resolved? && outcome.data.success ==>
        && toast == None
        && State() == old(State()).(fetchingItems := false, items := outcome.data.items.GetOr([]),
             pagination := Pagination(NumberOr(outcome.data.currentPage, 1),
                                      NumberOr(outcome.data.totalPages, 1),
                                      NumberOr(outcome.data.totalItems, 0)))
      ensures outcome.Resolved? && outcome.data.success ==>
        pagination.currentPage != 0 && pagination.totalPages != 0
      ensures outcome.Resolved? && !outcome.data.success ==>
        && toast == Some(ErrorToast(Or(outcome.data.message, "Failed to fetch items")))
        && State() == old(State()).(fetchingItems := false)
      ensures outcome.Rejected? ==>
        && toast == Some(ErrorToast(ErrorMessage(outcome.error, "Failed to fetch items")))
        && State() == old(State()).(fetchingItems := false)
    {
      match outcome {
        case Resolved(res) =>
          if res.success {
            items := res.items.GetOr([]);
            pagination := Pagination(NumberOr(res.currentPage, 1), NumberOr(res.totalPages, 1),
                                     NumberOr(res.totalItems, 0));
            toast := None;
          } else {
            toast := Some(ErrorToast(Or(res.message, "Failed to fetch items")));
          }
        case Rejected(e) =>
          toast := Some(ErrorToast(ErrorMessage(e, "Failed to fetch items")));
      }
      fetchingItems := false;
    }

    // -------------------------------------------------------------------------
    // Filters and pagination

    /** `handleFilterChange`: the named filter takes the value and the page goes
        back to 1; everything else, `limit` included, is kept. The list effect
        re-runs when that changed one of its dependencies. */
    method HandleFilterChange(field: FilterField, value: string) returns (refetch: bool)
      requires FixedPageSize()
      modifies this
      ensures FixedPageSize()
      ensures State() == old(State()).(filters :=
        match field
        case Search => old(filters).(search := value, page := 1)
        case MinPrice => old(filters).(minPrice := value, page := 1)
        case MaxPrice => old(filters).(maxPrice := value, page := 1))
      ensures refetch == Refetches(old(filters), filters)
    {
      var before := filters;
      match field {
        case Search => filters := filters.(search := value, page := 1);
        case MinPrice => filters := filters.(minPrice := value, page := 1);
        case MaxPrice => filters := filters.(maxPrice := value, page := 1);
      }
      refetch := Refetches(before, filters);
    }

    /** `clearFilters`: the defaults, whatever came before; clearing filters
        that are already clear triggers no fetch. */
    method ClearFilters() returns (refetch: bool)
      modifies this
      ensures FixedPageSize()
      ensures State() == old(State()).(filters := DefaultFilters)
      ensures refetch == Refetches(old(filters), DefaultFilters)
    {
      var before := filters;
      filters := Filters("", "", "", 1, 9);
      refetch := Refetches(before, filters);
    }

    /** `handlePageChange`: only the page changes. No bounds are checked here;
        the pagination buttons are disabled outside the valid range. */
    method HandlePageChange(newPage: int) returns (refetch: bool)
      requires FixedPageSize()
      modifies this
      ensures FixedPageSize()
      ensures State() == old(State()).(filters := old(filters).(page := newPage))
      ensures refetch == (newPage != old(filters).page)
    {
      var before := filters;
      filters := filters.(page := newPage);
      refetch := Refetches(before, filters);
    }

    // -------------------------------------------------------------------------
    // Add, edit, update, cancel

    /** `handleAddItem` up to its `await`. With a required field empty there is
        no request and no state change; otherwise the form is sent as a
        FormData and `loading` is set. */
    method BeginAddItem() returns (call: Option<MutationCall>, toast: Option<Toast>)
      modifies this
      ensures !FormComplete(old(formData)) ==>
        call == None && toast == Some(ErrorToast("Please fill all required fields")) && State() == old(State())
      ensures FormComplete(old(formData)) ==>
        && toast == None
        && call == Some(MutationCall(PostRequest("/add_item", ItemFormData(formData, selectedFile)), filters))
        && State() == old(State()).(loading := true)
    {
      if !FormComplete(formData) {
        call, toast := None, Some(ErrorToast("Please fill all required fields"));
        return;
      }
      loading := true;
      call := Some(MutationCall(PostRequest("/add_item", ItemFormData(formData, selectedFile)), filters));
      toast := None;
    }

    /** `handleAddItem` after its `await`. On `success || status === 200` the
        form is reset, the file dropped, the form hidden and one re-fetch with
        the filters the call was started with is requested; otherwise the form
        keeps what the user typed. */
    method FinishAddItem(call: MutationCall, outcome: Outcome<Reply>) returns (toast: Toast, refetch: Option<Filters>)
      modifies this
      ensures outcome.Resolved? && Accepted(outcome.data) ==>
        && toast == SuccessToast(Or(outcome.data.message, "Item added successfully!"))
        && refetch == Some(call.filters)
        && State() == old(State()).(loading := false, formData := EmptyForm, selectedFile := None, showAddForm := false)
      ensures outcome.Resolved? && !Accepted(outcome.data) ==>
        && toast == ErrorToast(Or(outcome.data.message, "Failed to add item"))
        && refetch == None && State() == old(State()).(loading := false)
      ensures outcome.Rejected? ==>
        && toast == ErrorToast(ErrorMessage(outcome.error, "Failed to add item"))
        && refetch == None && State() == old(State()).(loading := false)
    {
      refetch := None;
      match outcome {
        case Resolved(res) =>
          if Accepted(res) {
            toast := SuccessToast(Or(res.message, "Item added successfully!"));
            formData := ItemForm("", "", "");
            selectedFile := None;
            showAddForm := false;
            refetch := Some(call.filters);
          } else {
            toast := ErrorToast(Or(res.message, "Failed to add item"));
          }
        case Rejected(e) =>
          toast := ErrorToast(ErrorMessage(e, "Failed to add item"));
      }
      loading := false;
    }

    /** `handleEditItem`: the item to edit, its fields copied into the form
        (the price as its text), and the form shown. */
    method HandleEditItem(item: Item)
      modifies this
      ensures State() == old(State()).(editingItem := Some(item),
                formData := ItemForm(item.title, item.description, item.price), showAddForm := true)
    {
      editingItem := Some(item);
      formData := ItemForm(item.title, item.description, item.price);
      showAddForm := true;
    }

    /** `handleUpdateItem` up to its `await`. With a required field empty there
        is no request and no state change. With no item being edited, reading
        `editingItem.itemId` throws inside the `try`: the error is reported,
        nothing is sent and `finally` leaves `loading` false. Otherwise the form goes to
        `/update_item/<itemId || id>`, with `undefined` when neither is present. */
    method BeginUpdateItem() returns (call: Option<MutationCall>, toast: Option<Toast>)
      modifies this
      ensures !FormComplete(old(formData)) ==>
        call == None && toast == Some(ErrorToast("Please fill all required fields")) && State() == old(State())
      ensures FormComplete(old(formData)) && old(editingItem).None? ==>
        call == None && toast == Some(ErrorToast(NullEditingItemMessage)) && State() == old(State()).(loading := false)
      ensures FormComplete(old(formData)) && old(editingItem).Some? ==>
        && toast == None
        && call == Some(MutationCall(UpdateItemRequest(Key(old(editingItem).value),
                                                       ItemFormData(formData, selectedFile)), filters))
        && State() == old(State()).(loading := true)
    {
      if !FormComplete(formData) {
        call, toast := None, Some(ErrorToast("Please fill all required fields"));
        return;
      }
      if editingItem.None? {
        // setLoading(true), the TypeError, toastError, then setLoading(false)
        loading := true;
        call, toast := None, Some(ErrorToast(ErrorMessage(HttpError(None, "", NullEditingItemMessage), "Failed to update item")));
        loading := false;
        return;
      }
      loading := true;
      var itemId := Key(editingItem.value);
      call := Some(MutationCall(UpdateItemRequest(itemId, ItemFormData(formData, selectedFile)), filters));
      toast := None;
    }

    /** `handleUpdateItem` after its `await`. Only `success` counts as success:
        then the form is reset, the file and the edited item dropped, the form
        hidden and one re-fetch requested; otherwise the form is kept. */
    method FinishUpdateItem(call: MutationCall, outcome: Outcome<Reply>) returns (toast: Toast, refetch: Option<Filters>)
      modifies this
      ensures outcome.Resolved? && UpdateAccepted(outcome.data) ==>
        && toast == SuccessToast(Or(outcome.data.message, "Item updated successfully!"))
        && refetch == Some(call.filters)
        && State() == old(State()).(loading := false, formData := EmptyForm, selectedFile := None,
                                    editingItem := None, showAddForm := false)
      ensures outcome.Resolved? && !UpdateAccepted(outcome.data) ==>
        && toast == ErrorToast(Or(outcome.data.message, "Failed to update item"))
        && refetch == None && State() == old(State()).(loading := false)
      ensures outcome.Rejected? ==>
        && toast == ErrorToast(ErrorMessage(outcome.error, "Failed to update item"))
        && refetch == None && State() == old(State()).(loading := false)
    {
      refetch := None;
      match outcome {
        case Resolved(res) =>
          if UpdateAccepted(res) {
            toast := SuccessToast(Or(res.message, "Item updated successfully!"));
            formData := ItemForm("", "", "");
            selectedFile := None;
            editingItem := None;
            showAddForm := false;
            refetch := Some(call.filters);
          } else {
            toast := ErrorToast(Or(res.message, "Failed to update item"));
          }
        case Rejected(e) =>
          toast := ErrorToast(ErrorMessage(e, "Failed to update item"));
      }
      loading := false;
    }

    /** `handleCancel`: the form is emptied and hidden. */
    method HandleCancel()
      modifies this
      ensures State() == old(State()).(formData := EmptyForm, selectedFile := None,
                                       editingItem := None, showAddForm := false)
    {
      formData := ItemForm("", "", "");
      selectedFile := None;
      editingItem := None;
      showAddForm := false;
    }

    // -------------------------------------------------------------------------
    // Two-phase delete

    /** `handleDeleteItem`: only marks the identity and opens the confirmation. */
    method HandleDeleteItem(id: Option<string>)
      modifies this
      ensures State() == old(State()).(itemToDelete := id, confirmOpen := true)
    {
      itemToDelete := id;
      confirmOpen := true;
    }

    /** The confirmation's cancel button. */
    method CancelConfirm()
      modifies this
      ensures State() == old(State()).(confirmOpen := false, itemToDelete := None)
    {
      confirmOpen := false;
      itemToDelete := None;
    }

    /** `confirmDelete` up to its `await`. The confirmation closes. With no
        target nothing else happens. Otherwise every item under the target's
        identity is removed at once, before the DELETE is sent, and the first of
        them is kept for a rollback. */
    method BeginConfirmDelete() returns (call: Option<DeleteCall>)
      modifies this
      ensures !TruthyOpt(old(itemToDelete)) ==> call == None && State() == old(State()).(confirmOpen := false)
      ensures TruthyOpt(old(itemToDelete)) ==>
        var key := old(itemToDelete).value;
        && call == Some(DeleteCall(DeleteItemRequest(key), key, FindByKey(old(items), key)))
        && State() == old(State()).(confirmOpen := false, items := Without(old(items), key))
    {
      confirmOpen := false;
      if !TruthyOpt(itemToDelete) {
        call := None;
        return;
      }
      var key := itemToDelete.value;
      var itemToRemove := FindByKey(items, key);
      if itemToRemove.Some? {
        items := Without(items, key);
      } else {
        assert Without(items, key) == items by { WithoutNoMatch(items, key); }
      }
      call := Some(DeleteCall(DeleteItemRequest(key), key, itemToRemove));
    }

    /** `confirmDelete` after its `await`. On `success` the item stays removed;
        on any other reply or a rejection the removed item is appended to the
        list as it is now. The target is cleared in every case. */
    method FinishConfirmDelete(call: DeleteCall, outcome: Outcome<Reply>) returns (toast: Toast)
      modifies this
      ensures outcome.Resolved? && outcome.data.success ==>
        && toast == SuccessToast(Or(outcome.data.message, "Item deleted successfully!"))
        && State() == old(State()).(itemToDelete := None)
      ensures outcome.Resolved? && !outcome.data.success ==>
        toast == ErrorToast(Or(outcome.data.message, "Failed to delete item"))
      ensures outcome.Rejected? ==>
        toast == ErrorToast(ErrorMessage(outcome.error, "Failed to delete item"))
      ensures !(outcome.Resolved? && outcome.data.success) ==>
        State() == old(State()).(itemToDelete := None,
                                 items := old(items) + if call.removed.Some? then [call.removed.value] else [])
    {
      var failed := true;
      match outcome {
        case Resolved(res) =>
          if res.success {
            toast := SuccessToast(Or(res.message, "Item deleted successfully!"));
            failed := false;
          } else {
            toast := ErrorToast(Or(res.message, "Failed to delete item"));
          }
        case Rejected(e) =>
          toast := ErrorToast(ErrorMessage(e, "Failed to delete item"));
      }
      if failed && call.removed.Some? {
        items := items + [call.removed.value];
      }
      itemToDelete := None;
    }
  }

  /** With nothing under the key, `filter` keeps the whole list. */
  lemma {:induction false} WithoutNoMatch(items: seq<Item>, key: string)
    requires FindByKey(items, key).None?
    ensures Without(items, key) == items
  {
    if items != [] {
      var t := items[1..];
      assert IndexOfKey(items, key) == -1;
      assert Key(items[0]) != Some(key) && IndexOfKey(t, key) == -1;
      WithoutNoMatch(t, key);
      assert Without(items, key) == [items[0]] + Without(t, key);
      assert items == [items[0]] + t;
    }
  }

  /** A delete whose call fails, with no fetch landing in between, leaves the
      same items as before when the identity was unique. */
  lemma FailedDeleteRestoresItems(items: seq<Item>, key: string)
    requires |Matching(items, key)| == 1
    ensures FindByKey(items, key).Some?
    ensures multiset(Without(items, key) + [FindByKey(items, key).value]) == multiset(items)
  {
    assert Matching(items, key)[0] in Matching(items, key);
    RollbackRestores(items, key);
  }
}
