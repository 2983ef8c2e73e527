/** The root component: the catalog's fetch state, the effect that fetches
    again when the filters change, the buy flow, and the add-account form
    with its save flow. Every request is recorded in `sent` in the order it
    is made; the backend's answer to a request is a parameter of the step
    that makes it, and a fetch runs from start to finish within that step. */
module App {
  import opened JsValue
  import opened Query
  import opened Listing

  /** How a request ends: a 2xx response with its parsed body, a non-2xx
      response, or a thrown error (a network failure, an unreadable body)
      with its message. */
  datatype Response<T> = Ok(body: T) | NotOk | Thrown(message: string)

  /** The body posted to create an order: `{account_id, buyer_name, whatsapp}`. */
  datatype OrderBody = OrderBody(accountId: string, buyerName: string, whatsapp: string)

  /** The part of a created order the buy flow reads. */
  datatype Order = Order(id: string)

  /** A request sent to the backend. */
  datatype Request =
    | ListAccounts(query: seq<Pair>)
    | CreateAccount(payload: AccountPayload)
    | CreateOrder(order: OrderBody)

  const LoadFailed := "Gagal memuat data"
  const CreateAccountFailed := "Gagal menambah akun"
  const CreateOrderFailed := "Gagal membuat pesanan"
  const AccountAdded := "✅ Akun berhasil ditambahkan"
  const OrderCreatedPrefix := "Pesanan dibuat! ID: "
  const BuyFailedPrefix := "Gagal: "
  const SaveFailedPrefix := "❌ "

  /** The message of the error a failed request raises: the fixed text for
      a non-2xx response, the thrown error's own message otherwise. */
  function ErrorMessage<T>(r: Response<T>, nonOk: string): string
    requires !r.Ok?
  {
    if r.NotOk? then nonOk else r.message
  }

  /** The three pieces of fetch state: the listings shown, the loading flag
      and the error text (empty for none). */
  datatype FetchState = FetchState(items: seq<Account>, loading: bool, error: string)

  /** `setLoading(true); setError('')`, before any request is made. */
  function Started(s: FetchState): (r: FetchState)
    ensures r.loading && r.error == ""
    ensures r.items == s.items
  {
    s.(loading := true, error := "")
  }

  /** The state a finished fetch leaves: the response's listings on success,
      the error message with the old listings on failure; not loading either way. */
  function Finished(s: FetchState, r: Response<seq<Account>>): (t: FetchState)
    ensures !t.loading
    ensures r.Ok? ==> t.items == r.body && t.error == s.error
    ensures !r.Ok? ==> t.items == s.items && t.error == ErrorMessage(r, LoadFailed)
    ensures r.NotOk? ==> t.error != ""
  {
    match r
    case Ok(data) => s.(items := data, loading := false)
    case _ => s.(error := ErrorMessage(r, LoadFailed), loading := false)
  }

  /** A whole fetch: after it, success shows exactly the server's listings
      in server order and no error; failure keeps the previous listings and
      shows the error; loading is over in both cases. */
  lemma FetchOutcome(s: FetchState, r: Response<seq<Account>>)
    ensures !Finished(Started(s), r).loading
    ensures r.Ok? ==> Finished(Started(s), r) == FetchState(r.body, false, "")
    ensures r.NotOk? ==> Finished(Started(s), r) == FetchState(s.items, false, LoadFailed)
    ensures r.Thrown? ==> Finished(Started(s), r) == FetchState(s.items, false, r.message)
  {
  }

  /** The initial `{}` and the panel's all-empty record send the same query
      but differ as JSON, so the panel's first emission fetches again. */
  lemma FirstEmissionRefetches()
    ensures QueryOf(NoFilters) == QueryOf(EmptyFilters) == []
    ensures JsonMembers(NoFilters) != JsonMembers(EmptyFilters)
  {
    assert Get(JsonMembers(EmptyFilters), "q") == Some("");
  }

  /** The root component's state. */
  class Catalog {
    var items: seq<Account>
    var loading: bool
    var error: string
    var filters: FilterParams
    /** `JSON.stringify(filters)` as of the effect's last run; `None` before mount. */
    var fetchedFor: Option<seq<Pair>>
    /** The requests made so far, oldest first. */
    var sent: seq<Request>

    function State(): FetchState
      reads this
    {
      FetchState(items, loading, error)
    }

    /** Mounted and the effect has seen the current filters. */
    predicate Settled()
      reads this
    {
      fetchedFor == Some(JsonMembers(filters))
    }

    /** First render: no listings, loading, no error, filters `{}`; the
        effect has not run yet. */
    constructor ()
      ensures State() == FetchState([], true, "")
      ensures filters == NoFilters && fetchedFor == None && sent == []
    {
      items, loading, error := [], true, "";
      filters := NoFilters;
      fetchedFor := None;
      sent := [];
    }

    /** The synchronous start of `fetchItems(params)`: the loading and error
        updates, then the GET request with the query built from `params`. */
    method StartFetch(params: FilterParams)
      modifies this
      ensures State() == Started(old(State()))
      ensures sent == old(sent) + [ListAccounts(QueryOf(params))]
      ensures filters == old(filters) && fetchedFor == old(fetchedFor)
    {
      loading := true;
      error := "";
      var query := BuildQuery(params);
      sent := sent + [ListAccounts(query)];
    }

    /** The end of `fetchItems`: success or failure, then `setLoading(false)`. */
    method FinishFetch(response: Response<seq<Account>>)
      modifies this
      ensures State() == Finished(old(State()), response)
      ensures sent == old(sent) && filters == old(filters) && fetchedFor == old(fetchedFor)
    {
      if response.Ok? {
        items := response.body;
      } else {
        error := ErrorMessage(response, LoadFailed);
      }
      loading := false;
    }

    /** `fetchItems(params)` with the backend answering `response`. */
    method FetchItems(params: FilterParams, response: Response<seq<Account>>)
      modifies this
      ensures State() == Finished(Started(old(State())), response)
      ensures sent == old(sent) + [ListAccounts(QueryOf(params))]
      ensures filters == old(filters) && fetchedFor == old(fetchedFor)
    {
      StartFetch(params);
      FinishFetch(response);
    }

    /** The effect keyed on `JSON.stringify(filters)`: it fetches with the
        current filters when the JSON differs from its last run (always on
        mount) and does nothing otherwise. */
    method RunEffect(response: Response<seq<Account>>) returns (fetched: bool)
      modifies this
      ensures fetched <==> old(fetchedFor) != Some(JsonMembers(filters))
      ensures Settled() && filters == old(filters)
      ensures fetched ==> State() == Finished(Started(old(State())), response)
                          && sent == old(sent) + [ListAccounts(QueryOf(filters))]
      ensures !fetched ==> State() == old(State()) && sent == old(sent)
    {
      var key := JsonMembers(filters);
      fetched := fetchedFor != Some(key);
      if fetched {
        fetchedFor := Some(key);
        FetchItems(filters, response);
      }
    }

    /** `setFilters(f)` from the filter panel, then the effect. Once mounted,
        it fetches exactly when the new record differs from the old one. */
    method SetFilters(f: FilterParams, response: Response<seq<Account>>) returns (fetched: bool)
      modifies this
      ensures old(Settled()) ==> (fetched <==> f != old(filters))
      ensures fetched <==> old(fetchedFor) != Some(JsonMembers(f))
      ensures Settled() && filters == f
      ensures fetched ==> State() == Finished(Started(old(State())), response)
                          && sent == old(sent) + [ListAccounts(QueryOf(f))]
      ensures !fetched ==> State() == old(State()) && sent == old(sent)
    {
      JsonInjective(f, filters);
      filters := f;
      fetched := RunEffect(response);
    }

    /** `handleBuy(item)`: the two prompts' answers (`None` for a cancelled
        prompt), the backend's answer to the order, then the re-fetch's.
        Returns the alert shown, if any. An empty or cancelled name or number
        ends the flow with no request; otherwise the order is posted, and on
        success the catalog is fetched again with the current filters. */
    method Buy(item: Account, buyerName: Option<string>, whatsapp: Option<string>,
               order: Response<Order>, refetch: Response<seq<Account>>) returns (alert: Option<string>)
      modifies this
      ensures !Truthy(buyerName) || !Truthy(whatsapp) ==>
                alert == None && State() == old(State()) && sent == old(sent)
      ensures Truthy(buyerName) && Truthy(whatsapp) && order.Ok? ==>
                alert == Some(OrderCreatedPrefix + order.body.id)
                && sent == old(sent) + [CreateOrder(OrderBody(item.id, buyerName.value, whatsapp.value)),
                                        ListAccounts(QueryOf(filters))]
                && State() == Finished(Started(old(State())), refetch)
      ensures Truthy(buyerName) && Truthy(whatsapp) && !order.Ok? ==>
                alert == Some(BuyFailedPrefix + ErrorMessage(order, CreateOrderFailed))
                && sent == old(sent) + [CreateOrder(OrderBody(item.id, buyerName.value, whatsapp.value))]
                && State() == old(State())
      ensures filters == old(filters) && fetchedFor == old(fetchedFor)
    {
      if !Truthy(buyerName) {
        return None;
      }
      if !Truthy(whatsapp) {
        return None;
      }
      sent := sent + [CreateOrder(OrderBody(item.id, buyerName.value, whatsapp.value))];
      if order.Ok? {
        alert := Some(OrderCreatedPrefix + order.body.id);
        FetchItems(filters, refetch);
      } else {
        alert := Some(BuyFailedPrefix + ErrorMessage(order, CreateOrderFailed));
      }
    }
  }

  /** The add-account form, which reaches the root component's state through `app`. */
  class AddAccountForm {
    const app: Catalog
    var form: AccountForm
    var saving: bool
    var msg: string

    /** The form opens with the default values, not saving, no message. */
    constructor (app: Catalog)
      ensures this.app == app && form == DefaultForm && !saving && msg == ""
    {
      this.app := app;
      form := DefaultForm;
      saving := false;
      msg := "";
    }

    /** An input's `setForm({...form, field: value})`. */
    method Change(f: AccountForm)
      modifies this
      ensures form == f && saving == old(saving) && msg == old(msg)
    {
      form := f;
    }

    /** The form component is defined inside the root component's body, so
        each re-render of the root gives it a new component type and React
        mounts it afresh: the typed values, the flag and the message start over. */
    method Remount()
      modifies this
      ensures form == DefaultForm && !saving && msg == ""
    {
      form := DefaultForm;
      saving := false;
      msg := "";
    }

    /** `handleSubmit` with the backend answering `save` for the new account
        and `refetch` for the catalog fetch that follows a success. On
        success the catalog is fetched with the current filters; that fetch
        changes the root's loading flag, so the root re-renders and the form
        is remounted, which discards the success message as well. On failure
        the form is kept and the message is the error prefixed with "❌ ". */
    method Submit(save: Response<Account>, refetch: Response<seq<Account>>)
      modifies this, app
      ensures !saving
      ensures save.Ok? ==>
                form == DefaultForm && msg == ""
                && app.sent == old(app.sent) + [CreateAccount(ToPayload(old(form))),
                                                ListAccounts(QueryOf(app.filters))]
                && app.State() == Finished(Started(old(app.State())), refetch)
      ensures !save.Ok? ==>
                form == old(form) && msg == SaveFailedPrefix + ErrorMessage(save, CreateAccountFailed)
                && app.sent == old(app.sent) + [CreateAccount(ToPayload(old(form)))]
                && app.State() == old(app.State())
      ensures app.filters == old(app.filters) && app.fetchedFor == old(app.fetchedFor)
    {
      saving := true;
      msg := "";
      var payload := ToPayload(form);
      app.sent := app.sent + [CreateAccount(payload)];
      if save.Ok? {
        msg := AccountAdded;
        form := DefaultForm;
        app.FetchItems(app.filters, refetch);
        Remount();
      } else {
        msg := SaveFailedPrefix + ErrorMessage(save, CreateAccountFailed);
      }
      saving := false;
    }
  }

  /** Mount, then the filter panel's first (all-empty) emission: two GET
      requests with the same empty query, the second showing its own answer. */
  method MountAndFirstEmission(first: Response<seq<Account>>, second: Response<seq<Account>>)
    returns (app: Catalog)
    ensures app.sent == [ListAccounts([]), ListAccounts([])]
    ensures app.State() == Finished(Started(Finished(Started(FetchState([], true, "")), first)), second)
    ensures app.filters == EmptyFilters && app.Settled()
  {
    app := new Catalog();
    var mounted := app.RunEffect(first);
    FirstEmissionRefetches();
    var refetched := app.SetFilters(EmptyFilters, second);
  }
}
