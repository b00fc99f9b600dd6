/** The asynchronous client `AsyncAlternativesPE`: where it departs from the
    synchronous one. Its `get_companies` reads `.value` from every element
    of a `countries` list, so a plain string there raises `AttributeError`
    before anything is sent; its `get_capital_provider_by_id` makes a single
    attempt. Every other list method builds the same parameters as the
    synchronous client (the `ListParams` module). */
module AsyncClient {
  import opened Outcomes
  import opened Enums
  import opened Query
  import opened Errors
  import opened Classifier
  import opened HttpClient
  import opened ListParams
  import SyncClient
  import Text

  // ----- get_companies -----------------------------------------------------

  /** Some element of a list is not a `CountryCode` member. */
  predicate HasPlain(items: seq<CountryItem>) {
    exists i :: 0 <= i < |items| && items[i].Plain?
  }

  /** The wire values of a list of members, in order. */
  function CodeTexts(items: seq<CountryItem>): (r: Result<seq<string>, Raised>)
    ensures r.Err? <==> HasPlain(items)
    ensures r.Err? ==> r.error == AttributeError("value")
    ensures r.Ok? ==> |r.value| == |items| && forall i :: 0 <= i < |items| ==> r.value[i] == items[i].code.Wire()
    decreases |items|
  {
    if |items| == 0 then Ok([])
    else match items[0]
      case Plain(_) => Err(AttributeError("value"))
      case Code(code) =>
        var rest := CodeTexts(items[1..]);
        assert HasPlain(items[1..]) ==> HasPlain(items) by {
          if HasPlain(items[1..]) {
            var i :| 0 <= i < |items[1..]| && items[1..][i].Plain?;
            assert items[i + 1].Plain?;
          }
        }
        assert HasPlain(items) ==> HasPlain(items[1..]) by {
          if HasPlain(items) {
            var i :| 0 <= i < |items| && items[i].Plain?;
            assert i > 0 && items[1..][i - 1].Plain?;
          }
        }
        if rest.Err? then rest else Ok([code.Wire()] + rest.value)
  }

  /** The `countries` entry of `get_companies`: a truthy string as it is, a
      non-empty list as `", ".join(c.value for c in countries)`. */
  function CountriesEntry(o: Option<Countries>): (r: Result<Option<ParamValue>, Raised>)
    ensures r.Err? <==> o.Some? && o.value.CountriesList? && HasPlain(o.value.items)
    ensures r.Err? ==> r.error == AttributeError("value")
    ensures r.Ok? ==> (r.value.Some? <==> o.Some? && CountriesTruthy(o.value))
    ensures r.Ok? && r.value.Some? && o.value.CountriesText? ==> r.value.value == PStr(o.value.text)
  {
    if o.None? || !CountriesTruthy(o.value) then Ok(None)
    else match o.value
      case CountriesText(s) => Ok(Some(PStr(s)))
      case CountriesList(items) =>
        var texts := CodeTexts(items);
        if texts.Err? then Err(texts.error) else Ok(Some(PStr(Text.Join(texts.value))))
  }

  /** Where the asynchronous client sends a `countries` entry at all, it is
      the one the synchronous client sends. */
  lemma {:induction false} CountriesAgree(o: Option<Countries>)
    ensures CountriesEntry(o).Ok? ==> CountriesEntry(o).value == SyncClient.CountriesEntry(o)
  {
    if o.Some? && CountriesTruthy(o.value) && o.value.CountriesList? && CountriesEntry(o).Ok? {
      var items := o.value.items;
      var texts := CodeTexts(items);
      assert texts.value == SyncClient.ItemTexts(items);
    }
  }

  /** `get_companies`' query parameters, or the error raised while
      building them. */
  function CompanyParams(q: CompanyQuery): (r: Result<Params, Raised>)
    ensures r.Err? <==> q.countries.Some? && q.countries.value.CountriesList? && HasPlain(q.countries.value.items)
    ensures r.Err? ==> r.error == AttributeError("value")
    ensures r.Ok? ==> CompanySpec(q, SyncClient.CountriesEntry(q.countries), r.value)
  {
    var entry := CountriesEntry(q.countries);
    if entry.Err? then Err(entry.error)
    else
      CountriesAgree(q.countries);
      Ok(ListParams.CompanyParams(q, entry.value))
  }

  /** When every listed country is a member, both clients send the same
      parameters. */
  lemma CompanyParamsAgree(q: CompanyQuery)
    requires q.countries.Some? && q.countries.value.CountriesList? ==> !HasPlain(q.countries.value.items)
    ensures CompanyParams(q) == Ok(SyncClient.CompanyParams(q))
  {
    CountriesAgree(q.countries);
  }

  /** A country given as a plain string in a list: the synchronous client
      sends it, the asynchronous one raises. */
  lemma PlainCountryDiverges()
    ensures var q := DefaultCompanyQuery.(countries := Some(CountriesList([Plain("SGP")])));
      && CompanyParams(q) == Err(AttributeError("value"))
      && SyncClient.CompanyParams(q)["countries"] == PStr("SGP")
  {
    var q := DefaultCompanyQuery.(countries := Some(CountriesList([Plain("SGP")])));
    assert q.countries.value.items[0].Plain?;
    assert SyncClient.CountriesEntry(q.countries) == Some(PStr("SGP"));
  }

  // ----- get_capital_provider_by_id -----------------------------------------

  /** `get_capital_provider_by_id`: one GET with the caller's category; a
      rejection propagates. */
  function CapitalProviderById(c: Client, server: Server, id: int, category: Choice<CapitalProviderCategory>): (call: Call)
    requires Valid(c)
    // the call is the synchronous client's first attempt and nothing more
    ensures call == SyncClient.FirstAttempt(c, server, id, category)
    ensures Valid(call.client) && call.client.config == c.config
    ensures |call.client.sent| > |c.sent| && call.client.sent[..|c.sent|] == c.sent
    ensures Attempts(call.client.sent) <= Attempts(c.sent) + 1
    ensures Dispatched(c, server, true) ==>
      var last := call.client.sent[|call.client.sent| - 1];
      && last.ApiCall? && last.req.verb == "GET"
      && last.req.url == SyncClient.CapitalProviderPath(id)
      && last.req.params == Some(SyncClient.CategoryParams(CategoryValue(category)))
  {
    SingleAttempt(c, server, "GET", SyncClient.CapitalProviderPath(id),
      Some(SyncClient.CategoryParams(CategoryValue(category))), None, None, true);
    Get(c, server, SyncClient.CapitalProviderPath(id), Some(SyncClient.CategoryParams(CategoryValue(category))), None)
  }

  /** The server of `SyncClient.RejectedCategoryRecovers`, for a client that
      already holds a token: the synchronous client recovers, the
      asynchronous one reports the `ValidationError`. */
  lemma RejectionIsNotRetried(c: Client, server: Server, id: int, category: Choice<CapitalProviderCategory>)
    requires Valid(c) && Truthy(c.token)
    requires server(|c.sent|, SyncClient.FirstAttempt(c, server, id, category).client.sent[|c.sent|].req).status == 422
    requires IsSuccess(server(|c.sent| + 1, SyncClient.FirstAttempt(c, server, id, category).client.sent[|c.sent|].req.(params := Some(SyncClient.CategoryParams(SyncClient.RetryCategory)))).status)
    ensures var call := CapitalProviderById(c, server, id, category);
      && call.result.Err? && Catches(Validation, call.result.error)
      && |call.client.sent| == |c.sent| + 1
    ensures SyncClient.CapitalProviderById(c, server, id, category).result.Ok?
  {
    SyncClient.RejectedCategoryRecovers(c, server, id, category);
  }
}
