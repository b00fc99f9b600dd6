/** The synchronous client `AlternativesPE`: the parts of its resource
    methods that are not shared with the asynchronous client. Its
    `get_companies` tolerates plain strings in a `countries` list, and its
    `get_capital_provider_by_id` retries once with the `fund-manager`
    category when the server rejects the one given. */
module SyncClient {
  import opened Outcomes
  import opened Enums
  import opened Query
  import opened Errors
  import opened Classifier
  import opened HttpClient
  import opened ListParams
  import Text

  // ----- get_companies -----------------------------------------------------

  /** `c.value if isinstance(c, CountryCode) else c`. */
  function ItemText(c: CountryItem): string {
    match c
    case Code(code) => code.Wire()
    case Plain(s) => s
  }

  /** The pieces a `countries` list is joined from. */
  function ItemTexts(items: seq<CountryItem>): (r: seq<string>)
    ensures |r| == |items|
    ensures forall i :: 0 <= i < |items| ==> r[i] == ItemText(items[i])
  {
    seq(|items|, i requires 0 <= i < |items| => ItemText(items[i]))
  }

  /** The `countries` entry of `get_companies`: a truthy string as it is, a
      non-empty list joined with `", "`. */
  function CountriesEntry(o: Option<Countries>): (r: Option<ParamValue>)
    ensures r.Some? <==> o.Some? && CountriesTruthy(o.value)
    ensures r.Some? ==> r.value.PStr?
    ensures r.Some? && o.value.CountriesText? ==> r.value.s == o.value.text
    ensures r.Some? && o.value.CountriesList? && (forall i :: 0 <= i < |o.value.items| ==> Text.CommaFree(ItemText(o.value.items[i]))) ==>
      Text.Split(r.value.s) == ItemTexts(o.value.items)
  {
    if o.None? || !CountriesTruthy(o.value) then None
    else match o.value
      case CountriesText(s) => Some(PStr(s))
      case CountriesList(items) =>
        JoinSplitsBack(items);
        Some(PStr(Text.Join(ItemTexts(items))))
  }

  lemma JoinSplitsBack(items: seq<CountryItem>)
    requires |items| > 0
    ensures (forall i :: 0 <= i < |items| ==> Text.CommaFree(ItemText(items[i]))) ==>
      Text.Split(Text.Join(ItemTexts(items))) == ItemTexts(items)
  {
    if forall i :: 0 <= i < |items| ==> Text.CommaFree(ItemText(items[i])) {
      Text.SplitJoin(ItemTexts(items));
    }
  }

  /** Reads a joined list of country codes back. */
  function ParseCountryCodes(s: string): (r: Option<seq<CountryCode>>)
    ensures r.Some? ==> |r.value| == |Text.Split(s)|
  {
    var parts := Text.Split(s);
    if forall i :: 0 <= i < |parts| ==> ParseCountryCode(parts[i]).Some? then
      Some(seq(|parts|, i requires 0 <= i < |parts| => ParseCountryCode(parts[i]).value))
    else None
  }

  /** A non-empty list of codes is sent as one string that reads back as
      the same codes in the same order. */
  lemma CountryCodesRoundTrip(codes: seq<CountryCode>)
    requires |codes| > 0
    ensures var e := CountriesEntry(Some(CountriesList(seq(|codes|, i requires 0 <= i < |codes| => Code(codes[i])))));
      e.Some? && ParseCountryCodes(e.value.s) == Some(codes)
  {
    var items := seq(|codes|, i requires 0 <= i < |codes| => Code(codes[i]));
    forall i | 0 <= i < |items|
      ensures Text.CommaFree(ItemText(items[i]))
      ensures ParseCountryCode(ItemTexts(items)[i]) == Some(codes[i])
    {
      CountryCodeShape(codes[i]);
      CountryCodeRoundTrip(codes[i]);
    }
    var e := CountriesEntry(Some(CountriesList(items)));
    var parts := Text.Split(e.value.s);
    assert parts == ItemTexts(items);
    var back := seq(|parts|, i requires 0 <= i < |parts| => ParseCountryCode(parts[i]).value);
    assert back == codes;
  }

  /** `get_companies`' query parameters. */
  function CompanyParams(q: CompanyQuery): (r: Params)
    ensures CompanySpec(q, CountriesEntry(q.countries), r)
  {
    ListParams.CompanyParams(q, CountriesEntry(q.countries))
  }

  /** A bare `get_companies()` sends exactly its four defaults. */
  lemma DefaultCompanyParams()
    ensures CompanyParams(DefaultCompanyQuery) ==
      map["limit" := PInt(100), "offset" := PInt(0), "order_direction" := PStr("asc"), "response_type" := PStr("SIMPLE")]
  {
  }

  // ----- get_capital_provider_by_id -----------------------------------------

  /** The category the retry falls back to. */
  const RetryCategory: string := "fund-manager"

  /** The fallback is the wire value of `CapitalProviderCategory.FUND_MANAGER`. */
  lemma RetryCategoryIsFundManager()
    ensures RetryCategory == FundManager.Wire()
    ensures ParseCapitalProviderCategory(RetryCategory) == Some(FundManager)
  {
  }

  function CapitalProviderPath(id: int): string {
    "/api/v2/capital-providers/" + Text.IntToString(id) + "/"
  }

  function CategoryParams(category: string): Params {
    map["category" := PStr(category)]
  }

  /** The first attempt, with the caller's category. */
  function FirstAttempt(c: Client, server: Server, id: int, category: Choice<CapitalProviderCategory>): Call
    requires Valid(c)
  {
    Get(c, server, CapitalProviderPath(id), Some(CategoryParams(CategoryValue(category))), None)
  }

  /** The first attempt ended in a `ValidationError`. */
  predicate Rejected(call: Call) {
    call.result.Err? && Catches(Validation, call.result.error)
  }

  /** `get_capital_provider_by_id`: a `ValidationError` from the first GET
      is caught and the GET repeated once with the fallback category; any
      other outcome of the first GET is the outcome of the call. */
  function CapitalProviderById(c: Client, server: Server, id: int, category: Choice<CapitalProviderCategory>): (call: Call)
    requires Valid(c)
    ensures Valid(call.client) && call.client.config == c.config
    ensures var first := FirstAttempt(c, server, id, category);
      && |first.client.sent| <= |call.client.sent|
      && call.client.sent[..|first.client.sent|] == first.client.sent
      // a second request goes out exactly when the first was rejected
      && (Rejected(first) <==> |call.client.sent| > |first.client.sent|)
      && (!Rejected(first) ==> call == first)
      // the retry's outcome, success or error, is the call's
      && (Rejected(first) ==>
            call.result == Get(first.client, server, CapitalProviderPath(id), Some(CategoryParams(RetryCategory)), None).result)
      // and it asks for the fallback category
      && (Rejected(first) && Dispatched(first.client, server, true) ==>
            var last := call.client.sent[|call.client.sent| - 1];
            last.ApiCall? && last.req.params == Some(CategoryParams(RetryCategory)))
    ensures Attempts(call.client.sent) <= Attempts(c.sent) + 2
  {
    var path := CapitalProviderPath(id);
    var first := FirstAttempt(c, server, id, category);
    SingleAttempt(c, server, "GET", path, Some(CategoryParams(CategoryValue(category))), None, None, true);
    if Rejected(first) then
      SingleAttempt(first.client, server, "GET", path, Some(CategoryParams(RetryCategory)), None, None, true);
      Get(first.client, server, path, Some(CategoryParams(RetryCategory)), None)
    else first
  }

  /** For a client that already holds a token, a server that rejects the
      category with a 422 and then accepts the fallback yields the second
      response, after exactly two requests and no credential exchange. */
  lemma RejectedCategoryRecovers(c: Client, server: Server, id: int, category: Choice<CapitalProviderCategory>)
    requires Valid(c) && Truthy(c.token)
    requires server(|c.sent|, FirstAttempt(c, server, id, category).client.sent[|c.sent|].req).status == 422
    requires IsSuccess(server(|c.sent| + 1, FirstAttempt(c, server, id, category).client.sent[|c.sent|].req.(params := Some(CategoryParams(RetryCategory)))).status)
    ensures var call := CapitalProviderById(c, server, id, category);
      && call.result.Ok?
      && |call.client.sent| == |c.sent| + 2
      && call.client.sent[|c.sent|].ApiCall? && call.client.sent[|c.sent| + 1].ApiCall?
      && call.client.sent[|c.sent| + 1].req.params == Some(CategoryParams(RetryCategory))
  {
  }

  // ----- get_people ------------------------------------------------------------

  /** The `Accept` header both clients pass to `get_people` repeats the
      default one: the request goes out with the headers it would have had
      without it. */
  lemma PeopleHeadersRedundant(bearer: Option<string>)
    ensures MergeHeaders(Some(PeopleHeaders), bearer) == MergeHeaders(None, bearer)
  {
  }
}
