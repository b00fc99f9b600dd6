/** The query parameters each list method of the SDK sends. The two clients
    (`AlternativesPE` and `AsyncAlternativesPE`) build them with the same
    code for every method here; for `get_companies` they differ only in how
    a `countries` list is joined, so `CompanyParams` takes that entry from
    the `SyncClient` or `AsyncClient` module.

    Every method has a specification predicate (`...Spec`) that says, key
    by key, whether a filter is sent and with which value, and that no
    other key is: `Sent(r, key, x)` holds when the key is present exactly
    when `x` is a value, and then holds it. A builder fills a few groups of
    distinct keys, each group in the order of the source's `if` statements,
    and merges them (a Python dict filled key by key with distinct keys is
    the union of its groups). Each group comes with a `...Kept` lemma: what
    it says about its keys survives any merge that leaves those keys alone. */
module ListParams {
  import opened Outcomes
  import opened Enums
  import opened Query

  /** The wire form of an optional enum filter, `if x: params[k] = x.value`:
      no member's value is empty, so it is omitted only when `None`. */
  function EnumFilter<E>(o: Option<E>, wire: E -> string): Option<ParamValue> {
    if o.Some? then Some(PStr(wire(o.value))) else None
  }

  /** `x.value` of an optional enum, before the `if x:` test. */
  function EnumText<E>(o: Option<E>, wire: E -> string): Option<string> {
    if o.Some? then Some(wire(o.value)) else None
  }

  /** `female_founder`: a boolean sent as `"1"` or `"0"` whenever given. */
  function BoolFilter(o: Option<bool>): Option<ParamValue> {
    if o.Some? then Some(PStr(if o.value then "1" else "0")) else None
  }

  // ----- groups shared by several methods --------------------------------

  const PagingKeys: set<string> := {"limit", "offset"}

  /** `min(limit, 100)` and `offset` are always sent. */
  predicate PagingSent(limit: int, offset: int, r: Params) {
    Sent(r, "limit", Some(PInt(Clamp(limit)))) && Sent(r, "offset", Some(PInt(offset)))
  }

  lemma PagingKept(limit: int, offset: int, p: Params, r: Params)
    requires PagingSent(limit, offset, p) && Agrees(r, p, PagingKeys)
    ensures PagingSent(limit, offset, r)
  {
  }

  const OrderingKeys: set<string> := {"order_by", "order_direction", "query"}

  /** `order_by` and `order_direction` typed as optional enums, and `query`. */
  predicate OrderingSent(orderBy: Option<OrderBy>, orderDirection: Option<OrderDirection>, query: Option<string>, r: Params) {
    && Sent(r, "order_by", EnumFilter(orderBy, (e: OrderBy) => e.Wire()))
    && Sent(r, "order_direction", EnumFilter(orderDirection, (e: OrderDirection) => e.Wire()))
    && Sent(r, "query", TextFilter(query))
  }

  function OptionalOrdering(orderBy: Option<OrderBy>, orderDirection: Option<OrderDirection>, query: Option<string>): (r: Params)
    ensures r.Keys <= OrderingKeys
    ensures OrderingSent(orderBy, orderDirection, query, r)
  {
    WireNonEmpty();
    var p0 := PutText(map[], "order_by", EnumText(orderBy, (e: OrderBy) => e.Wire()));
    var p1 := PutText(p0, "order_direction", EnumText(orderDirection, (e: OrderDirection) => e.Wire()));
    PutText(p1, "query", query)
  }

  lemma OrderingKept(orderBy: Option<OrderBy>, orderDirection: Option<OrderDirection>, query: Option<string>, p: Params, r: Params)
    requires OrderingSent(orderBy, orderDirection, query, p) && Agrees(r, p, OrderingKeys)
    ensures OrderingSent(orderBy, orderDirection, query, r)
  {
  }

  const FixedOrderingKeys: set<string> := {"order_by", "order_direction"}

  /** `order_by` and `order_direction` typed `str | Enum`: always sent, as
      the member's value or as the string itself. */
  predicate FixedOrderingSent<E>(orderBy: Choice<E>, orderDirection: Choice<OrderDirection>, wire: E -> string, r: Params) {
    && Sent(r, "order_by", Some(PStr(ChoiceValue(orderBy, wire))))
    && Sent(r, "order_direction", Some(PStr(ChoiceValue(orderDirection, (e: OrderDirection) => e.Wire()))))
  }

  function FixedOrdering<E>(orderBy: Choice<E>, orderDirection: Choice<OrderDirection>, wire: E -> string): (r: Params)
    ensures r.Keys == FixedOrderingKeys
    ensures FixedOrderingSent(orderBy, orderDirection, wire, r)
  {
    map["order_by" := PStr(ChoiceValue(orderBy, wire)),
        "order_direction" := PStr(ChoiceValue(orderDirection, (e: OrderDirection) => e.Wire()))]
  }

  lemma FixedOrderingKept<E>(orderBy: Choice<E>, orderDirection: Choice<OrderDirection>, wire: E -> string, p: Params, r: Params)
    requires FixedOrderingSent(orderBy, orderDirection, wire, p) && Agrees(r, p, FixedOrderingKeys)
    ensures FixedOrderingSent(orderBy, orderDirection, wire, r)
  {
  }

  /** An order direction passed as a member or as its value sends the same
      parameters, and the text sent reads back as the member. */
  lemma DirectionChoiceRoundTrip<E>(orderBy: Choice<E>, d: OrderDirection, wire: E -> string)
    ensures FixedOrdering(orderBy, Raw(d.Wire()), wire) == FixedOrdering(orderBy, Member(d), wire)
    ensures ParseOrderDirection(FixedOrdering(orderBy, Member(d), wire)["order_direction"].s) == Some(d)
  {
    OrderDirectionRoundTrip(d);
  }

  // ----- companies -------------------------------------------------------

  /** One entry of a `countries` list: a `CountryCode` member, or a plain
      string the caller put there in spite of the annotation. */
  datatype CountryItem = Code(code: CountryCode) | Plain(s: string)

  /** `countries: str | list[CountryCode]`. */
  datatype Countries = CountriesText(text: string) | CountriesList(items: seq<CountryItem>)

  /** Truthiness of the `countries` argument. */
  predicate CountriesTruthy(c: Countries) {
    match c
    case CountriesText(s) => s != ""
    case CountriesList(items) => |items| > 0
  }

  datatype CompanyQuery = CompanyQuery(
    limit: int,
    offset: int,
    orderBy: Option<OrderBy>,
    orderDirection: Option<OrderDirection>,
    query: Option<string>,
    countries: Option<Countries>,
    sectors: Option<IdsFilter>,
    themes: Option<IdsFilter>,
    investmentStage: Option<InvestmentStage>,
    valuationMin: Option<real>,
    valuationMax: Option<real>,
    totalFundingMin: Option<real>,
    totalFundingMax: Option<real>,
    revenueMin: Option<real>,
    revenueMax: Option<real>,
    revenueGrowthMin: Option<real>,
    revenueGrowthMax: Option<real>,
    status: Option<CompanyStatus>,
    femaleFounder: Option<bool>,
    responseType: Option<ResponseType>,
    coType: Option<CompanyType>,
    isoCode: Option<CountryCode>)

  /** The arguments of a bare `get_companies()` call. */
  const DefaultCompanyQuery: CompanyQuery := CompanyQuery(
    100, 0, None, Some(Asc), None, None, None, None, None,
    None, None, None, None, None, None, None, None,
    None, None, Some(Simple), None, None)

  const CountriesKeys: set<string> := {"countries"}

  /** The `countries` entry a client computed, as a group of its own. */
  function CountriesPart(countries: Option<ParamValue>): (r: Params)
    ensures r.Keys <= CountriesKeys
    ensures Sent(r, "countries", countries)
  {
    if countries.Some? then map["countries" := countries.value] else map[]
  }

  lemma CountriesKept(countries: Option<ParamValue>, p: Params, r: Params)
    requires Sent(p, "countries", countries) && Agrees(r, p, CountriesKeys)
    ensures Sent(r, "countries", countries)
  {
  }

  const CompanyIdListKeys: set<string> := {"sectors", "themes", "investment_stage"}

  predicate CompanyIdListsSent(q: CompanyQuery, r: Params) {
    && Sent(r, "sectors", IdsFilterOf(q.sectors))
    && Sent(r, "themes", IdsFilterOf(q.themes))
    && Sent(r, "investment_stage", EnumFilter(q.investmentStage, (e: InvestmentStage) => e.Wire()))
  }

  function CompanyIdLists(q: CompanyQuery): (r: Params)
    ensures r.Keys <= CompanyIdListKeys
    ensures CompanyIdListsSent(q, r)
  {
    WireNonEmpty();
    var p0 := PutIds(map[], "sectors", q.sectors);
    var p1 := PutIds(p0, "themes", q.themes);
    PutText(p1, "investment_stage", EnumText(q.investmentStage, (e: InvestmentStage) => e.Wire()))
  }

  lemma CompanyIdListsKept(q: CompanyQuery, p: Params, r: Params)
    requires CompanyIdListsSent(q, p) && Agrees(r, p, CompanyIdListKeys)
    ensures CompanyIdListsSent(q, r)
  {
  }

  const CompanyMoneyKeys: set<string> := {"valuation_min", "valuation_max", "total_funding_min", "total_funding_max"}

  predicate CompanyMoneySent(q: CompanyQuery, r: Params) {
    && Sent(r, "valuation_min", FloatFilter(q.valuationMin))
    && Sent(r, "valuation_max", FloatFilter(q.valuationMax))
    && Sent(r, "total_funding_min", FloatFilter(q.totalFundingMin))
    && Sent(r, "total_funding_max", FloatFilter(q.totalFundingMax))
  }

  function CompanyMoney(q: CompanyQuery): (r: Params)
    ensures r.Keys <= CompanyMoneyKeys
    ensures CompanyMoneySent(q, r)
  {
    var p0 := PutFloat(map[], "valuation_min", q.valuationMin);
    var p1 := PutFloat(p0, "valuation_max", q.valuationMax);
    var p2 := PutFloat(p1, "total_funding_min", q.totalFundingMin);
    PutFloat(p2, "total_funding_max", q.totalFundingMax)
  }

  lemma CompanyMoneyKept(q: CompanyQuery, p: Params, r: Params)
    requires CompanyMoneySent(q, p) && Agrees(r, p, CompanyMoneyKeys)
    ensures CompanyMoneySent(q, r)
  {
  }

  const CompanyRevenueKeys: set<string> := {"revenue_min", "revenue_max", "revenue_growth_min", "revenue_growth_max"}

  predicate CompanyRevenueSent(q: CompanyQuery, r: Params) {
    && Sent(r, "revenue_min", FloatFilter(q.revenueMin))
    && Sent(r, "revenue_max", FloatFilter(q.revenueMax))
    && Sent(r, "revenue_growth_min", FloatFilter(q.revenueGrowthMin))
    && Sent(r, "revenue_growth_max", FloatFilter(q.revenueGrowthMax))
  }

  function CompanyRevenue(q: CompanyQuery): (r: Params)
    ensures r.Keys <= CompanyRevenueKeys
    ensures CompanyRevenueSent(q, r)
  {
    var p0 := PutFloat(map[], "revenue_min", q.revenueMin);
    var p1 := PutFloat(p0, "revenue_max", q.revenueMax);
    var p2 := PutFloat(p1, "revenue_growth_min", q.revenueGrowthMin);
    PutFloat(p2, "revenue_growth_max", q.revenueGrowthMax)
  }

  lemma CompanyRevenueKept(q: CompanyQuery, p: Params, r: Params)
    requires CompanyRevenueSent(q, p) && Agrees(r, p, CompanyRevenueKeys)
    ensures CompanyRevenueSent(q, r)
  {
  }

  const CompanyTagKeys: set<string> := {"status", "female_founder", "response_type"}

  predicate CompanyTagsSent(q: CompanyQuery, r: Params) {
    && Sent(r, "status", EnumFilter(q.status, (e: CompanyStatus) => e.Wire()))
    && Sent(r, "female_founder", BoolFilter(q.femaleFounder))
    && Sent(r, "response_type", EnumFilter(q.responseType, (e: ResponseType) => e.Wire()))
  }

  function CompanyTags(q: CompanyQuery): (r: Params)
    ensures r.Keys <= CompanyTagKeys
    ensures CompanyTagsSent(q, r)
  {
    WireNonEmpty();
    var p0 := PutText(map[], "status", EnumText(q.status, (e: CompanyStatus) => e.Wire()));
    var p1 := if q.femaleFounder.Some? then p0["female_founder" := PStr(if q.femaleFounder.value then "1" else "0")] else p0;
    PutText(p1, "response_type", EnumText(q.responseType, (e: ResponseType) => e.Wire()))
  }

  lemma CompanyTagsKept(q: CompanyQuery, p: Params, r: Params)
    requires CompanyTagsSent(q, p) && Agrees(r, p, CompanyTagKeys)
    ensures CompanyTagsSent(q, r)
  {
  }

  const CompanyOriginKeys: set<string> := {"co_type", "iso_code"}

  predicate CompanyOriginSent(q: CompanyQuery, r: Params) {
    && Sent(r, "co_type", EnumFilter(q.coType, (e: CompanyType) => e.Wire()))
    && Sent(r, "iso_code", EnumFilter(q.isoCode, (e: CountryCode) => e.Wire()))
  }

  function CompanyOrigin(q: CompanyQuery): (r: Params)
    ensures r.Keys <= CompanyOriginKeys
    ensures CompanyOriginSent(q, r)
  {
    WireNonEmpty();
    var p0 := PutText(map[], "co_type", EnumText(q.coType, (e: CompanyType) => e.Wire()));
    PutText(p0, "iso_code", EnumText(q.isoCode, (e: CountryCode) => e.Wire()))
  }

  lemma CompanyOriginKept(q: CompanyQuery, p: Params, r: Params)
    requires CompanyOriginSent(q, p) && Agrees(r, p, CompanyOriginKeys)
    ensures CompanyOriginSent(q, r)
  {
  }

  // The groups of `get_companies` are merged in two steps: the always-present
  // head with `countries`, the categorical filters, and the numeric ranges.

  const CompanyHeadKeys: set<string> := PagingKeys + OrderingKeys + CountriesKeys

  predicate CompanyHeadSent(q: CompanyQuery, countries: Option<ParamValue>, r: Params) {
    && PagingSent(q.limit, q.offset, r)
    && OrderingSent(q.orderBy, q.orderDirection, q.query, r)
    && Sent(r, "countries", countries)
  }

  function CompanyHead(q: CompanyQuery, countries: Option<ParamValue>, paging: Params, ordering: Params, c: Params): (r: Params)
    requires paging.Keys <= PagingKeys && PagingSent(q.limit, q.offset, paging)
    requires ordering.Keys <= OrderingKeys && OrderingSent(q.orderBy, q.orderDirection, q.query, ordering)
    requires c.Keys <= CountriesKeys && Sent(c, "countries", countries)
    ensures r.Keys <= CompanyHeadKeys
    ensures CompanyHeadSent(q, countries, r)
  {
    var u := paging + ordering + c;
    assert PagingKeys !! OrderingKeys && (PagingKeys + OrderingKeys) !! CountriesKeys;
    PagingKept(q.limit, q.offset, paging, u);
    OrderingKept(q.orderBy, q.orderDirection, q.query, ordering, u);
    CountriesKept(countries, c, u);
    u
  }

  lemma CompanyHeadKept(q: CompanyQuery, countries: Option<ParamValue>, p: Params, r: Params)
    requires CompanyHeadSent(q, countries, p) && Agrees(r, p, CompanyHeadKeys)
    ensures CompanyHeadSent(q, countries, r)
  {
  }

  const CompanyLabelKeys: set<string> := CompanyIdListKeys + CompanyTagKeys + CompanyOriginKeys

  predicate CompanyLabelsSent(q: CompanyQuery, r: Params) {
    CompanyIdListsSent(q, r) && CompanyTagsSent(q, r) && CompanyOriginSent(q, r)
  }

  function CompanyLabels(q: CompanyQuery, ids: Params, tags: Params, origin: Params): (r: Params)
    requires ids.Keys <= CompanyIdListKeys && CompanyIdListsSent(q, ids)
    requires tags.Keys <= CompanyTagKeys && CompanyTagsSent(q, tags)
    requires origin.Keys <= CompanyOriginKeys && CompanyOriginSent(q, origin)
    ensures r.Keys <= CompanyLabelKeys
    ensures CompanyLabelsSent(q, r)
  {
    var u := ids + tags + origin;
    assert CompanyIdListKeys !! CompanyTagKeys && (CompanyIdListKeys + CompanyTagKeys) !! CompanyOriginKeys;
    CompanyIdListsKept(q, ids, u);
    CompanyTagsKept(q, tags, u);
    CompanyOriginKept(q, origin, u);
    u
  }

  lemma CompanyLabelsKept(q: CompanyQuery, p: Params, r: Params)
    requires CompanyLabelsSent(q, p) && Agrees(r, p, CompanyLabelKeys)
    ensures CompanyLabelsSent(q, r)
  {
  }

  const CompanyFigureKeys: set<string> := CompanyMoneyKeys + CompanyRevenueKeys

  predicate CompanyFiguresSent(q: CompanyQuery, r: Params) {
    CompanyMoneySent(q, r) && CompanyRevenueSent(q, r)
  }

  function CompanyFigures(q: CompanyQuery, money: Params, revenue: Params): (r: Params)
    requires money.Keys <= CompanyMoneyKeys && CompanyMoneySent(q, money)
    requires revenue.Keys <= CompanyRevenueKeys && CompanyRevenueSent(q, revenue)
    ensures r.Keys <= CompanyFigureKeys
    ensures CompanyFiguresSent(q, r)
  {
    var u := money + revenue;
    assert CompanyMoneyKeys !! CompanyRevenueKeys;
    CompanyMoneyKept(q, money, u);
    CompanyRevenueKept(q, revenue, u);
    u
  }

  lemma CompanyFiguresKept(q: CompanyQuery, p: Params, r: Params)
    requires CompanyFiguresSent(q, p) && Agrees(r, p, CompanyFigureKeys)
    ensures CompanyFiguresSent(q, r)
  {
  }

  const CompanyKeys: set<string> := CompanyHeadKeys + CompanyLabelKeys + CompanyFigureKeys

  /** The three merged parts of `get_companies` have no key in common. */
  lemma CompanyHeadApart()
    ensures CompanyHeadKeys !! CompanyLabelKeys
    ensures CompanyHeadKeys !! CompanyFigureKeys
  {
  }

  lemma CompanyLabelsApart()
    ensures CompanyLabelKeys !! CompanyFigureKeys
  {
  }

  /** What `get_companies` sends, given the `countries` entry (if any) the
      client computed from its argument. */
  predicate CompanySpec(q: CompanyQuery, countries: Option<ParamValue>, r: Params) {
    && r.Keys <= CompanyKeys
    && PagingSent(q.limit, q.offset, r)
    && OrderingSent(q.orderBy, q.orderDirection, q.query, r)
    && Sent(r, "countries", countries)
    && CompanyIdListsSent(q, r)
    && CompanyMoneySent(q, r)
    && CompanyRevenueSent(q, r)
    && CompanyTagsSent(q, r)
    && CompanyOriginSent(q, r)
  }

  function CompanyUnion(q: CompanyQuery, countries: Option<ParamValue>, head: Params, labels: Params, figures: Params): (r: Params)
    requires head.Keys <= CompanyHeadKeys && CompanyHeadSent(q, countries, head)
    requires labels.Keys <= CompanyLabelKeys && CompanyLabelsSent(q, labels)
    requires figures.Keys <= CompanyFigureKeys && CompanyFiguresSent(q, figures)
    ensures CompanySpec(q, countries, r)
  {
    var u := head + labels + figures;
    CompanyHeadApart();
    CompanyLabelsApart();
    CompanyHeadKept(q, countries, head, u);
    CompanyLabelsKept(q, labels, u);
    CompanyFiguresKept(q, figures, u);
    u
  }

  /** `get_companies`, around the `countries` entry a client computed. */
  function CompanyParams(q: CompanyQuery, countries: Option<ParamValue>): (r: Params)
    ensures CompanySpec(q, countries, r)
  {
    CompanyUnion(q, countries,
      CompanyHead(q, countries, Paging(q.limit, q.offset), OptionalOrdering(q.orderBy, q.orderDirection, q.query),
        CountriesPart(countries)),
      CompanyLabels(q, CompanyIdLists(q), CompanyTags(q), CompanyOrigin(q)),
      CompanyFigures(q, CompanyMoney(q), CompanyRevenue(q)))
  }

  // ----- investors -------------------------------------------------------

  datatype InvestorQuery = InvestorQuery(
    limit: int,
    offset: int,
    orderBy: Option<OrderBy>,
    orderDirection: Option<OrderDirection>,
    query: Option<string>,
    sectors: Option<int>,
    themes: Option<string>,
    investedInStage: Option<InvestmentStage>,
    investedOnFrom: Option<string>,
    investedOnTo: Option<string>,
    responseType: Option<ResponseType>)

  const InvestorTopicKeys: set<string> := {"sectors", "themes", "invested_in_stage"}

  /** Unlike `get_companies`, `sectors` is a single id, sent whenever given
      (so `0` is sent), and `themes` a plain string. */
  predicate InvestorTopicsSent(q: InvestorQuery, r: Params) {
    && Sent(r, "sectors", IntFilter(q.sectors))
    && Sent(r, "themes", TextFilter(q.themes))
    && Sent(r, "invested_in_stage", EnumFilter(q.investedInStage, (e: InvestmentStage) => e.Wire()))
  }

  function InvestorTopics(q: InvestorQuery): (r: Params)
    ensures r.Keys <= InvestorTopicKeys
    ensures InvestorTopicsSent(q, r)
  {
    WireNonEmpty();
    var p0 := PutInt(map[], "sectors", q.sectors);
    var p1 := PutText(p0, "themes", q.themes);
    PutText(p1, "invested_in_stage", EnumText(q.investedInStage, (e: InvestmentStage) => e.Wire()))
  }

  lemma InvestorTopicsKept(q: InvestorQuery, p: Params, r: Params)
    requires InvestorTopicsSent(q, p) && Agrees(r, p, InvestorTopicKeys)
    ensures InvestorTopicsSent(q, r)
  {
  }

  const InvestorWindowKeys: set<string> := {"invested_on_from", "invested_on_to", "response_type"}

  predicate InvestorWindowSent(q: InvestorQuery, r: Params) {
    && Sent(r, "invested_on_from", TextFilter(q.investedOnFrom))
    && Sent(r, "invested_on_to", TextFilter(q.investedOnTo))
    && Sent(r, "response_type", EnumFilter(q.responseType, (e: ResponseType) => e.Wire()))
  }

  function InvestorWindow(q: InvestorQuery): (r: Params)
    ensures r.Keys <= InvestorWindowKeys
    ensures InvestorWindowSent(q, r)
  {
    WireNonEmpty();
    var p0 := PutText(map[], "invested_on_from", q.investedOnFrom);
    var p1 := PutText(p0, "invested_on_to", q.investedOnTo);
    PutText(p1, "response_type", EnumText(q.responseType, (e: ResponseType) => e.Wire()))
  }

  lemma InvestorWindowKept(q: InvestorQuery, p: Params, r: Params)
    requires InvestorWindowSent(q, p) && Agrees(r, p, InvestorWindowKeys)
    ensures InvestorWindowSent(q, r)
  {
  }

  const InvestorKeys: set<string> := PagingKeys + OrderingKeys + InvestorTopicKeys + InvestorWindowKeys

  /** The key groups of `get_investors` have no key in common. */
  lemma InvestorGroupsApart()
    ensures PagingKeys !! OrderingKeys
    ensures (PagingKeys + OrderingKeys) !! InvestorTopicKeys
    ensures (PagingKeys + OrderingKeys + InvestorTopicKeys) !! InvestorWindowKeys
  {
  }

  /** What `get_investors` sends. */
  predicate InvestorSpec(q: InvestorQuery, r: Params) {
    && r.Keys <= InvestorKeys
    && PagingSent(q.limit, q.offset, r)
    && OrderingSent(q.orderBy, q.orderDirection, q.query, r)
    && InvestorTopicsSent(q, r)
    && InvestorWindowSent(q, r)
  }

  function InvestorUnion(q: InvestorQuery, paging: Params, ordering: Params, topics: Params, window: Params): (r: Params)
    requires paging.Keys <= PagingKeys && PagingSent(q.limit, q.offset, paging)
    requires ordering.Keys <= OrderingKeys && OrderingSent(q.orderBy, q.orderDirection, q.query, ordering)
    requires topics.Keys <= InvestorTopicKeys && InvestorTopicsSent(q, topics)
    requires window.Keys <= InvestorWindowKeys && InvestorWindowSent(q, window)
    ensures InvestorSpec(q, r)
  {
    var u := paging + ordering + topics + window;
    InvestorGroupsApart();
    PagingKept(q.limit, q.offset, paging, u);
    OrderingKept(q.orderBy, q.orderDirection, q.query, ordering, u);
    InvestorTopicsKept(q, topics, u);
    InvestorWindowKept(q, window, u);
    u
  }

  function InvestorParams(q: InvestorQuery): (r: Params)
    ensures InvestorSpec(q, r)
  {
    InvestorUnion(q, Paging(q.limit, q.offset), OptionalOrdering(q.orderBy, q.orderDirection, q.query),
      InvestorTopics(q), InvestorWindow(q))
  }

  /** `sectors` is an integer guarded by `is not None`, `themes` a string
      guarded by truthiness: a zero sector is sent, an empty theme is not. */
  lemma InvestorZeroSectorEmptyTheme(q: InvestorQuery)
    requires q.sectors == Some(0) && q.themes == Some("")
    ensures "sectors" in InvestorParams(q) && InvestorParams(q)["sectors"] == PInt(0)
    ensures "themes" !in InvestorParams(q)
  {
  }

  // ----- directors, founders, auditors ------------------------------------

  datatype BasicListQuery = BasicListQuery(
    limit: int,
    offset: int,
    orderBy: Option<OrderBy>,
    orderDirection: Option<OrderDirection>,
    query: Option<string>)

  /** What `get_directors`, `get_founders` and `get_auditors` send. */
  predicate BasicListSpec(q: BasicListQuery, r: Params) {
    && r.Keys <= PagingKeys + OrderingKeys
    && PagingSent(q.limit, q.offset, r)
    && OrderingSent(q.orderBy, q.orderDirection, q.query, r)
  }

  function BasicListParams(q: BasicListQuery): (r: Params)
    ensures BasicListSpec(q, r)
  {
    Paging(q.limit, q.offset) + OptionalOrdering(q.orderBy, q.orderDirection, q.query)
  }

  // ----- capital providers -----------------------------------------------

  datatype CapitalProviderQuery = CapitalProviderQuery(
    limit: int,
    offset: int,
    orderBy: Choice<CapitalProviderOrderBy>,
    orderDirection: Choice<OrderDirection>,
    query: Option<string>,
    registrationNumber: Option<string>,
    category: Option<Choice<CapitalProviderCategory>>,
    hq: Option<int>,
    preferredLocation: Option<int>,
    preferredFundType: Option<int>,
    preferredSector: Option<int>,
    preferredTheme: Option<int>)

  /** A `category` argument's value: `.value` of a member, else the string. */
  function CategoryValue(c: Choice<CapitalProviderCategory>): string {
    ChoiceValue(c, (e: CapitalProviderCategory) => e.Wire())
  }

  /** The wire form of the optional `category` filter: sent when truthy. */
  function CategoryFilter(c: Option<Choice<CapitalProviderCategory>>): Option<ParamValue> {
    if c.Some? then TextFilter(Some(CategoryValue(c.value))) else None
  }

  const CapitalProviderTextKeys: set<string> := {"query", "registration_number", "category"}

  predicate CapitalProviderTextSent(q: CapitalProviderQuery, r: Params) {
    && Sent(r, "query", TextFilter(q.query))
    && Sent(r, "registration_number", TextFilter(q.registrationNumber))
    && Sent(r, "category", CategoryFilter(q.category))
  }

  function CapitalProviderText(q: CapitalProviderQuery): (r: Params)
    ensures r.Keys <= CapitalProviderTextKeys
    ensures CapitalProviderTextSent(q, r)
  {
    var p0 := PutText(map[], "query", q.query);
    var p1 := PutText(p0, "registration_number", q.registrationNumber);
    PutText(p1, "category", if q.category.Some? then Some(CategoryValue(q.category.value)) else None)
  }

  lemma CapitalProviderTextKept(q: CapitalProviderQuery, p: Params, r: Params)
    requires CapitalProviderTextSent(q, p) && Agrees(r, p, CapitalProviderTextKeys)
    ensures CapitalProviderTextSent(q, r)
  {
  }

  const CapitalProviderPlaceKeys: set<string> := {"hq", "preferred_location"}

  predicate CapitalProviderPlacesSent(q: CapitalProviderQuery, r: Params) {
    && Sent(r, "hq", IntFilter(q.hq))
    && Sent(r, "preferred_location", IntFilter(q.preferredLocation))
  }

  function CapitalProviderPlaces(q: CapitalProviderQuery): (r: Params)
    ensures r.Keys <= CapitalProviderPlaceKeys
    ensures CapitalProviderPlacesSent(q, r)
  {
    var p0 := PutInt(map[], "hq", q.hq);
    PutInt(p0, "preferred_location", q.preferredLocation)
  }

  lemma CapitalProviderPlacesKept(q: CapitalProviderQuery, p: Params, r: Params)
    requires CapitalProviderPlacesSent(q, p) && Agrees(r, p, CapitalProviderPlaceKeys)
    ensures CapitalProviderPlacesSent(q, r)
  {
  }

  const CapitalProviderPreferenceKeys: set<string> := {"preferred_fund_type", "preferred_sector", "preferred_theme"}

  predicate CapitalProviderPreferencesSent(q: CapitalProviderQuery, r: Params) {
    && Sent(r, "preferred_fund_type", IntFilter(q.preferredFundType))
    && Sent(r, "preferred_sector", IntFilter(q.preferredSector))
    && Sent(r, "preferred_theme", IntFilter(q.preferredTheme))
  }

  function CapitalProviderPreferences(q: CapitalProviderQuery): (r: Params)
    ensures r.Keys <= CapitalProviderPreferenceKeys
    ensures CapitalProviderPreferencesSent(q, r)
  {
    var p0 := PutInt(map[], "preferred_fund_type", q.preferredFundType);
    var p1 := PutInt(p0, "preferred_sector", q.preferredSector);
    PutInt(p1, "preferred_theme", q.preferredTheme)
  }

  lemma CapitalProviderPreferencesKept(q: CapitalProviderQuery, p: Params, r: Params)
    requires CapitalProviderPreferencesSent(q, p) && Agrees(r, p, CapitalProviderPreferenceKeys)
    ensures CapitalProviderPreferencesSent(q, r)
  {
  }

  // The groups of `get_capital_providers` are merged in two steps: the
  // always-present head with the text filters, then the id filters.

  const CapitalProviderHeadKeys: set<string> := PagingKeys + FixedOrderingKeys + CapitalProviderTextKeys

  predicate CapitalProviderHeadSent(q: CapitalProviderQuery, r: Params) {
    && PagingSent(q.limit, q.offset, r)
    && FixedOrderingSent(q.orderBy, q.orderDirection, (e: CapitalProviderOrderBy) => e.Wire(), r)
    && CapitalProviderTextSent(q, r)
  }

  function CapitalProviderHead(q: CapitalProviderQuery, paging: Params, ordering: Params, text: Params): (r: Params)
    requires paging.Keys <= PagingKeys && PagingSent(q.limit, q.offset, paging)
    requires ordering.Keys <= FixedOrderingKeys
    requires FixedOrderingSent(q.orderBy, q.orderDirection, (e: CapitalProviderOrderBy) => e.Wire(), ordering)
    requires text.Keys <= CapitalProviderTextKeys && CapitalProviderTextSent(q, text)
    ensures r.Keys <= CapitalProviderHeadKeys
    ensures CapitalProviderHeadSent(q, r)
  {
    var u := paging + ordering + text;
    assert PagingKeys !! FixedOrderingKeys && (PagingKeys + FixedOrderingKeys) !! CapitalProviderTextKeys;
    PagingKept(q.limit, q.offset, paging, u);
    FixedOrderingKept(q.orderBy, q.orderDirection, (e: CapitalProviderOrderBy) => e.Wire(), ordering, u);
    CapitalProviderTextKept(q, text, u);
    u
  }

  lemma CapitalProviderHeadKept(q: CapitalProviderQuery, p: Params, r: Params)
    requires CapitalProviderHeadSent(q, p) && Agrees(r, p, CapitalProviderHeadKeys)
    ensures CapitalProviderHeadSent(q, r)
  {
  }

  const CapitalProviderKeys: set<string> :=
    CapitalProviderHeadKeys + CapitalProviderPlaceKeys + CapitalProviderPreferenceKeys

  /** The merged parts of `get_capital_providers` have no key in common. */
  lemma CapitalProviderGroupsApart()
    ensures CapitalProviderHeadKeys !! CapitalProviderPlaceKeys
    ensures (CapitalProviderHeadKeys + CapitalProviderPlaceKeys) !! CapitalProviderPreferenceKeys
  {
  }

  /** What `get_capital_providers` sends. */
  predicate CapitalProviderSpec(q: CapitalProviderQuery, r: Params) {
    && r.Keys <= CapitalProviderKeys
    && PagingSent(q.limit, q.offset, r)
    && FixedOrderingSent(q.orderBy, q.orderDirection, (e: CapitalProviderOrderBy) => e.Wire(), r)
    && CapitalProviderTextSent(q, r)
    && CapitalProviderPlacesSent(q, r)
    && CapitalProviderPreferencesSent(q, r)
  }

  function CapitalProviderUnion(q: CapitalProviderQuery, head: Params, places: Params, preferences: Params): (r: Params)
    requires head.Keys <= CapitalProviderHeadKeys && CapitalProviderHeadSent(q, head)
    requires places.Keys <= CapitalProviderPlaceKeys && CapitalProviderPlacesSent(q, places)
    requires preferences.Keys <= CapitalProviderPreferenceKeys && CapitalProviderPreferencesSent(q, preferences)
    ensures CapitalProviderSpec(q, r)
  {
    var u := head + places + preferences;
    CapitalProviderGroupsApart();
    CapitalProviderHeadKept(q, head, u);
    CapitalProviderPlacesKept(q, places, u);
    CapitalProviderPreferencesKept(q, preferences, u);
    u
  }

  /** `get_capital_providers`. */
  function CapitalProviderParams(q: CapitalProviderQuery): (r: Params)
    ensures CapitalProviderSpec(q, r)
  {
    CapitalProviderUnion(q,
      CapitalProviderHead(q, Paging(q.limit, q.offset),
        FixedOrdering(q.orderBy, q.orderDirection, (e: CapitalProviderOrderBy) => e.Wire()), CapitalProviderText(q)),
      CapitalProviderPlaces(q), CapitalProviderPreferences(q))
  }

  /** An enum `category` is always sent, since no member's value is empty;
      only an empty plain string is dropped. */
  lemma CategoryMemberSent(q: CapitalProviderQuery)
    requires q.category.Some? && q.category.value.Member?
    ensures "category" in CapitalProviderParams(q)
    ensures CapitalProviderParams(q)["category"] == PStr(q.category.value.e.Wire())
  {
    WireNonEmpty();
  }

  /** A category passed as a member or as its value is sent as the same
      text, and that text reads back as the member. */
  lemma CategoryChoiceRoundTrip(e: CapitalProviderCategory)
    ensures CategoryValue(Raw(e.Wire())) == CategoryValue(Member(e))
    ensures ParseCapitalProviderCategory(CategoryValue(Member(e))) == Some(e)
  {
    CapitalProviderCategoryRoundTrip(e);
  }

  // ----- funds -----------------------------------------------------------

  datatype FundQuery = FundQuery(
    limit: int,
    offset: int,
    orderBy: Choice<FundOrderBy>,
    orderDirection: Choice<OrderDirection>,
    query: Option<string>,
    registrationNumber: Option<string>,
    vintageYearMin: Option<int>,
    vintageYearMax: Option<int>,
    fundType: Option<int>,
    sizeMin: Option<real>,
    sizeMax: Option<real>,
    netIrrMin: Option<real>,
    netIrrMax: Option<real>,
    netMultipleMin: Option<real>,
    netMultipleMax: Option<real>,
    dpiMin: Option<real>,
    dpiMax: Option<real>,
    rvpiMin: Option<real>,
    rvpiMax: Option<real>,
    lastReportQuarter: Option<string>,
    status: Option<string>)

  const FundTextKeys: set<string> := {"query", "registration_number", "last_report_quarter", "status"}

  predicate FundTextSent(q: FundQuery, r: Params) {
    && Sent(r, "query", TextFilter(q.query))
    && Sent(r, "registration_number", TextFilter(q.registrationNumber))
    && Sent(r, "last_report_quarter", TextFilter(q.lastReportQuarter))
    && Sent(r, "status", TextFilter(q.status))
  }

  function FundText(q: FundQuery): (r: Params)
    ensures r.Keys <= FundTextKeys
    ensures FundTextSent(q, r)
  {
    var p0 := PutText(map[], "query", q.query);
    var p1 := PutText(p0, "registration_number", q.registrationNumber);
    var p2 := PutText(p1, "last_report_quarter", q.lastReportQuarter);
    PutText(p2, "status", q.status)
  }

  lemma FundTextKept(q: FundQuery, p: Params, r: Params)
    requires FundTextSent(q, p) && Agrees(r, p, FundTextKeys)
    ensures FundTextSent(q, r)
  {
  }

  const FundIdKeys: set<string> := {"vintage_year_min", "vintage_year_max", "fund_type"}

  predicate FundIdsSent(q: FundQuery, r: Params) {
    && Sent(r, "vintage_year_min", IntFilter(q.vintageYearMin))
    && Sent(r, "vintage_year_max", IntFilter(q.vintageYearMax))
    && Sent(r, "fund_type", IntFilter(q.fundType))
  }

  function FundIds(q: FundQuery): (r: Params)
    ensures r.Keys <= FundIdKeys
    ensures FundIdsSent(q, r)
  {
    var p0 := PutInt(map[], "vintage_year_min", q.vintageYearMin);
    var p1 := PutInt(p0, "vintage_year_max", q.vintageYearMax);
    PutInt(p1, "fund_type", q.fundType)
  }

  lemma FundIdsKept(q: FundQuery, p: Params, r: Params)
    requires FundIdsSent(q, p) && Agrees(r, p, FundIdKeys)
    ensures FundIdsSent(q, r)
  {
  }

  const FundSizeKeys: set<string> := {"size_min", "size_max", "net_irr_min", "net_irr_max"}

  predicate FundSizesSent(q: FundQuery, r: Params) {
    && Sent(r, "size_min", FloatFilter(q.sizeMin))
    && Sent(r, "size_max", FloatFilter(q.sizeMax))
    && Sent(r, "net_irr_min", FloatFilter(q.netIrrMin))
    && Sent(r, "net_irr_max", FloatFilter(q.netIrrMax))
  }

  function FundSizes(q: FundQuery): (r: Params)
    ensures r.Keys <= FundSizeKeys
    ensures FundSizesSent(q, r)
  {
    var p0 := PutFloat(map[], "size_min", q.sizeMin);
    var p1 := PutFloat(p0, "size_max", q.sizeMax);
    var p2 := PutFloat(p1, "net_irr_min", q.netIrrMin);
    PutFloat(p2, "net_irr_max", q.netIrrMax)
  }

  lemma FundSizesKept(q: FundQuery, p: Params, r: Params)
    requires FundSizesSent(q, p) && Agrees(r, p, FundSizeKeys)
    ensures FundSizesSent(q, r)
  {
  }

  const FundMultipleKeys: set<string> := {"net_multiple_min", "net_multiple_max"}

  predicate FundMultiplesSent(q: FundQuery, r: Params) {
    && Sent(r, "net_multiple_min", FloatFilter(q.netMultipleMin))
    && Sent(r, "net_multiple_max", FloatFilter(q.netMultipleMax))
  }

  function FundMultiples(q: FundQuery): (r: Params)
    ensures r.Keys <= FundMultipleKeys
    ensures FundMultiplesSent(q, r)
  {
    var p0 := PutFloat(map[], "net_multiple_min", q.netMultipleMin);
    PutFloat(p0, "net_multiple_max", q.netMultipleMax)
  }

  lemma FundMultiplesKept(q: FundQuery, p: Params, r: Params)
    requires FundMultiplesSent(q, p) && Agrees(r, p, FundMultipleKeys)
    ensures FundMultiplesSent(q, r)
  {
  }

  const FundDistributionKeys: set<string> := {"dpi_min", "dpi_max", "rvpi_min", "rvpi_max"}

  predicate FundDistributionsSent(q: FundQuery, r: Params) {
    && Sent(r, "dpi_min", FloatFilter(q.dpiMin))
    && Sent(r, "dpi_max", FloatFilter(q.dpiMax))
    && Sent(r, "rvpi_min", FloatFilter(q.rvpiMin))
    && Sent(r, "rvpi_max", FloatFilter(q.rvpiMax))
  }

  function FundDistributions(q: FundQuery): (r: Params)
    ensures r.Keys <= FundDistributionKeys
    ensures FundDistributionsSent(q, r)
  {
    var p0 := PutFloat(map[], "dpi_min", q.dpiMin);
    var p1 := PutFloat(p0, "dpi_max", q.dpiMax);
    var p2 := PutFloat(p1, "rvpi_min", q.rvpiMin);
    PutFloat(p2, "rvpi_max", q.rvpiMax)
  }

  lemma FundDistributionsKept(q: FundQuery, p: Params, r: Params)
    requires FundDistributionsSent(q, p) && Agrees(r, p, FundDistributionKeys)
    ensures FundDistributionsSent(q, r)
  {
  }

  // The groups of `get_funds` are merged in two steps: the always-present
  // head with the text filters, then the numeric ranges.

  const FundHeadKeys: set<string> := PagingKeys + FixedOrderingKeys + FundTextKeys

  predicate FundHeadSent(q: FundQuery, r: Params) {
    && PagingSent(q.limit, q.offset, r)
    && FixedOrderingSent(q.orderBy, q.orderDirection, (e: FundOrderBy) => e.Wire(), r)
    && FundTextSent(q, r)
  }

  function FundHead(q: FundQuery, paging: Params, ordering: Params, text: Params): (r: Params)
    requires paging.Keys <= PagingKeys && PagingSent(q.limit, q.offset, paging)
    requires ordering.Keys <= FixedOrderingKeys
    requires FixedOrderingSent(q.orderBy, q.orderDirection, (e: FundOrderBy) => e.Wire(), ordering)
    requires text.Keys <= FundTextKeys && FundTextSent(q, text)
    ensures r.Keys <= FundHeadKeys
    ensures FundHeadSent(q, r)
  {
    var u := paging + ordering + text;
    assert PagingKeys !! FixedOrderingKeys && (PagingKeys + FixedOrderingKeys) !! FundTextKeys;
    PagingKept(q.limit, q.offset, paging, u);
    FixedOrderingKept(q.orderBy, q.orderDirection, (e: FundOrderBy) => e.Wire(), ordering, u);
    FundTextKept(q, text, u);
    u
  }

  lemma FundHeadKept(q: FundQuery, p: Params, r: Params)
    requires FundHeadSent(q, p) && Agrees(r, p, FundHeadKeys)
    ensures FundHeadSent(q, r)
  {
  }

  const FundRangeKeys: set<string> := FundIdKeys + FundSizeKeys + FundMultipleKeys + FundDistributionKeys

  predicate FundRangesSent(q: FundQuery, r: Params) {
    FundIdsSent(q, r) && FundSizesSent(q, r) && FundMultiplesSent(q, r) && FundDistributionsSent(q, r)
  }

  function FundRanges(q: FundQuery, ids: Params, sizes: Params, multiples: Params, distributions: Params): (r: Params)
    requires ids.Keys <= FundIdKeys && FundIdsSent(q, ids)
    requires sizes.Keys <= FundSizeKeys && FundSizesSent(q, sizes)
    requires multiples.Keys <= FundMultipleKeys && FundMultiplesSent(q, multiples)
    requires distributions.Keys <= FundDistributionKeys && FundDistributionsSent(q, distributions)
    ensures r.Keys <= FundRangeKeys
    ensures FundRangesSent(q, r)
  {
    var u := ids + sizes + multiples + distributions;
    FundRangesApart();
    FundIdsKept(q, ids, u);
    FundSizesKept(q, sizes, u);
    FundMultiplesKept(q, multiples, u);
    FundDistributionsKept(q, distributions, u);
    u
  }

  lemma FundRangesKept(q: FundQuery, p: Params, r: Params)
    requires FundRangesSent(q, p) && Agrees(r, p, FundRangeKeys)
    ensures FundRangesSent(q, r)
  {
  }

  /** The range groups of `get_funds` have no key in common. */
  lemma FundRangesApart()
    ensures FundIdKeys !! FundSizeKeys
    ensures (FundIdKeys + FundSizeKeys) !! FundMultipleKeys
    ensures (FundIdKeys + FundSizeKeys + FundMultipleKeys) !! FundDistributionKeys
  {
  }

  const FundKeys: set<string> := FundHeadKeys + FundRangeKeys

  /** The two merged parts of `get_funds` have no key in common. */
  lemma FundHeadApart()
    ensures FundHeadKeys !! FundRangeKeys
  {
  }

  /** What `get_funds` sends. */
  predicate FundSpec(q: FundQuery, r: Params) {
    && r.Keys <= FundKeys
    && PagingSent(q.limit, q.offset, r)
    && FixedOrderingSent(q.orderBy, q.orderDirection, (e: FundOrderBy) => e.Wire(), r)
    && FundTextSent(q, r)
    && FundIdsSent(q, r)
    && FundSizesSent(q, r)
    && FundMultiplesSent(q, r)
    && FundDistributionsSent(q, r)
  }

  function FundUnion(q: FundQuery, head: Params, ranges: Params): (r: Params)
    requires head.Keys <= FundHeadKeys && FundHeadSent(q, head)
    requires ranges.Keys <= FundRangeKeys && FundRangesSent(q, ranges)
    ensures FundSpec(q, r)
  {
    var u := head + ranges;
    FundHeadApart();
    FundHeadKept(q, head, u);
    FundRangesKept(q, ranges, u);
    u
  }

  function FundParams(q: FundQuery): (r: Params)
    ensures FundSpec(q, r)
  {
    FundUnion(q,
      FundHead(q, Paging(q.limit, q.offset), FixedOrdering(q.orderBy, q.orderDirection, (e: FundOrderBy) => e.Wire()),
        FundText(q)),
      FundRanges(q, FundIds(q), FundSizes(q), FundMultiples(q), FundDistributions(q)))
  }

  // ----- fund performances -----------------------------------------------

  datatype FundPerformanceQuery = FundPerformanceQuery(
    limit: int,
    offset: int,
    orderBy: Choice<FundPerformanceOrderBy>,
    orderDirection: Choice<OrderDirection>,
    query: Option<string>,
    fundId: Option<int>,
    reportingPeriod: Option<string>,
    irrMin: Option<real>,
    irrMax: Option<real>,
    dpiMin: Option<real>,
    dpiMax: Option<real>,
    rvpiMin: Option<real>,
    rvpiMax: Option<real>,
    netMultipleMin: Option<real>,
    netMultipleMax: Option<real>,
    netAssetsMin: Option<real>,
    netAssetsMax: Option<real>)

  const PerformanceSelectKeys: set<string> := {"query", "fund_id", "reporting_period"}

  predicate PerformanceSelectSent(q: FundPerformanceQuery, r: Params) {
    && Sent(r, "query", TextFilter(q.query))
    && Sent(r, "fund_id", IntFilter(q.fundId))
    && Sent(r, "reporting_period", TextFilter(q.reportingPeriod))
  }

  function PerformanceSelect(q: FundPerformanceQuery): (r: Params)
    ensures r.Keys <= PerformanceSelectKeys
    ensures PerformanceSelectSent(q, r)
  {
    var p0 := PutText(map[], "query", q.query);
    var p1 := PutInt(p0, "fund_id", q.fundId);
    PutText(p1, "reporting_period", q.reportingPeriod)
  }

  lemma PerformanceSelectKept(q: FundPerformanceQuery, p: Params, r: Params)
    requires PerformanceSelectSent(q, p) && Agrees(r, p, PerformanceSelectKeys)
    ensures PerformanceSelectSent(q, r)
  {
  }

  const PerformanceIrrKeys: set<string> := {"irr_min", "irr_max"}

  predicate PerformanceIrrSent(q: FundPerformanceQuery, r: Params) {
    && Sent(r, "irr_min", FloatFilter(q.irrMin))
    && Sent(r, "irr_max", FloatFilter(q.irrMax))
  }

  function PerformanceIrr(q: FundPerformanceQuery): (r: Params)
    ensures r.Keys <= PerformanceIrrKeys
    ensures PerformanceIrrSent(q, r)
  {
    var p0 := PutFloat(map[], "irr_min", q.irrMin);
    PutFloat(p0, "irr_max", q.irrMax)
  }

  lemma PerformanceIrrKept(q: FundPerformanceQuery, p: Params, r: Params)
    requires PerformanceIrrSent(q, p) && Agrees(r, p, PerformanceIrrKeys)
    ensures PerformanceIrrSent(q, r)
  {
  }

  const PerformanceDistributionKeys: set<string> := {"dpi_min", "dpi_max", "rvpi_min", "rvpi_max"}

  predicate PerformanceDistributionsSent(q: FundPerformanceQuery, r: Params) {
    && Sent(r, "dpi_min", FloatFilter(q.dpiMin))
    && Sent(r, "dpi_max", FloatFilter(q.dpiMax))
    && Sent(r, "rvpi_min", FloatFilter(q.rvpiMin))
    && Sent(r, "rvpi_max", FloatFilter(q.rvpiMax))
  }

  function PerformanceDistributions(q: FundPerformanceQuery): (r: Params)
    ensures r.Keys <= PerformanceDistributionKeys
    ensures PerformanceDistributionsSent(q, r)
  {
    var p0 := PutFloat(map[], "dpi_min", q.dpiMin);
    var p1 := PutFloat(p0, "dpi_max", q.dpiMax);
    var p2 := PutFloat(p1, "rvpi_min", q.rvpiMin);
    PutFloat(p2, "rvpi_max", q.rvpiMax)
  }

  lemma PerformanceDistributionsKept(q: FundPerformanceQuery, p: Params, r: Params)
    requires PerformanceDistributionsSent(q, p) && Agrees(r, p, PerformanceDistributionKeys)
    ensures PerformanceDistributionsSent(q, r)
  {
  }

  const PerformanceAssetKeys: set<string> := {"net_multiple_min", "net_multiple_max", "net_assets_min", "net_assets_max"}

  predicate PerformanceAssetsSent(q: FundPerformanceQuery, r: Params) {
    && Sent(r, "net_multiple_min", FloatFilter(q.netMultipleMin))
    && Sent(r, "net_multiple_max", FloatFilter(q.netMultipleMax))
    && Sent(r, "net_assets_min", FloatFilter(q.netAssetsMin))
    && Sent(r, "net_assets_max", FloatFilter(q.netAssetsMax))
  }

  function PerformanceAssets(q: FundPerformanceQuery): (r: Params)
    ensures r.Keys <= PerformanceAssetKeys
    ensures PerformanceAssetsSent(q, r)
  {
    var p0 := PutFloat(map[], "net_multiple_min", q.netMultipleMin);
    var p1 := PutFloat(p0, "net_multiple_max", q.netMultipleMax);
    var p2 := PutFloat(p1, "net_assets_min", q.netAssetsMin);
    PutFloat(p2, "net_assets_max", q.netAssetsMax)
  }

  lemma PerformanceAssetsKept(q: FundPerformanceQuery, p: Params, r: Params)
    requires PerformanceAssetsSent(q, p) && Agrees(r, p, PerformanceAssetKeys)
    ensures PerformanceAssetsSent(q, r)
  {
  }

  // The groups of `get_fund_performances` are merged in two steps: the
  // always-present head with the selection filters, then the ranges.

  const PerformanceHeadKeys: set<string> := PagingKeys + FixedOrderingKeys + PerformanceSelectKeys

  predicate PerformanceHeadSent(q: FundPerformanceQuery, r: Params) {
    && PagingSent(q.limit, q.offset, r)
    && FixedOrderingSent(q.orderBy, q.orderDirection, (e: FundPerformanceOrderBy) => e.Wire(), r)
    && PerformanceSelectSent(q, r)
  }

  function PerformanceHead(q: FundPerformanceQuery, paging: Params, ordering: Params, selection: Params): (r: Params)
    requires paging.Keys <= PagingKeys && PagingSent(q.limit, q.offset, paging)
    requires ordering.Keys <= FixedOrderingKeys
    requires FixedOrderingSent(q.orderBy, q.orderDirection, (e: FundPerformanceOrderBy) => e.Wire(), ordering)
    requires selection.Keys <= PerformanceSelectKeys && PerformanceSelectSent(q, selection)
    ensures r.Keys <= PerformanceHeadKeys
    ensures PerformanceHeadSent(q, r)
  {
    var u := paging + ordering + selection;
    assert PagingKeys !! FixedOrderingKeys && (PagingKeys + FixedOrderingKeys) !! PerformanceSelectKeys;
    PagingKept(q.limit, q.offset, paging, u);
    FixedOrderingKept(q.orderBy, q.orderDirection, (e: FundPerformanceOrderBy) => e.Wire(), ordering, u);
    PerformanceSelectKept(q, selection, u);
    u
  }

  lemma PerformanceHeadKept(q: FundPerformanceQuery, p: Params, r: Params)
    requires PerformanceHeadSent(q, p) && Agrees(r, p, PerformanceHeadKeys)
    ensures PerformanceHeadSent(q, r)
  {
  }

  const PerformanceRangeKeys: set<string> := PerformanceIrrKeys + PerformanceDistributionKeys + PerformanceAssetKeys

  predicate PerformanceRangesSent(q: FundPerformanceQuery, r: Params) {
    PerformanceIrrSent(q, r) && PerformanceDistributionsSent(q, r) && PerformanceAssetsSent(q, r)
  }

  function PerformanceRanges(q: FundPerformanceQuery, irr: Params, distributions: Params, assets: Params): (r: Params)
    requires irr.Keys <= PerformanceIrrKeys && PerformanceIrrSent(q, irr)
    requires distributions.Keys <= PerformanceDistributionKeys && PerformanceDistributionsSent(q, distributions)
    requires assets.Keys <= PerformanceAssetKeys && PerformanceAssetsSent(q, assets)
    ensures r.Keys <= PerformanceRangeKeys
    ensures PerformanceRangesSent(q, r)
  {
    var u := irr + distributions + assets;
    assert PerformanceIrrKeys !! PerformanceDistributionKeys;
    assert (PerformanceIrrKeys + PerformanceDistributionKeys) !! PerformanceAssetKeys;
    PerformanceIrrKept(q, irr, u);
    PerformanceDistributionsKept(q, distributions, u);
    PerformanceAssetsKept(q, assets, u);
    u
  }

  lemma PerformanceRangesKept(q: FundPerformanceQuery, p: Params, r: Params)
    requires PerformanceRangesSent(q, p) && Agrees(r, p, PerformanceRangeKeys)
    ensures PerformanceRangesSent(q, r)
  {
  }

  const FundPerformanceKeys: set<string> := PerformanceHeadKeys + PerformanceRangeKeys

  /** The two merged parts of `get_fund_performances` have no key in common. */
  lemma PerformanceHeadApart()
    ensures PerformanceHeadKeys !! PerformanceRangeKeys
  {
  }

  /** What `get_fund_performances` sends. */
  predicate FundPerformanceSpec(q: FundPerformanceQuery, r: Params) {
    && r.Keys <= FundPerformanceKeys
    && PagingSent(q.limit, q.offset, r)
    && FixedOrderingSent(q.orderBy, q.orderDirection, (e: FundPerformanceOrderBy) => e.Wire(), r)
    && PerformanceSelectSent(q, r)
    && PerformanceIrrSent(q, r)
    && PerformanceDistributionsSent(q, r)
    && PerformanceAssetsSent(q, r)
  }

  function FundPerformanceUnion(q: FundPerformanceQuery, head: Params, ranges: Params): (r: Params)
    requires head.Keys <= PerformanceHeadKeys && PerformanceHeadSent(q, head)
    requires ranges.Keys <= PerformanceRangeKeys && PerformanceRangesSent(q, ranges)
    ensures FundPerformanceSpec(q, r)
  {
    var u := head + ranges;
    PerformanceHeadApart();
    PerformanceHeadKept(q, head, u);
    PerformanceRangesKept(q, ranges, u);
    u
  }

  function FundPerformanceParams(q: FundPerformanceQuery): (r: Params)
    ensures FundPerformanceSpec(q, r)
  {
    FundPerformanceUnion(q,
      PerformanceHead(q, Paging(q.limit, q.offset),
        FixedOrdering(q.orderBy, q.orderDirection, (e: FundPerformanceOrderBy) => e.Wire()), PerformanceSelect(q)),
      PerformanceRanges(q, PerformanceIrr(q), PerformanceDistributions(q), PerformanceAssets(q)))
  }

  // ----- commitment deals ------------------------------------------------

  datatype CommitmentDealQuery = CommitmentDealQuery(
    limit: int,
    offset: int,
    orderBy: Choice<CommitmentDealOrderBy>,
    orderDirection: Choice<OrderDirection>,
    query: Option<string>,
    limitedPartnerId: Option<int>,
    fundId: Option<int>,
    fundType: Option<int>)

  const CommitmentDealFilterKeys: set<string> := {"query", "limited_partner_id", "fund_id", "fund_type"}

  predicate CommitmentDealFiltersSent(q: CommitmentDealQuery, r: Params) {
    && Sent(r, "query", TextFilter(q.query))
    && Sent(r, "limited_partner_id", IntFilter(q.limitedPartnerId))
    && Sent(r, "fund_id", IntFilter(q.fundId))
    && Sent(r, "fund_type", IntFilter(q.fundType))
  }

  function CommitmentDealFilters(q: CommitmentDealQuery): (r: Params)
    ensures r.Keys <= CommitmentDealFilterKeys
    ensures CommitmentDealFiltersSent(q, r)
  {
    var p0 := PutText(map[], "query", q.query);
    var p1 := PutInt(p0, "limited_partner_id", q.limitedPartnerId);
    var p2 := PutInt(p1, "fund_id", q.fundId);
    PutInt(p2, "fund_type", q.fundType)
  }

  lemma CommitmentDealFiltersKept(q: CommitmentDealQuery, p: Params, r: Params)
    requires CommitmentDealFiltersSent(q, p) && Agrees(r, p, CommitmentDealFilterKeys)
    ensures CommitmentDealFiltersSent(q, r)
  {
  }

  const CommitmentDealKeys: set<string> := PagingKeys + FixedOrderingKeys + CommitmentDealFilterKeys

  /** The key groups of `get_commitment_deals` are pairwise disjoint. */
  lemma CommitmentDealGroupsApart()
    ensures PagingKeys !! FixedOrderingKeys
    ensures (PagingKeys + FixedOrderingKeys) !! CommitmentDealFilterKeys
  {
  }

  /** What `get_commitment_deals` sends. */
  predicate CommitmentDealSpec(q: CommitmentDealQuery, r: Params) {
    && r.Keys <= CommitmentDealKeys
    && PagingSent(q.limit, q.offset, r)
    && FixedOrderingSent(q.orderBy, q.orderDirection, (e: CommitmentDealOrderBy) => e.Wire(), r)
    && CommitmentDealFiltersSent(q, r)
  }

  function CommitmentDealUnion(q: CommitmentDealQuery, paging: Params, ordering: Params, filters: Params): (r: Params)
    requires paging.Keys <= PagingKeys && PagingSent(q.limit, q.offset, paging)
    requires ordering.Keys <= FixedOrderingKeys
    requires FixedOrderingSent(q.orderBy, q.orderDirection, (e: CommitmentDealOrderBy) => e.Wire(), ordering)
    requires filters.Keys <= CommitmentDealFilterKeys && CommitmentDealFiltersSent(q, filters)
    ensures CommitmentDealSpec(q, r)
  {
    var u := paging + ordering + filters;
    CommitmentDealGroupsApart();
    PagingKept(q.limit, q.offset, paging, u);
    FixedOrderingKept(q.orderBy, q.orderDirection, (e: CommitmentDealOrderBy) => e.Wire(), ordering, u);
    CommitmentDealFiltersKept(q, filters, u);
    u
  }

  function CommitmentDealParams(q: CommitmentDealQuery): (r: Params)
    ensures CommitmentDealSpec(q, r)
  {
    CommitmentDealUnion(q, Paging(q.limit, q.offset),
      FixedOrdering(q.orderBy, q.orderDirection, (e: CommitmentDealOrderBy) => e.Wire()),
      CommitmentDealFilters(q))
  }

  // ----- people ----------------------------------------------------------

  datatype PeopleQuery = PeopleQuery(
    limit: int,
    offset: int,
    orderBy: Choice<PersonOrderBy>,
    orderDirection: Choice<OrderDirection>,
    firstName: Option<string>,
    lastName: Option<string>,
    email: Option<string>)

  const PeopleNameKeys: set<string> := {"first_name", "last_name", "email"}

  predicate PeopleNamesSent(q: PeopleQuery, r: Params) {
    && Sent(r, "first_name", TextFilter(q.firstName))
    && Sent(r, "last_name", TextFilter(q.lastName))
    && Sent(r, "email", TextFilter(q.email))
  }

  function PeopleNames(q: PeopleQuery): (r: Params)
    ensures r.Keys <= PeopleNameKeys
    ensures PeopleNamesSent(q, r)
  {
    var p0 := PutText(map[], "first_name", q.firstName);
    var p1 := PutText(p0, "last_name", q.lastName);
    PutText(p1, "email", q.email)
  }

  lemma PeopleNamesKept(q: PeopleQuery, p: Params, r: Params)
    requires PeopleNamesSent(q, p) && Agrees(r, p, PeopleNameKeys)
    ensures PeopleNamesSent(q, r)
  {
  }

  const PeopleKeys: set<string> := PagingKeys + FixedOrderingKeys + PeopleNameKeys

  /** The key groups of `get_people` are pairwise disjoint, and none of
      them is `query`. */
  lemma PeopleGroupsApart()
    ensures PagingKeys !! FixedOrderingKeys
    ensures (PagingKeys + FixedOrderingKeys) !! PeopleNameKeys
    ensures "query" !in PeopleKeys
  {
  }

  /** What `get_people` sends: the only list method without `query`. */
  predicate PeopleSpec(q: PeopleQuery, r: Params) {
    && r.Keys <= PeopleKeys
    && PagingSent(q.limit, q.offset, r)
    && FixedOrderingSent(q.orderBy, q.orderDirection, (e: PersonOrderBy) => e.Wire(), r)
    && PeopleNamesSent(q, r)
  }

  function PeopleUnion(q: PeopleQuery, paging: Params, ordering: Params, names: Params): (r: Params)
    requires paging.Keys <= PagingKeys && PagingSent(q.limit, q.offset, paging)
    requires ordering.Keys <= FixedOrderingKeys
    requires FixedOrderingSent(q.orderBy, q.orderDirection, (e: PersonOrderBy) => e.Wire(), ordering)
    requires names.Keys <= PeopleNameKeys && PeopleNamesSent(q, names)
    ensures PeopleSpec(q, r)
  {
    var u := paging + ordering + names;
    PeopleGroupsApart();
    PagingKept(q.limit, q.offset, paging, u);
    FixedOrderingKept(q.orderBy, q.orderDirection, (e: PersonOrderBy) => e.Wire(), ordering, u);
    PeopleNamesKept(q, names, u);
    u
  }

  function PeopleParams(q: PeopleQuery): (r: Params)
    ensures PeopleSpec(q, r)
    ensures "query" !in r
  {
    PeopleGroupsApart();
    PeopleUnion(q, Paging(q.limit, q.offset),
      FixedOrdering(q.orderBy, q.orderDirection, (e: PersonOrderBy) => e.Wire()),
      PeopleNames(q))
  }

  /** The `Accept` header `get_people` passes explicitly. */
  const PeopleHeaders: map<string, string> := map["Accept" := "application/json"]
}
