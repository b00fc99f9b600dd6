/** The SDK's `str`-valued enumerations and their wire strings (`.value`).
    Each enum has `Wire`, the string sent on the wire, and a `Parse...`
    function reading a wire string back; the round-trip lemmas below show
    that every enum's wire mapping is injective and never empty. */
module Enums {
  import opened Outcomes

  datatype InvestmentStage = PreSeed | Seed | SeriesA | SeriesB | SeriesCAndBeyond {
    function Wire(): string {
      match this
      case PreSeed => "PRE_SEED"
      case Seed => "SEED"
      case SeriesA => "SERIES_A"
      case SeriesB => "SERIES_B"
      case SeriesCAndBeyond => "SERIES_C_AND_BEYOND"
    }
  }

  datatype CompanyStatus = Active | Closed {
    function Wire(): string {
      match this
      case Active => "ACTIVE"
      case Closed => "CLOSED"
    }
  }

  datatype ResponseType = Simple | Detailed {
    function Wire(): string {
      match this
      case Simple => "SIMPLE"
      case Detailed => "DETAILED"
    }
  }

  /** The one enum whose wire values are not its upper-case member names. */
  datatype CompanyType = Startup | Private {
    function Wire(): string {
      match this
      case Startup => "startup"
      case Private => "private"
    }

    /** The Python member name (`CompanyType.STARTUP`). */
    function Name(): string {
      match this
      case Startup => "STARTUP"
      case Private => "PRIVATE"
    }
  }

  datatype OrderDirection = Asc | Desc {
    function Wire(): string {
      match this
      case Asc => "asc"
      case Desc => "desc"
    }
  }

  datatype OrderBy = ByName | ById | ByNoOfInvestedCompanies {
    function Wire(): string {
      match this
      case ByName => "name"
      case ById => "id"
      case ByNoOfInvestedCompanies => "no_of_invested_companies"
    }
  }

  /** ISO 3166-1 alpha-3 codes; the SDK lists a South-East Asian subset. */
  datatype CountryCode = SGP | MYS | IDN | THA | VNM | AUS | PHL {
    function Wire(): string {
      match this
      case SGP => "SGP"
      case MYS => "MYS"
      case IDN => "IDN"
      case THA => "THA"
      case VNM => "VNM"
      case AUS => "AUS"
      case PHL => "PHL"
    }
  }

  datatype CapitalProviderCategory = FundManager | LimitedPartner | FamilyOffice {
    function Wire(): string {
      match this
      case FundManager => "fund-manager"
      case LimitedPartner => "limited-partner"
      case FamilyOffice => "family-office"
    }
  }

  datatype FundStatus = Open | OpenWithoutFirstClose | OpenWithFirstClose | FundClosed | Evergreen | Upcoming {
    function Wire(): string {
      match this
      case Open => "Open"
      case OpenWithoutFirstClose => "Open - Without first close"
      case OpenWithFirstClose => "Open - With first close"
      case FundClosed => "Closed"
      case Evergreen => "Evergreen"
      case Upcoming => "Upcoming"
    }
  }

  datatype PersonOrderBy = PersonById | PersonByFirstName | PersonByLastName {
    function Wire(): string {
      match this
      case PersonById => "id"
      case PersonByFirstName => "first_name"
      case PersonByLastName => "last_name"
    }
  }

  datatype FundOrderBy = FundByName {
    function Wire(): string {
      "name"
    }
  }

  datatype CapitalProviderOrderBy = ByDisplayName {
    function Wire(): string {
      "display_name"
    }
  }

  datatype FundPerformanceOrderBy = ByDpi | ByIrr {
    function Wire(): string {
      match this
      case ByDpi => "dpi"
      case ByIrr => "irr"
    }
  }

  datatype CommitmentDealOrderBy = ByFundManagerName {
    function Wire(): string {
      "fund_manager_name"
    }
  }

  // ----- reading wire strings back --------------------------------------

  function ParseInvestmentStage(s: string): (r: Option<InvestmentStage>)
    ensures r.Some? ==> r.value.Wire() == s
  {
    if s == "PRE_SEED" then Some(PreSeed)
    else if s == "SEED" then Some(Seed)
    else if s == "SERIES_A" then Some(SeriesA)
    else if s == "SERIES_B" then Some(SeriesB)
    else if s == "SERIES_C_AND_BEYOND" then Some(SeriesCAndBeyond)
    else None
  }

  function ParseCompanyStatus(s: string): (r: Option<CompanyStatus>)
    ensures r.Some? ==> r.value.Wire() == s
  {
    if s == "ACTIVE" then Some(Active) else if s == "CLOSED" then Some(Closed) else None
  }

  function ParseResponseType(s: string): (r: Option<ResponseType>)
    ensures r.Some? ==> r.value.Wire() == s
  {
    if s == "SIMPLE" then Some(Simple) else if s == "DETAILED" then Some(Detailed) else None
  }

  function ParseCompanyType(s: string): (r: Option<CompanyType>)
    ensures r.Some? ==> r.value.Wire() == s
  {
    if s == "startup" then Some(Startup) else if s == "private" then Some(Private) else None
  }

  function ParseOrderDirection(s: string): (r: Option<OrderDirection>)
    ensures r.Some? ==> r.value.Wire() == s
  {
    if s == "asc" then Some(Asc) else if s == "desc" then Some(Desc) else None
  }

  function ParseOrderBy(s: string): (r: Option<OrderBy>)
    ensures r.Some? ==> r.value.Wire() == s
  {
    if s == "name" then Some(ByName)
    else if s == "id" then Some(ById)
    else if s == "no_of_invested_companies" then Some(ByNoOfInvestedCompanies)
    else None
  }

  function ParseCountryCode(s: string): (r: Option<CountryCode>)
    ensures r.Some? ==> r.value.Wire() == s
  {
    if s == "SGP" then Some(SGP)
    else if s == "MYS" then Some(MYS)
    else if s == "IDN" then Some(IDN)
    else if s == "THA" then Some(THA)
    else if s == "VNM" then Some(VNM)
    else if s == "AUS" then Some(AUS)
    else if s == "PHL" then Some(PHL)
    else None
  }

  function ParseCapitalProviderCategory(s: string): (r: Option<CapitalProviderCategory>)
    ensures r.Some? ==> r.value.Wire() == s
  {
    if s == "fund-manager" then Some(FundManager)
    else if s == "limited-partner" then Some(LimitedPartner)
    else if s == "family-office" then Some(FamilyOffice)
    else None
  }

  function ParseFundStatus(s: string): (r: Option<FundStatus>)
    ensures r.Some? ==> r.value.Wire() == s
  {
    if s == "Open" then Some(Open)
    else if s == "Open - Without first close" then Some(OpenWithoutFirstClose)
    else if s == "Open - With first close" then Some(OpenWithFirstClose)
    else if s == "Closed" then Some(FundClosed)
    else if s == "Evergreen" then Some(Evergreen)
    else if s == "Upcoming" then Some(Upcoming)
    else None
  }

  function ParsePersonOrderBy(s: string): (r: Option<PersonOrderBy>)
    ensures r.Some? ==> r.value.Wire() == s
  {
    if s == "id" then Some(PersonById)
    else if s == "first_name" then Some(PersonByFirstName)
    else if s == "last_name" then Some(PersonByLastName)
    else None
  }

  function ParseFundPerformanceOrderBy(s: string): (r: Option<FundPerformanceOrderBy>)
    ensures r.Some? ==> r.value.Wire() == s
  {
    if s == "dpi" then Some(ByDpi) else if s == "irr" then Some(ByIrr) else None
  }

  // ----- properties of the mappings -------------------------------------

  /** Every wire string reads back as the member it came from, so within
      each enum distinct members have distinct wire strings. */
  lemma InvestmentStageRoundTrip(e: InvestmentStage)
    ensures ParseInvestmentStage(e.Wire()) == Some(e)
  {
  }

  lemma CompanyStatusRoundTrip(e: CompanyStatus)
    ensures ParseCompanyStatus(e.Wire()) == Some(e)
  {
  }

  lemma ResponseTypeRoundTrip(e: ResponseType)
    ensures ParseResponseType(e.Wire()) == Some(e)
  {
  }

  lemma CompanyTypeRoundTrip(e: CompanyType)
    ensures ParseCompanyType(e.Wire()) == Some(e)
  {
  }

  lemma OrderDirectionRoundTrip(e: OrderDirection)
    ensures ParseOrderDirection(e.Wire()) == Some(e)
  {
  }

  lemma OrderByRoundTrip(e: OrderBy)
    ensures ParseOrderBy(e.Wire()) == Some(e)
  {
  }

  lemma CountryCodeRoundTrip(e: CountryCode)
    ensures ParseCountryCode(e.Wire()) == Some(e)
  {
  }

  lemma CapitalProviderCategoryRoundTrip(e: CapitalProviderCategory)
    ensures ParseCapitalProviderCategory(e.Wire()) == Some(e)
  {
  }

  lemma FundStatusRoundTrip(e: FundStatus)
    ensures ParseFundStatus(e.Wire()) == Some(e)
  {
  }

  lemma PersonOrderByRoundTrip(e: PersonOrderBy)
    ensures ParsePersonOrderBy(e.Wire()) == Some(e)
  {
  }

  lemma FundPerformanceOrderByRoundTrip(e: FundPerformanceOrderBy)
    ensures ParseFundPerformanceOrderBy(e.Wire()) == Some(e)
  {
  }

  /** Injectivity, stated directly for every enum a filter or an ordering
      uses, and for `FundStatus`, which no filter uses (`get_funds` takes its
      `status` as a plain string). */
  lemma WireInjective()
    ensures forall a: CountryCode, b: CountryCode :: a.Wire() == b.Wire() ==> a == b
    ensures forall a: OrderDirection, b: OrderDirection :: a.Wire() == b.Wire() ==> a == b
    ensures forall a: CapitalProviderCategory, b: CapitalProviderCategory :: a.Wire() == b.Wire() ==> a == b
    ensures forall a: CompanyType, b: CompanyType :: a.Wire() == b.Wire() ==> a == b
    ensures forall a: InvestmentStage, b: InvestmentStage :: a.Wire() == b.Wire() ==> a == b
    ensures forall a: CompanyStatus, b: CompanyStatus :: a.Wire() == b.Wire() ==> a == b
    ensures forall a: ResponseType, b: ResponseType :: a.Wire() == b.Wire() ==> a == b
    ensures forall a: OrderBy, b: OrderBy :: a.Wire() == b.Wire() ==> a == b
    ensures forall a: FundStatus, b: FundStatus :: a.Wire() == b.Wire() ==> a == b
    ensures forall a: PersonOrderBy, b: PersonOrderBy :: a.Wire() == b.Wire() ==> a == b
    ensures forall a: FundPerformanceOrderBy, b: FundPerformanceOrderBy :: a.Wire() == b.Wire() ==> a == b
    ensures forall a: FundOrderBy, b: FundOrderBy :: a.Wire() == b.Wire() ==> a == b
    ensures forall a: CapitalProviderOrderBy, b: CapitalProviderOrderBy :: a.Wire() == b.Wire() ==> a == b
    ensures forall a: CommitmentDealOrderBy, b: CommitmentDealOrderBy :: a.Wire() == b.Wire() ==> a == b
  {
    forall a: CountryCode, b: CountryCode | a.Wire() == b.Wire() ensures a == b {
      CountryCodeRoundTrip(a);
      CountryCodeRoundTrip(b);
    }
    forall a: OrderDirection, b: OrderDirection | a.Wire() == b.Wire() ensures a == b {
      OrderDirectionRoundTrip(a);
      OrderDirectionRoundTrip(b);
    }
    forall a: CapitalProviderCategory, b: CapitalProviderCategory | a.Wire() == b.Wire() ensures a == b {
      CapitalProviderCategoryRoundTrip(a);
      CapitalProviderCategoryRoundTrip(b);
    }
    forall a: CompanyType, b: CompanyType | a.Wire() == b.Wire() ensures a == b {
      CompanyTypeRoundTrip(a);
      CompanyTypeRoundTrip(b);
    }
    forall a: InvestmentStage, b: InvestmentStage | a.Wire() == b.Wire() ensures a == b {
      InvestmentStageRoundTrip(a);
      InvestmentStageRoundTrip(b);
    }
    forall a: CompanyStatus, b: CompanyStatus | a.Wire() == b.Wire() ensures a == b {
      CompanyStatusRoundTrip(a);
      CompanyStatusRoundTrip(b);
    }
    forall a: ResponseType, b: ResponseType | a.Wire() == b.Wire() ensures a == b {
      ResponseTypeRoundTrip(a);
      ResponseTypeRoundTrip(b);
    }
    forall a: OrderBy, b: OrderBy | a.Wire() == b.Wire() ensures a == b {
      OrderByRoundTrip(a);
      OrderByRoundTrip(b);
    }
    forall a: FundStatus, b: FundStatus | a.Wire() == b.Wire() ensures a == b {
      FundStatusRoundTrip(a);
      FundStatusRoundTrip(b);
    }
    forall a: PersonOrderBy, b: PersonOrderBy | a.Wire() == b.Wire() ensures a == b {
      PersonOrderByRoundTrip(a);
      PersonOrderByRoundTrip(b);
    }
    forall a: FundPerformanceOrderBy, b: FundPerformanceOrderBy | a.Wire() == b.Wire() ensures a == b {
      FundPerformanceOrderByRoundTrip(a);
      FundPerformanceOrderByRoundTrip(b);
    }
  }

  /** No wire string is empty, so every `str`-enum member is truthy in
      Python and an `if member:` test only filters out `None`. */
  lemma WireNonEmpty()
    ensures forall e: InvestmentStage :: e.Wire() != ""
    ensures forall e: CompanyStatus :: e.Wire() != ""
    ensures forall e: ResponseType :: e.Wire() != ""
    ensures forall e: CompanyType :: e.Wire() != ""
    ensures forall e: OrderDirection :: e.Wire() != ""
    ensures forall e: OrderBy :: e.Wire() != ""
    ensures forall e: CountryCode :: e.Wire() != ""
    ensures forall e: CapitalProviderCategory :: e.Wire() != ""
    ensures forall e: FundStatus :: e.Wire() != ""
    ensures forall e: PersonOrderBy :: e.Wire() != ""
    ensures forall e: FundOrderBy :: e.Wire() != ""
    ensures forall e: CapitalProviderOrderBy :: e.Wire() != ""
    ensures forall e: FundPerformanceOrderBy :: e.Wire() != ""
    ensures forall e: CommitmentDealOrderBy :: e.Wire() != ""
  {
  }

  /** A country's wire value is its three-letter upper-case code, so it can
      sit in a comma-joined list without ambiguity. */
  lemma CountryCodeShape(c: CountryCode)
    ensures |c.Wire()| == 3
    ensures forall i :: 0 <= i < 3 ==> 'A' <= c.Wire()[i] <= 'Z'
  {
  }

  /** Order directions go out in lower case. */
  lemma OrderDirectionLowerCase(d: OrderDirection)
    ensures forall i :: 0 <= i < |d.Wire()| ==> 'a' <= d.Wire()[i] <= 'z'
  {
  }

  /** Company types are sent as lower-case words, not as their member names. */
  lemma CompanyTypeWireIsNotName(t: CompanyType)
    ensures t.Wire() != t.Name()
    ensures |t.Wire()| == |t.Name()|
  {
  }
}
