# altpe SDK request shaping and response classification, in Dafny

This project models the part of the Alternatives.PE Python SDK (`altpe_sdk`)
that every API call goes through and that does not depend on the network:

- the credential check of `BaseHTTPClient.__init__`;
- the bearer-token cache (`_get_token`) as a sequential state machine;
- `_make_request`: header merging, exactly one dispatch, then classification;
- the response classifier `_handle_response`, with its error-message fallbacks
  and the token reset on 401;
- the log redaction `_redact` over JSON-like trees;
- the query parameters every list method of the synchronous client
  (`AlternativesPE`) and the asynchronous client (`AsyncAlternativesPE`) builds;
- the places where the two clients differ: the `countries` join of
  `get_companies`, and the retry of `get_capital_provider_by_id`;
- the exception hierarchy and the enum wire strings.

The model is functional. A client is a value holding its configuration, the
cached token and the log of every request it has sent. The transport is a
parameter `server: (nat, Request) -> Response` that answers the n-th request.
This lets properties span several calls: the token is reused, a 401 forces a
new exchange, and a rejected category is retried.

Modules, bottom up:

| file | module | contents |
|---|---|---|
| outcomes.dfy | `Outcomes` | `Option`, `Result` |
| text.dfy | `Text` | `", ".join` and its split, `str(int)`, `str.lower()`, `repr` |
| enums.dfy | `Enums` | every `str` enum with its wire strings and parsers |
| json.dfy | `Json` | decoded JSON values |
| errors.dfy | `Errors` | `AltPEError` and its subclasses; what a call can raise |
| classifier.dfy | `Classifier` | `_handle_response` |
| redaction.dfy | `Redaction` | `_redact` |
| query.dfy | `Query` | parameter maps and the `if x:` / `is not None` building blocks |
| list_params.dfy | `ListParams` | the parameters of every list method |
| http_client.dfy | `HttpClient` | constructor, token cache, `_make_request`, `get` |
| sync_client.dfy | `SyncClient` | the synchronous `countries` join and the retry |
| async_client.dfy | `AsyncClient` | the asynchronous `countries` join and the single attempt |

Each list method has a specification predicate, for example `CompanySpec`. It
says, key by key, whether a filter is sent and with which value, and it says
that no other key is sent. Python's two tests are kept apart:

- `if x:` is truthiness. It drops `None`, `""` and `[]`.
- `if x is not None:` drops only `None`. It is used for numbers, so `0` is sent.

An enum member is always truthy, because no wire string is empty
(`Enums.WireNonEmpty`).

## Model

| member | source | states |
|---|---|---|
| Errors.NewError | altpe_sdk/exceptions.py:6-44 | The inherited constructor keeps the message and status exactly. The instance is an `AltPEError` and of its own class only, never a `ValidationError`. |
| Errors.NewValidationError | altpe_sdk/exceptions.py:27-32 | The second argument lands in `errors`. `status_code` is always `None`. |
| Classifier.ParseErrorBody | altpe_sdk/models.py:410-414 | An error payload parses exactly when the body is an object whose `errors` is a string or a list of strings and whose `message` is missing, null or a string. The parsed payload keeps both fields. |
| Json.Lookup | altpe_sdk/http_client.py:132-133 | A key is found exactly when some field has it, and the value found is that of its last occurrence. |
| Text.ReprList | altpe_sdk/http_client.py:134 | `str(errors)` for a list is bracketed, and is `[]` exactly for the empty list. |
| Text.ReprListSingle | altpe_sdk/http_client.py:134 | `str([x])` is `repr(x)` in brackets. |
| Classifier.ErrorMessage | altpe_sdk/http_client.py:131-136 | The message comes from the first source that applies: a non-empty payload `message`, then `str(errors)`, then the raw text, then `"HTTP <code>"`. |
| Classifier.ErrorMessageEmpty | altpe_sdk/http_client.py:131-136 | The message is empty exactly when the payload parses, has no message and its `errors` is `""`. The two fallbacks never give an empty message. |
| Classifier.HandleResponse | altpe_sdk/http_client.py:126-151 | A 2xx response passes through untouched. Every other status raises. Each error class holds if and only if its status does: 401, 404, 422, 429, >= 500, otherwise the base class. Only a 401 empties the token cache. A 422 puts the status in `errors`, not `status_code`. |
| Classifier.ClassifiedStatusRecoverable | altpe_sdk/http_client.py:138-151 | Every classified error carries its status, in `status_code` or, for a `ValidationError`, in `errors`. |
| Classifier.OtherStatusesAreGeneric | altpe_sdk/http_client.py:148-151 | Every 3xx status, 400 and 403 raise the plain base error and keep the token. |
| Redaction.RedactIsClean | altpe_sdk/http_client.py:54-63 | After redaction every sensitive key, at any depth, holds only the mask. |
| Redaction.RedactKeepsOutline | altpe_sdk/http_client.py:54-63 | Redaction keeps keys, their order, list lengths and every value not under a sensitive key. |
| Redaction.RedactUnique | altpe_sdk/http_client.py:54-63 | Only one tree has the same outline and is clean, and it is the redacted one. So the two properties above define `_redact`. |
| Redaction.RedactIdempotent | altpe_sdk/http_client.py:54-63 | Redacting twice is the same as redacting once. |
| Redaction.RedactWithoutSecrets | altpe_sdk/http_client.py:54-63 | A tree with no sensitive key comes back unchanged. |
| Redaction.SensitiveIgnoresCase | altpe_sdk/http_client.py:55-58 | For every key, it names a credential exactly when its lower-case form does, so matching ignores case. |
| Redaction.SensitiveExamples | altpe_sdk/http_client.py:55-58 | Only whole names match: `Authorization` and `CLIENT_SECRET` match, `access_token` and `tokens` do not. |
| Text.LowerIdempotent | altpe_sdk/http_client.py:58 | `k.lower().lower()` equals `k.lower()`. |
| Text.SplitJoin | altpe_sdk/_sync_client.py:112-128 | Pieces joined with `", "` split back into the same pieces when none contains a comma. |
| Text.IntToStringRoundTrip | altpe_sdk/_sync_client.py:119-128 | `str(i)` reads back as `i`, is non-empty and contains no comma. |
| Enums.WireNonEmpty | altpe_sdk/enums.py:6-116 | No enum's wire string is empty, so an `if member:` test passes for every member. |
| Enums.WireInjective | altpe_sdk/enums.py:6-116 | Distinct members have distinct wire strings, for every enum a filter or an ordering uses: country codes, directions, categories, company types, stages, company statuses, response types and all six `order_by` enums. `FundStatus` is covered too, although no filter uses it: `get_funds` takes `status` as a plain string. |
| Enums.CountryCodeRoundTrip | altpe_sdk/enums.py:53-62 | Each country code's wire string parses back to the same member. |
| Enums.CapitalProviderCategoryRoundTrip | altpe_sdk/enums.py:67-72 | Each category's wire string parses back to the same member. |
| Enums.OrderDirectionRoundTrip | altpe_sdk/enums.py:37-41 | Each direction's wire string parses back to the same member. |
| Enums.CountryCodeShape | altpe_sdk/enums.py:53-62 | A country code's wire string is three upper-case letters. |
| Enums.OrderDirectionLowerCase | altpe_sdk/enums.py:37-41 | Order directions are sent in lower case. |
| Enums.CompanyTypeWireIsNotName | altpe_sdk/enums.py:30-34 | Company types are sent as lower-case words that differ from the member names. |
| Query.Clamp | altpe_sdk/_sync_client.py:101-104 | `min(limit, 100)` never exceeds 100 and keeps any limit up to 100. |
| Query.PutText | altpe_sdk/_sync_client.py:110-111 | A string filter is added exactly when it is non-empty, with that value. Every other key is left as it was, and an empty or missing filter leaves the dict unchanged. |
| Query.PutInt | altpe_sdk/_sync_client.py:359-368 | An integer filter is added exactly when it is not `None`, so `0` is added. Every other key is left as it was, and `None` leaves the dict unchanged. |
| Query.PutFloat | altpe_sdk/_sync_client.py:131-146 | A float filter is added exactly when it is not `None`. Every other key is left as it was, and `None` leaves the dict unchanged. |
| Query.JoinIntsRoundTrip | altpe_sdk/_sync_client.py:119-128 | A non-empty id list joined with `", "` splits and parses back to the same ids in order. |
| Query.PutIds | altpe_sdk/_sync_client.py:119-128 | A `str`-or-`list[int]` filter is sent only when truthy. A string is sent as is, and a list as a string that reads back as the list. |
| Query.Paging | altpe_sdk/_sync_client.py:101-104 | Every list method starts from the clamped `limit` and the unchanged `offset`, and nothing else. |
| ListParams.OptionalOrdering | altpe_sdk/_sync_client.py:106-111 | Optional `order_by`, `order_direction` and `query` are sent only when given and, for `query`, non-empty. Enums are sent as their wire value. |
| ListParams.FixedOrdering | altpe_sdk/_sync_client.py:342-349 | `order_by` and `order_direction` are always sent, each as the member's value or the raw string. |
| ListParams.DirectionChoiceRoundTrip | altpe_sdk/_sync_client.py:345-348 | An order direction passed as a member or as its value sends the same parameters, and the text sent parses back to the member. |
| ListParams.CompanyIdLists | altpe_sdk/_sync_client.py:119-130 | `sectors` and `themes` are sent when truthy, joined if they are lists. `investment_stage` is sent when given. |
| ListParams.CompanyMoney | altpe_sdk/_sync_client.py:131-138 | The valuation and funding bounds are sent exactly when not `None`. |
| ListParams.CompanyRevenue | altpe_sdk/_sync_client.py:139-146 | The revenue and growth bounds are sent exactly when not `None`. |
| ListParams.CompanyTags | altpe_sdk/_sync_client.py:147-152 | `status` and `response_type` are sent when given. `female_founder` is `"1"` or `"0"`, and absent only for `None`. |
| ListParams.CompanyOrigin | altpe_sdk/_sync_client.py:153-156 | `co_type` and `iso_code` are sent as wire values when given. |
| ListParams.CompanyParams | altpe_sdk/_sync_client.py:101-156 | `get_companies` sends exactly the keys its specification allows, each under its own rule, with the `countries` entry the client computed. The same code is at altpe_sdk/client.py:102-155. |
| ListParams.InvestorTopics | altpe_sdk/_sync_client.py:214-219 | An integer `sectors` is sent whenever given. `themes` is sent only when non-empty. |
| ListParams.InvestorWindow | altpe_sdk/_sync_client.py:220-225 | The date window is sent when non-empty, and `response_type` when given. |
| ListParams.InvestorParams | altpe_sdk/_sync_client.py:203-225 | `get_investors` sends exactly what its specification allows. |
| ListParams.InvestorZeroSectorEmptyTheme | altpe_sdk/client.py:215-218 | A zero sector is sent as `0`, and an empty theme is omitted. |
| ListParams.BasicListParams | altpe_sdk/_sync_client.py:245-255 | `get_directors` sends paging and the optional ordering and `query`, and nothing else. `get_founders` (275-285) and `get_auditors` (305-315) are the same. |
| ListParams.CapitalProviderText | altpe_sdk/_sync_client.py:351-358 | `query`, `registration_number` and `category` are sent when truthy. The category is sent as the member's value or the string. |
| ListParams.CapitalProviderPlaces | altpe_sdk/_sync_client.py:359-362 | `hq` and `preferred_location` are sent whenever given. |
| ListParams.CapitalProviderPreferences | altpe_sdk/_sync_client.py:363-368 | The three preference ids are sent whenever given. |
| ListParams.CapitalProviderParams | altpe_sdk/_sync_client.py:342-368 | `get_capital_providers` sends exactly what its specification allows. |
| ListParams.CategoryMemberSent | altpe_sdk/_sync_client.py:355-358 | A category given as an enum member is always sent, as its wire value. |
| ListParams.CategoryChoiceRoundTrip | altpe_sdk/_sync_client.py:355-358 | A category passed as a member or as its value is sent as the same text, which parses back to the member. |
| ListParams.FundText | altpe_sdk/_sync_client.py:426-459 | `query`, `registration_number`, `last_report_quarter` and `status` are sent when non-empty. |
| ListParams.FundIds | altpe_sdk/_sync_client.py:430-435 | The vintage-year bounds and `fund_type` are sent whenever given. |
| ListParams.FundSizes | altpe_sdk/_sync_client.py:436-443 | The size and net-IRR bounds are sent exactly when not `None`. |
| ListParams.FundMultiples | altpe_sdk/_sync_client.py:444-447 | The net-multiple bounds are sent exactly when not `None`. |
| ListParams.FundDistributions | altpe_sdk/_sync_client.py:448-455 | The DPI and RVPI bounds are sent exactly when not `None`. |
| ListParams.FundParams | altpe_sdk/_sync_client.py:417-459 | `get_funds` sends exactly what its specification allows. |
| ListParams.PerformanceSelect | altpe_sdk/_sync_client.py:499-504 | `query` and `reporting_period` are sent when non-empty. `fund_id` is sent whenever given. |
| ListParams.PerformanceIrr | altpe_sdk/_sync_client.py:505-508 | The IRR bounds are sent exactly when not `None`. |
| ListParams.PerformanceDistributions | altpe_sdk/_sync_client.py:509-516 | The DPI and RVPI bounds are sent exactly when not `None`. |
| ListParams.PerformanceAssets | altpe_sdk/_sync_client.py:517-524 | The net-multiple and net-asset bounds are sent exactly when not `None`. |
| ListParams.FundPerformanceParams | altpe_sdk/_sync_client.py:490-524 | `get_fund_performances` sends exactly what its specification allows. |
| ListParams.CommitmentDealFilters | altpe_sdk/_sync_client.py:559-566 | `query` is sent when non-empty. The three ids are sent whenever given. |
| ListParams.CommitmentDealParams | altpe_sdk/_sync_client.py:550-566 | `get_commitment_deals` sends exactly what its specification allows. |
| ListParams.PeopleNames | altpe_sdk/_sync_client.py:596-601 | `first_name`, `last_name` and `email` are sent when non-empty. |
| ListParams.PeopleParams | altpe_sdk/_sync_client.py:587-601 | `get_people` sends exactly what its specification allows, and never `query`. |
| HttpClient.NewClient | altpe_sdk/http_client.py:36-47 | Construction succeeds if and only if both effective credentials are non-empty. An explicit credential wins only when it is non-empty, and failure is the `ValueError`. A new client has no token and has sent nothing. |
| HttpClient.GetToken | altpe_sdk/http_client.py:335-375 | A usable cached token is returned with nothing sent. Otherwise exactly one form-encoded exchange goes out: 200 caches and returns the token, 422 raises "Invalid client credentials", and any other status raises "Authentication failed: " plus the text. A failure leaves the cache alone. |
| HttpClient.ParseToken | altpe_sdk/http_client.py:355-357 | The token response parses exactly when the body is an object whose `token` is a string, and yields that string. |
| HttpClient.ParseTokenReadsLast | altpe_sdk/models.py:404-407 | Other fields are ignored, and a repeated `token` key yields its last value. |
| HttpClient.TokenIsCached | altpe_sdk/http_client.py:337-342 | After a non-empty token is obtained, asking again changes nothing and sends nothing. |
| HttpClient.EmptyTokenIsExchangedAgain | altpe_sdk/http_client.py:337-357 | An empty token is cached but not reused: the next request triggers another exchange. |
| HttpClient.MergeHeaders | altpe_sdk/http_client.py:387-393 | The headers are `Accept`, then the caller's headers over it, then the bearer `Authorization` over both. No other key appears. |
| HttpClient.Dispatch | altpe_sdk/http_client.py:395-413 | Exactly one request is appended to the log, and its response goes through the classifier. |
| HttpClient.MakeRequest | altpe_sdk/http_client.py:377-413 | A token failure propagates and nothing more is sent. Otherwise one request with the merged headers is sent, and the call returns what the classifier makes of its response. |
| HttpClient.Get | altpe_sdk/http_client.py:415-422 | `get` is an authenticated `_make_request` with verb GET and no body: a token failure propagates with nothing more sent; otherwise one request with the merged headers, classified. |
| HttpClient.SingleAttempt | altpe_sdk/http_client.py:377-413 | One call makes at most one API attempt, and at most one exchange besides. A successful call returns a 2xx response. |
| HttpClient.MaxRetriesIgnored | altpe_sdk/http_client.py:377-413 | Changing `max_retries` changes no outcome. |
| HttpClient.UnauthorizedForcesExchange | altpe_sdk/http_client.py:138-141 | A 401 raises `AuthenticationError` and empties the cache. The next call starts with a credential exchange. |
| SyncClient.CountriesEntry | altpe_sdk/_sync_client.py:112-118 | `countries` is sent exactly when truthy. A string is sent as is. A list is joined from members' wire values and plain strings, and splits back into them when they contain no comma. |
| SyncClient.CountryCodesRoundTrip | altpe_sdk/_sync_client.py:112-118 | A non-empty list of country codes is sent as a string that parses back to the same codes in order. |
| SyncClient.CompanyParams | altpe_sdk/_sync_client.py:101-156 | The synchronous `get_companies` meets `CompanySpec` with its own `countries` entry. |
| SyncClient.DefaultCompanyParams | altpe_sdk/_sync_client.py:77-104 | A bare `get_companies()` sends exactly `limit=100`, `offset=0`, `order_direction="asc"` and `response_type="SIMPLE"`. |
| SyncClient.RetryCategoryIsFundManager | altpe_sdk/_sync_client.py:386 | The fallback category is the wire value of `CapitalProviderCategory.FUND_MANAGER`. |
| SyncClient.CapitalProviderById | altpe_sdk/_sync_client.py:373-390 | A second request goes out if and only if the first raised `ValidationError`, even when the category was already `fund-manager`. That request asks for `fund-manager`, and its outcome is the call's. Any other outcome of the first request is final. There are at most two attempts. |
| SyncClient.RejectedCategoryRecovers | altpe_sdk/_sync_client.py:380-389 | For a client that already holds a token, a 422 followed by a 2xx for the fallback category ends in success, after exactly two API requests and no credential exchange. |
| SyncClient.PeopleHeadersRedundant | altpe_sdk/_sync_client.py:603-606 | The explicit `Accept` header of `get_people` yields the same request headers as passing none. |
| AsyncClient.CodeTexts | altpe_sdk/client.py:113-117 | `c.value` for each element raises `AttributeError` if and only if some element is a plain string. Otherwise it gives the wire values in order. |
| AsyncClient.CountriesEntry | altpe_sdk/client.py:113-117 | A non-empty list holding a plain string raises. Otherwise the entry is sent exactly when truthy. |
| AsyncClient.CountriesAgree | altpe_sdk/client.py:113-117 | Whenever the asynchronous join succeeds, it sends the same entry as the synchronous one. |
| AsyncClient.CompanyParams | altpe_sdk/client.py:102-155 | The asynchronous `get_companies` either raises `AttributeError` (exactly for a list with a plain string) or meets the synchronous client's specification. |
| AsyncClient.CompanyParamsAgree | altpe_sdk/client.py:102-155 | Without plain strings in `countries`, both clients send the same parameters. |
| AsyncClient.PlainCountryDiverges | altpe_sdk/client.py:113-117 | For `countries=["SGP"]`, the synchronous client sends `"SGP"` and the asynchronous one raises. |
| AsyncClient.CapitalProviderById | altpe_sdk/client.py:379-389 | The call is exactly the first GET of the synchronous client: the same request with the caller's category and the same outcome. A `ValidationError` or any other error propagates, and there is at most one attempt. |
| AsyncClient.RejectionIsNotRetried | altpe_sdk/client.py:379-389 | For a client that already holds a token, when the server rejects the first category and would accept the fallback, the asynchronous client reports the `ValidationError` after one request, while the synchronous one succeeds. |

## Left out

- Transport: `httpx` clients, connection setup, timeouts, `close` and the context managers. A response is a value (status, decoded body, text) produced by the `server` parameter.
- The locks and the second cache check inside them. In a sequential model both checks see the same cache, so they are one test.
- The asynchronous `HTTPClient._get_token` and `_make_request` (altpe_sdk/http_client.py:183-261). They take the same steps as the synchronous ones modelled in `HttpClient`, with `await`, so both clients share that module.
- JSONL request logging (`_build_log_entry`, `_append_jsonl_*`): file I/O and clock reads. Only `_redact` is modelled.
- Decoding success bodies into the pydantic response models (`CompanyListResponse(**response.json())` and the rest). A failed decode appears only as `DecodeError` in the token exchange.
- Environment and `.env` loading of `AltPEConfig`. The model starts from a `Config` value. The constructor's write of explicit credentials into a shared config object is modelled as a new config value.
- The paths of the list methods and the by-id getters other than `get_capital_provider_by_id`. Each is one authenticated `get` of a fixed path, covered by `HttpClient.Get` and `MakeRequest`.
- Floating-point filters are opaque `real` values. Only whether they are sent is modelled.
- The order of keys in a parameter dict and in the query string. Parameters are a map.
- Header names are compared exactly. HTTP header case-insensitivity is not modelled.
- `str.lower()` is modelled for ASCII letters and the Kelvin sign only. Those are enough to decide whether a key matches one of the four ASCII names.
- `repr` escapes backslash, the quote, newline, carriage return and tab. Other non-printable characters are not escaped as Python would escape them.
- Arguments of the wrong Python type, beyond the plain strings in a `countries` list, are not modelled. For example, `None` inside a list or a non-enum `order_by` where the optional form expects an enum.
- `AltPEException` is a type synonym for `AltPEError`.
- SyncClient.RejectedCategoryRecovers: stated for a client that already holds a token. Without one, a credential exchange comes first and shifts the request indices; that case is not stated.
- AsyncClient.RejectionIsNotRetried: stated for a client that already holds a token, for the same reason.
- Enums.CountryCodeShape: states that each code is three upper-case letters, not that it equals the member's name. Dafny does not expose constructor names as strings.

Points of the code the model keeps as written:

- `_handle_response` raises `ServerError` for every status of 500 and above (altpe_sdk/http_client.py:148).
- A `ValidationError` raised by `_handle_response` has `errors` set to the status code (422) and no `status_code`, because `ValidationError`'s constructor takes `errors` as its second argument (altpe_sdk/http_client.py:144-145, altpe_sdk/exceptions.py:27-32).
- The asynchronous client's `countries` join reads `.value` from every element, so a plain string raises (altpe_sdk/client.py:113-115), and its `get_capital_provider_by_id` makes one attempt with no retry (altpe_sdk/client.py:379-389).
