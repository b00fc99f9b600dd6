/** Query-parameter dictionaries and the small building blocks every resource
    method's parameter builder is made of. Python's truthiness tests
    (`if x:`) and `is not None` tests are kept apart, because they differ on
    `0` and on the empty string. */
module Query {
  import opened Outcomes
  import Text

  /** A value placed in the query string. Floats are carried as opaque
      values: only whether they are sent matters here. */
  datatype ParamValue = PStr(s: string) | PInt(i: int) | PFloat(x: real)

  type Params = map<string, ParamValue>

  /** The largest page size the API accepts. */
  const MaxLimit: int := 100

  /** `min(limit, 100)`. */
  function Clamp(limit: int): (r: int)
    ensures r <= MaxLimit
    ensures r == limit || r == MaxLimit
    ensures limit <= MaxLimit ==> r == limit
  {
    if limit < MaxLimit then limit else MaxLimit
  }

  /** Python truthiness of an optional string: present and non-empty. */
  predicate Truthy(o: Option<string>) {
    o.Some? && o.value != ""
  }

  /** `if x: params[key] = x` for an optional string. */
  function PutText(p: Params, key: string, o: Option<string>): (r: Params)
    ensures key in r <==> key in p || Truthy(o)
    ensures Truthy(o) ==> r[key] == PStr(o.value)
    ensures !Truthy(o) ==> r == p
    ensures forall k :: k != key ==> (k in r <==> k in p) && (k in p ==> r[k] == p[k])
  {
    if o.Some? && o.value != "" then p[key := PStr(o.value)] else p
  }

  /** `if x is not None: params[key] = x` for an optional integer. */
  function PutInt(p: Params, key: string, o: Option<int>): (r: Params)
    ensures key in r <==> key in p || o.Some?
    ensures o.Some? ==> r[key] == PInt(o.value)
    ensures o.None? ==> r == p
    ensures forall k :: k != key ==> (k in r <==> k in p) && (k in p ==> r[k] == p[k])
  {
    if o.Some? then p[key := PInt(o.value)] else p
  }

  /** `if x is not None: params[key] = x` for an optional float. */
  function PutFloat(p: Params, key: string, o: Option<real>): (r: Params)
    ensures key in r <==> key in p || o.Some?
    ensures o.Some? ==> r[key] == PFloat(o.value)
    ensures o.None? ==> r == p
    ensures forall k :: k != key ==> (k in r <==> k in p) && (k in p ==> r[k] == p[k])
  {
    if o.Some? then p[key := PFloat(o.value)] else p
  }

  /** How an optional filter was sent: absent, or with this value. */
  predicate Sent(p: Params, key: string, expected: Option<ParamValue>) {
    (key in p <==> expected.Some?) && (key in p ==> p[key] == expected.value)
  }

  /** `r` holds the same entries as `p` for every key in `ks`: what a dict
      built by merging `p` with entries under other keys keeps of `p`. */
  predicate Agrees(r: Params, p: Params, ks: set<string>) {
    forall k :: k in ks ==> (k in r <==> k in p) && (k in p ==> r[k] == p[k])
  }

  /** The wire form an optional string filter should take: omitted when
      `None` or empty. */
  function TextFilter(o: Option<string>): Option<ParamValue> {
    if o.Some? && o.value != "" then Some(PStr(o.value)) else None
  }

  /** The wire form an optional number should take: omitted only when `None`. */
  function IntFilter(o: Option<int>): Option<ParamValue> {
    if o.Some? then Some(PInt(o.value)) else None
  }

  function FloatFilter(o: Option<real>): Option<ParamValue> {
    if o.Some? then Some(PFloat(o.value)) else None
  }

  /** A parameter typed `str | SomeEnum`: `x.value if hasattr(x, "value") else x`. */
  datatype Choice<E> = Member(e: E) | Raw(s: string)

  function ChoiceValue<E>(c: Choice<E>, wire: E -> string): string {
    match c
    case Member(e) => wire(e)
    case Raw(s) => s
  }

  /** `", ".join(str(x) for x in xs)`. */
  function JoinInts(xs: seq<int>): string {
    Text.Join(seq(|xs|, i requires 0 <= i < |xs| => Text.IntToString(xs[i])))
  }

  /** Reads a joined id list back. */
  function SplitInts(s: string): Option<seq<int>> {
    var parts := Text.Split(s);
    if forall i :: 0 <= i < |parts| ==> Text.ParseInt(parts[i]).Some? then
      Some(seq(|parts|, i requires 0 <= i < |parts| => Text.ParseInt(parts[i]).value))
    else None
  }

  /** A non-empty id list sent as one joined string reads back unchanged. */
  lemma JoinIntsRoundTrip(xs: seq<int>)
    requires |xs| > 0
    ensures SplitInts(JoinInts(xs)) == Some(xs)
  {
    var parts := seq(|xs|, i requires 0 <= i < |xs| => Text.IntToString(xs[i]));
    forall i | 0 <= i < |xs|
      ensures Text.CommaFree(parts[i]) && Text.ParseInt(parts[i]) == Some(xs[i])
    {
      Text.IntToStringRoundTrip(xs[i]);
    }
    Text.SplitJoin(parts);
    assert JoinInts(xs) == Text.Join(parts);
    var back := seq(|parts|, i requires 0 <= i < |parts| => Text.ParseInt(parts[i]).value);
    assert back == xs;
  }

  /** A filter typed `str | list[int]` (sectors and themes). */
  datatype IdsFilter = IdsText(text: string) | IdsList(ids: seq<int>)

  /** `if x: params[key] = ", ".join(...) if list else x`. */
  function PutIds(p: Params, key: string, o: Option<IdsFilter>): (r: Params)
    ensures key in r <==> key in p || (o.Some? && IdsTruthy(o.value))
    ensures o.Some? && IdsTruthy(o.value) ==> r[key] == PStr(IdsWire(o.value))
    ensures o.Some? && o.value.IdsText? && o.value.text != "" ==> r[key] == PStr(o.value.text)
    ensures o.Some? && o.value.IdsList? && |o.value.ids| > 0 ==>
      r[key].PStr? && SplitInts(r[key].s) == Some(o.value.ids)
    ensures !(o.Some? && IdsTruthy(o.value)) ==> r == p
    ensures forall k :: k != key ==> (k in r <==> k in p) && (k in p ==> r[k] == p[k])
  {
    if o.None? || !IdsTruthy(o.value) then p
    else match o.value
      case IdsText(s) => p[key := PStr(s)]
      case IdsList(ids) =>
        JoinIntsRoundTrip(ids);
        p[key := PStr(JoinInts(ids))]
  }

  /** The string a `str | list[int]` filter is sent as. */
  function IdsWire(f: IdsFilter): string {
    match f
    case IdsText(s) => s
    case IdsList(ids) => JoinInts(ids)
  }

  /** The wire form such a filter should take: omitted when `None` or empty. */
  function IdsFilterOf(o: Option<IdsFilter>): Option<ParamValue> {
    if o.Some? && IdsTruthy(o.value) then Some(PStr(IdsWire(o.value))) else None
  }

  /** Truthiness of a `str | list` value: non-empty. */
  predicate IdsTruthy(f: IdsFilter) {
    match f
    case IdsText(s) => s != ""
    case IdsList(ids) => |ids| > 0
  }

  /** The `limit` and `offset` every list method starts from. */
  function Paging(limit: int, offset: int): (r: Params)
    ensures r.Keys == {"limit", "offset"}
    ensures r["limit"] == PInt(Clamp(limit)) && r["offset"] == PInt(offset)
  {
    map["limit" := PInt(Clamp(limit)), "offset" := PInt(offset)]
  }
}
