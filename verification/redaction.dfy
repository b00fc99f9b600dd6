/** The diagnostic logger's `_redact`: every dict value whose key, lower-cased,
    is one of the credential names is replaced by a fixed mask, at any depth
    through dicts and lists; everything else is copied.

    The specification is the pair `Clean` (no credential value survives) and
    `SameOutline` (keys, list lengths and scalars are kept); `RedactUnique`
    shows that `Redact` is the only tree with both properties. */
module Redaction {
  import opened Json
  import Text

  const Sensitive: set<string> := {"authorization", "client_secret", "client_id", "token"}
  const Mask: string := "***REDACTED***"

  /** Key matching ignores case. */
  predicate IsSensitive(key: string) {
    Text.Lower(key) in Sensitive
  }

  function Redact(j: Json): Json
    decreases j
  {
    match j
    case JArr(items) =>
      JArr(seq(|items|, i requires 0 <= i < |items| => Redact(items[i])))
    case JObj(fields) =>
      JObj(seq(|fields|, i requires 0 <= i < |fields| =>
        if IsSensitive(fields[i].key) then Field(fields[i].key, JStr(Mask))
        else Field(fields[i].key, Redact(fields[i].value))))
    case _ => j
  }

  /** Every credential-named key, at every depth, holds only the mask. */
  predicate Clean(j: Json)
    decreases j
  {
    match j
    case JArr(items) => forall i :: 0 <= i < |items| ==> Clean(items[i])
    case JObj(fields) =>
      forall i :: 0 <= i < |fields| ==>
        if IsSensitive(fields[i].key) then fields[i].value == JStr(Mask) else Clean(fields[i].value)
    case _ => true
  }

  /** `b` has `a`'s outline: the same kinds of node, list lengths, keys in the
      same order and scalars, except below credential-named keys. */
  predicate SameOutline(a: Json, b: Json)
    decreases a
  {
    match a
    case JArr(xs) =>
      b.JArr? && |b.items| == |xs| &&
      forall i :: 0 <= i < |xs| ==> SameOutline(xs[i], b.items[i])
    case JObj(fs) =>
      b.JObj? && |b.fields| == |fs| &&
      forall i :: 0 <= i < |fs| ==>
        b.fields[i].key == fs[i].key &&
        (!IsSensitive(fs[i].key) ==> SameOutline(fs[i].value, b.fields[i].value))
    case _ => b == a
  }

  /** No key anywhere in the tree names a credential. */
  predicate NoSensitiveKeys(j: Json)
    decreases j
  {
    match j
    case JArr(items) => forall i :: 0 <= i < |items| ==> NoSensitiveKeys(items[i])
    case JObj(fields) =>
      forall i :: 0 <= i < |fields| ==> !IsSensitive(fields[i].key) && NoSensitiveKeys(fields[i].value)
    case _ => true
  }

  lemma {:induction false} RedactIsClean(j: Json)
    ensures Clean(Redact(j))
    decreases j
  {
    match j
    case JArr(items) =>
      forall i | 0 <= i < |items| ensures Clean(Redact(j).items[i]) {
        RedactIsClean(items[i]);
      }
    case JObj(fields) =>
      var r := Redact(j);
      forall i | 0 <= i < |fields| && !IsSensitive(fields[i].key)
        ensures Clean(r.fields[i].value)
      {
        RedactIsClean(fields[i].value);
      }
    case _ =>
  }

  lemma {:induction false} RedactKeepsOutline(j: Json)
    ensures SameOutline(j, Redact(j))
    decreases j
  {
    match j
    case JArr(items) =>
      forall i | 0 <= i < |items| ensures SameOutline(items[i], Redact(j).items[i]) {
        RedactKeepsOutline(items[i]);
      }
    case JObj(fields) =>
      var r := Redact(j);
      forall i | 0 <= i < |fields| && !IsSensitive(fields[i].key)
        ensures SameOutline(fields[i].value, r.fields[i].value)
      {
        RedactKeepsOutline(fields[i].value);
      }
    case _ =>
  }

  /** `Redact(j)` is the only clean tree with `j`'s outline. */
  lemma {:induction false} RedactUnique(j: Json, r: Json)
    requires Clean(r) && SameOutline(j, r)
    ensures r == Redact(j)
    decreases j
  {
    match j
    case JArr(items) =>
      var e := Redact(j);
      forall i | 0 <= i < |items| ensures r.items[i] == e.items[i] {
        RedactUnique(items[i], r.items[i]);
      }
      assert r.items == e.items;
    case JObj(fields) =>
      var e := Redact(j);
      forall i | 0 <= i < |fields| ensures r.fields[i] == e.fields[i] {
        if !IsSensitive(fields[i].key) {
          RedactUnique(fields[i].value, r.fields[i].value);
        }
      }
      assert r.fields == e.fields;
    case _ =>
  }

  lemma {:induction false} SameOutlineReflexive(j: Json)
    ensures SameOutline(j, j)
    decreases j
  {
    match j
    case JArr(items) =>
      forall i | 0 <= i < |items| ensures SameOutline(items[i], items[i]) {
        SameOutlineReflexive(items[i]);
      }
    case JObj(fields) =>
      forall i | 0 <= i < |fields| ensures SameOutline(fields[i].value, fields[i].value) {
        SameOutlineReflexive(fields[i].value);
      }
    case _ =>
  }

  /** Redacting a redacted tree changes nothing. */
  lemma RedactIdempotent(j: Json)
    ensures Redact(Redact(j)) == Redact(j)
  {
    RedactIsClean(j);
    SameOutlineReflexive(Redact(j));
    RedactUnique(Redact(j), Redact(j));
  }

  lemma {:induction false} NoSensitiveKeysIsClean(j: Json)
    requires NoSensitiveKeys(j)
    ensures Clean(j)
    decreases j
  {
    match j
    case JArr(items) =>
      forall i | 0 <= i < |items| ensures Clean(items[i]) {
        NoSensitiveKeysIsClean(items[i]);
      }
    case JObj(fields) =>
      forall i | 0 <= i < |fields| ensures Clean(fields[i].value) {
        NoSensitiveKeysIsClean(fields[i].value);
      }
    case _ =>
  }

  /** A tree without credential-named keys is logged exactly as it is. */
  lemma RedactWithoutSecrets(j: Json)
    requires NoSensitiveKeys(j)
    ensures Redact(j) == j
  {
    NoSensitiveKeysIsClean(j);
    SameOutlineReflexive(j);
    RedactUnique(j, j);
  }

  /** Whether a key names a credential does not depend on its case: the key
      and its lower-case form are masked alike. */
  lemma SensitiveIgnoresCase(key: string)
    ensures IsSensitive(key) <==> IsSensitive(Text.Lower(key))
  {
    Text.LowerIdempotent(key);
  }

  /** The credential names are matched whatever their case; a key that only
      contains one of them is not. */
  lemma SensitiveExamples()
    ensures IsSensitive("Authorization") && IsSensitive("CLIENT_SECRET")
    ensures IsSensitive("Client_Id") && IsSensitive("Token")
    ensures !IsSensitive("access_token") && !IsSensitive("tokens")
  {
    assert Text.Lower("Authorization") == "authorization";
    assert Text.Lower("CLIENT_SECRET") == "client_secret";
    assert Text.Lower("Client_Id") == "client_id";
    assert Text.Lower("Token") == "token";
  }
}
