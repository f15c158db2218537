/**
 JSON values as the edge function builds them, including BigInt leaves, and
 the replacer of `JSONStringifyWithBigInt`, which turns every BigInt into its
 decimal string before `JSON.stringify` sees it. (Plain `JSON.stringify`
 throws on a BigInt.) The text encoding of the JSON value is not modelled.
 */
module Json {
  import opened JsValues
  import opened Decimal

  datatype Json =
    | JNull
    | JBool(b: bool)
    | JNumber(n: int)
    | JString(s: string)
    | JBigInt(big: int)
    | JArray(items: seq<Json>)
    | JObject(members: seq<Member>)

  /** One property of an object, in insertion order (the order `JSON.stringify` writes). */
  datatype Member = Member(key: string, value: Json)

  /** True when no BigInt occurs anywhere in `j`: what `JSON.stringify` accepts. */
  predicate NoBigInt(j: Json)
    decreases j
  {
    match j
    case JBigInt(_) => false
    case JArray(items) => forall i :: 0 <= i < |items| ==> NoBigInt(items[i])
    case JObject(ms) => forall i :: 0 <= i < |ms| ==> NoBigInt(ms[i].value)
    case _ => true
  }

  /** The replacer of `JSONStringifyWithBigInt`, applied to every value of the tree. */
  function ReplaceBigInts(j: Json): (r: Json)
    ensures NoBigInt(r)
    decreases j
  {
    match j
    case JBigInt(n) => JString(IntToDecimal(n))
    case JArray(items) =>
      JArray(seq(|items|, i requires 0 <= i < |items| => ReplaceBigInts(items[i])))
    case JObject(ms) =>
      JObject(seq(|ms|, i requires 0 <= i < |ms| => Member(ms[i].key, ReplaceBigInts(ms[i].value))))
    case _ => j
  }

  /** A tree without BigInts goes through the replacer unchanged. */
  lemma {:induction false} ReplaceBigIntsIdentity(j: Json)
    requires NoBigInt(j)
    ensures ReplaceBigInts(j) == j
    decreases j
  {
    match j
    case JArray(items) =>
      forall i | 0 <= i < |items| ensures ReplaceBigInts(items[i]) == items[i] {
        ReplaceBigIntsIdentity(items[i]);
      }
      assert ReplaceBigInts(j).items == items;
    case JObject(ms) =>
      forall i | 0 <= i < |ms| ensures Member(ms[i].key, ReplaceBigInts(ms[i].value)) == ms[i] {
        ReplaceBigIntsIdentity(ms[i].value);
      }
      assert ReplaceBigInts(j).members == ms;
    case _ =>
  }

  /** The replacer is idempotent. */
  lemma ReplaceBigIntsIdempotent(j: Json)
    ensures ReplaceBigInts(ReplaceBigInts(j)) == ReplaceBigInts(j)
  {
  }

  /** The replacer keeps every key and, at the top level of an object, maps each
      BigInt member to a canonical decimal string that reads back to the same number. */
  lemma ReplaceBigIntMember(ms: seq<Member>, i: nat)
    requires i < |ms| && ms[i].value.JBigInt?
    ensures ReplaceBigInts(JObject(ms)).members[i].key == ms[i].key
    ensures ReplaceBigInts(JObject(ms)).members[i].value.JString?
    ensures IsCanonical(ReplaceBigInts(JObject(ms)).members[i].value.s)
    ensures ValueOf(ReplaceBigInts(JObject(ms)).members[i].value.s) == ms[i].value.big
  {
    IntToDecimalRoundTrip(ms[i].value.big);
  }

  /** The value of the first member named `key`; every object built here has unique keys,
      so it is the member property access finds. */
  function Lookup(ms: seq<Member>, key: string): Option<Json>
    decreases |ms|
  {
    if ms == [] then None
    else if ms[0].key == key then Some(ms[0].value)
    else Lookup(ms[1..], key)
  }

  /** A key no member has is not found. */
  lemma {:induction false} LookupMissing(ms: seq<Member>, key: string)
    requires forall j :: 0 <= j < |ms| ==> ms[j].key != key
    ensures Lookup(ms, key) == None
    decreases |ms|
  {
    if ms != [] {
      LookupMissing(ms[1..], key);
    }
  }

  /** Property lookup on a concatenation of members: the first part wins. */
  lemma {:induction false} LookupAppend(a: seq<Member>, b: seq<Member>, key: string)
    ensures Lookup(a + b, key) == if Lookup(a, key).Some? then Lookup(a, key) else Lookup(b, key)
    decreases |a|
  {
    if a != [] {
      assert (a + b)[0] == a[0];
      assert (a + b)[1..] == a[1..] + b;
      LookupAppend(a[1..], b, key);
    } else {
      assert a + b == b;
    }
  }

  /** `Lookup` finds the first member with the key. */
  lemma {:induction false} LookupAt(ms: seq<Member>, i: nat, key: string)
    requires i < |ms| && ms[i].key == key
    requires forall j :: 0 <= j < i ==> ms[j].key != key
    ensures Lookup(ms, key) == Some(ms[i].value)
    decreases i
  {
    if i > 0 {
      LookupAt(ms[1..], i - 1, key);
    }
  }

  predicate MembersNoBigInt(ms: seq<Member>) {
    forall i :: 0 <= i < |ms| ==> NoBigInt(ms[i].value)
  }

  /** Shorthand for an object member holding a string. */
  function Str(key: string, value: string): Member {
    Member(key, JString(value))
  }
}
