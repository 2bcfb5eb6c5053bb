/**
 * The in-memory JSON tree the generic mapper parses a document into.
 * An object keeps its members in order; when a key occurs twice the
 * tree keeps the value written last, as the mapper's object does.
 */
module Json {

  datatype Option<+T> = None | Some(value: T)

  datatype Json =
    | JNull
    | JBool(b: bool)
    | JNumber(text: string)
    | JString(s: string)
    | JArray(items: seq<Json>)
    | JObject(members: seq<Member>)

  datatype Member = Member(key: string, value: Json)

  /** Number of nodes of a tree; embeds are decoded on strictly smaller trees. */
  function Size(j: Json): nat
  {
    match j
    case JArray(items) => 1 + ItemsSize(items)
    case JObject(ms) => 1 + MembersSize(ms)
    case _ => 1
  }

  function ItemsSize(items: seq<Json>): nat
  {
    if items == [] then 0 else ItemsSize(items[..|items| - 1]) + Size(items[|items| - 1])
  }

  function MembersSize(ms: seq<Member>): nat
  {
    if ms == [] then 0 else MembersSize(ms[..|ms| - 1]) + Size(ms[|ms| - 1].value)
  }

  /** The value stored under `key`: the last member with that key, if any. */
  function Get(ms: seq<Member>, key: string): (r: Option<Json>)
    ensures r.Some? <==> exists i :: 0 <= i < |ms| && ms[i].key == key
    ensures r.Some? ==> exists i :: 0 <= i < |ms| && ms[i] == Member(key, r.value)
    ensures r.Some? ==> Size(r.value) <= MembersSize(ms)
  {
    if ms == [] then None
    else if ms[|ms| - 1].key == key then Some(ms[|ms| - 1].value)
    else
      var r := Get(ms[..|ms| - 1], key);
      assert forall i :: 0 <= i < |ms| - 1 ==> ms[..|ms| - 1][i] == ms[i];
      r
  }

  /** `JsonObject.has`: some member carries the key. */
  predicate Has(ms: seq<Member>, key: string)
  {
    Get(ms, key).Some?
  }

  /** A later member with the same key hides every earlier one. */
  lemma {:induction false} LastMemberWins(ms: seq<Member>, key: string, v: Json)
    ensures Get(ms + [Member(key, v)], key) == Some(v)
  {
    var ms' := ms + [Member(key, v)];
    assert ms'[|ms'| - 1] == Member(key, v);
  }

  /** Appending a member under another key leaves a lookup unchanged. */
  lemma {:induction false} OtherMemberInvisible(ms: seq<Member>, key: string, other: Member)
    requires other.key != key
    ensures Get(ms + [other], key) == Get(ms, key)
  {
    var ms' := ms + [other];
    assert ms'[..|ms'| - 1] == ms;
  }
}
