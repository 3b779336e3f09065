/** The JSON values that the service hands to `jsonify` and receives from
    `json.loads`, and a lookup of an object's member by key. */
module JsonValue {

  datatype Option<+T> = None | Some(value: T)

  /** A JSON value. Objects keep their members in insertion order, as a
      Python dict does; numbers are kept as exact reals. */
  datatype Json =
    | JNull
    | JBool(b: bool)
    | JNum(n: real)
    | JStr(s: string)
    | JArr(items: seq<Json>)
    | JObj(members: seq<(string, Json)>)

  /** The value stored under `key` in the members of an object, if any.
      The envelopes built by the service never repeat a key, so which of
      several equal keys wins is left open by the lemmas below. */
  function Find(members: seq<(string, Json)>, key: string): Option<Json>
  {
    if members == [] then None
    else if members[0].0 == key then Some(members[0].1)
    else Find(members[1..], key)
  }

  /** The member `key` of an object is the value of its first member with that key. */
  lemma {:induction false} FindFirst(members: seq<(string, Json)>, key: string, k: nat)
    requires k < |members| && members[k].0 == key
    requires forall m :: 0 <= m < k ==> members[m].0 != key
    ensures Find(members, key) == Some(members[k].1)
  {
    if k > 0 {
      FindFirst(members[1..], key, k - 1);
    }
  }

  /** An object without a member `key` has no value for it. */
  lemma {:induction false} FindAbsent(members: seq<(string, Json)>, key: string)
    requires forall m :: 0 <= m < |members| ==> members[m].0 != key
    ensures Find(members, key) == None
  {
    if members != [] {
      FindAbsent(members[1..], key);
    }
  }

  /** The member `key` of `j` when `j` is an object that has it. */
  function Get(j: Json, key: string): Option<Json>
  {
    if j.JObj? then Find(j.members, key) else None
  }

  /** The first element of `j` when `j` is a non-empty array. */
  function Head(j: Option<Json>): Option<Json>
  {
    if j.Some? && j.value.JArr? && |j.value.items| > 0 then Some(j.value.items[0]) else None
  }

  /** The text of `j` when `j` is a string. */
  function Text(j: Option<Json>): Option<string>
  {
    if j.Some? && j.value.JStr? then Some(j.value.s) else None
  }
}
