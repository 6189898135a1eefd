/** Decoded JSON as the Python components see it: `dict` objects keep their keys in
    document order, `int` and `float` are distinct, and a lookup that Python would
    refuse is an error result naming the exception. */
module PyJson {
  import opened Wrappers

  datatype Json =
    | JNull
    | JBool(b: bool)
    | JInt(i: int)
    | JNum(r: real)
    | JStr(s: string)
    | JArray(items: seq<Json>)
    | JObject(members: seq<Member>)

  /** One `key: value` entry of a `dict`, in insertion order. */
  datatype Member = Member(key: string, value: Json)

  function Keys(members: seq<Member>): (ks: seq<string>)
    ensures |ks| == |members|
    ensures forall i :: 0 <= i < |members| ==> ks[i] == members[i].key
  {
    if members == [] then [] else Keys(members[..|members| - 1]) + [members[|members| - 1].key]
  }

  predicate HasKey(members: seq<Member>, k: string) {
    k in Keys(members)
  }

  /** `d[k]` on a dict: the value stored under the first entry with that key. */
  function Lookup(members: seq<Member>, k: string): (r: Option<Json>)
    ensures r.Some? <==> HasKey(members, k)
    ensures r.Some? ==> exists i :: 0 <= i < |members| && members[i] == Member(k, r.value)
  {
    if members == [] then None
    else if members[0].key == k then
      Some(members[0].value)
    else
      var r := Lookup(members[1..], k);
      assert Keys(members) == [members[0].key] + Keys(members[1..]);
      assert r.Some? ==> exists i :: 0 <= i < |members[1..]| && members[1..][i] == Member(k, r.value);
      r
  }

  /** A value found in a dict is smaller than the dict, so recursion into it terminates. */
  lemma LookupSmaller(members: seq<Member>, k: string)
    requires Lookup(members, k).Some?
    ensures Lookup(members, k).value < JObject(members)
  {
    var i :| 0 <= i < |members| && members[i] == Member(k, Lookup(members, k).value);
    assert members[i] in members;
  }

  /** `d.get(k, default)` */
  function GetOr(members: seq<Member>, k: string, default: Json): (r: Json)
    ensures HasKey(members, k) ==> r == Lookup(members, k).value
    ensures !HasKey(members, k) ==> r == default
  {
    var found := Lookup(members, k);
    if found.Some? then found.value else default
  }

  function Quote(k: string): string { "'" + k + "'" }

  /** `x[k]` for a string key: a dict lookup, `KeyError` for a missing key and
      `TypeError` on anything that is not a dict. */
  function Subscript(x: Json, k: string): (r: Result<Json>)
    ensures r.Ok? <==> x.JObject? && HasKey(x.members, k)
    ensures r.Ok? ==> r.value == Lookup(x.members, k).value
    ensures x.JObject? && !HasKey(x.members, k) ==> r == Err("KeyError: " + Quote(k))
  {
    if !x.JObject? then Err("TypeError")
    else
      var found := Lookup(x.members, k);
      if found.Some? then Ok(found.value) else Err("KeyError: " + Quote(k))
  }

  /** `x.get(k, default)`: only a dict has `get`. */
  function DictGet(x: Json, k: string, default: Json): (r: Result<Json>)
    ensures r.Ok? <==> x.JObject?
    ensures r.Ok? ==> r.value == GetOr(x.members, k, default)
  {
    if x.JObject? then Ok(GetOr(x.members, k, default)) else Err("AttributeError")
  }

  /** `k` occurs in `s` starting at index `i`. */
  predicate OccursAt(k: string, s: string, i: int) {
    0 <= i <= |s| - |k| && s[i..i + |k|] == k
  }

  predicate IsSubstring(k: string, s: string) {
    exists i | 0 <= i <= |s| :: OccursAt(k, s, i)
  }

  /** `k in x` for a string `k`: a key test on a dict, a membership test on a list and
      a substring test on a string; any other operand raises `TypeError`. */
  function Contains(x: Json, k: string): (r: Result<bool>)
    ensures r.Ok? <==> (x.JObject? || x.JArray? || x.JStr?)
    ensures x.JObject? ==> r == Ok(HasKey(x.members, k))
    ensures x.JArray? ==> r == Ok(JStr(k) in x.items)
    ensures x.JStr? ==> r == Ok(IsSubstring(k, x.s))
  {
    match x
    case JObject(members) => Ok(HasKey(members, k))
    case JArray(items) => Ok(JStr(k) in items)
    case JStr(s) => Ok(IsSubstring(k, s))
    case _ => Err("TypeError")
  }

  /** The value reached from `x` by the dict lookups `keys`, if every step finds a dict
      holding the next key. */
  function At(x: Json, keys: seq<string>): Option<Json>
    decreases |keys|
  {
    if keys == [] then Some(x)
    else if !x.JObject? then None
    else
      var v := Lookup(x.members, keys[0]);
      if v.None? then None else At(v.value, keys[1..])
  }

  /** The first step of a path is one dict lookup. */
  lemma AtCons(x: Json, k: string, rest: seq<string>)
    ensures At(x, [k] + rest)
            == if x.JObject? && HasKey(x.members, k) then At(Lookup(x.members, k).value, rest) else None
  {
    assert ([k] + rest)[0] == k && ([k] + rest)[1..] == rest;
  }

  /** Following `p` and then `q` is following `p + q`. */
  lemma {:induction false} AtAppend(x: Json, p: seq<string>, q: seq<string>)
    ensures At(x, p + q) == if At(x, p).Some? then At(At(x, p).value, q) else None
    decreases |p|
  {
    if p == [] {
      assert p + q == q;
    } else {
      assert (p + q)[0] == p[0] && (p + q)[1..] == p[1..] + q;
      if x.JObject? && Lookup(x.members, p[0]).Some? {
        AtAppend(Lookup(x.members, p[0]).value, p[1..], q);
      }
    }
  }
}

