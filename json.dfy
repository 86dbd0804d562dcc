/** Decoded JSON payloads, as `json.loads` hands them to the mappers, and the
    handful of Python operations the mappers apply to them: subscripting a dict,
    `dict.get`, truth testing and iteration. */
module Json {
  import opened Errors

  /** A JSON value.  An object keeps its members as an ordered sequence of pairs,
      so that the key order of a Python dict stays observable.  JSON `null` is
      Python's `None`. */
  datatype Json =
    | JNull
    | JBool(b: bool)
    | JInt(i: int)
    | JStr(s: string)
    | JArr(items: seq<Json>)
    | JObj(members: seq<(string, Json)>)

  /** The value bound to `key` in an object's members: the first binding.  (A
      Python dict never binds a key twice; for such members this is the dict's own
      lookup.) */
  function Lookup(members: seq<(string, Json)>, key: string): (r: Option<Json>)
    ensures r.None? <==> forall i :: 0 <= i < |members| ==> members[i].0 != key
    ensures r.Some? ==> exists i :: 0 <= i < |members| && members[i] == (key, r.value)
                          && forall j :: 0 <= j < i ==> members[j].0 != key
  {
    if members == [] then None
    else if members[0].0 == key then Some(members[0].1)
    else
      var r := Lookup(members[1..], key);
      if r.Some? then
        ghost var i :| 0 <= i < |members[1..]| && members[1..][i] == (key, r.value)
                       && forall j :: 0 <= j < i ==> members[1..][j].0 != key;
        assert members[i + 1] == (key, r.value);
        r
      else
        r
  }

  /** The first binding of a key is the one read. */
  lemma LookupAt(members: seq<(string, Json)>, i: nat)
    requires i < |members| && forall j :: 0 <= j < i ==> members[j].0 != members[i].0
    ensures Lookup(members, members[i].0) == Some(members[i].1)
  {
    var r := Lookup(members, members[i].0);
    var i' :| 0 <= i' < |members| && members[i'] == (members[i].0, r.value)
              && forall j :: 0 <= j < i' ==> members[j].0 != members[i].0;
    assert i' == i;
  }

  /** `data` is a dict that has `key`. */
  predicate HasKey(data: Json, key: string) {
    data.JObj? && Lookup(data.members, key).Some?
  }

  /** `data` is a dict that has every key of `keys`. */
  predicate HasKeys(data: Json, keys: seq<string>) {
    forall i :: 0 <= i < |keys| ==> HasKey(data, keys[i])
  }

  /** The value of `data[key]` when `HasKey(data, key)`; a placeholder otherwise. */
  function At(data: Json, key: string): Json {
    if HasKey(data, key) then Lookup(data.members, key).value else JNull
  }

  /** The exception `data[key]` raises when `key` cannot be read. */
  function SubscriptError(data: Json, key: string): Error {
    if data.JObj? then KeyError(key) else NotSubscriptable(key)
  }

  /** Python's `data[key]`: a KeyError for a missing key, a TypeError when `data`
      is not a dict. */
  function Subscript(data: Json, key: string): (r: Result<Json>)
    ensures r.Ok? <==> HasKey(data, key)
    ensures r.Ok? ==> r.value == At(data, key)
    ensures r.Err? ==> r.error == SubscriptError(data, key)
  {
    match data
    case JObj(members) =>
      (match Lookup(members, key)
       case Some(v) => Ok(v)
       case None => Err(KeyError(key)))
    case _ => Err(NotSubscriptable(key))
  }

  /** Python's `data.get(key)`: `None` for a missing key. */
  function GetOrNone(data: Json, key: string): (r: Result<Json>)
    ensures r.Ok? <==> data.JObj?
    ensures HasKey(data, key) ==> r == Ok(At(data, key))
    ensures data.JObj? && !HasKey(data, key) ==> r == Ok(JNull)
  {
    match data
    case JObj(members) =>
      (match Lookup(members, key)
       case Some(v) => Ok(v)
       case None => Ok(JNull))
    case _ => Err(NoGetMethod(key))
  }

  /** The first key of `keys` that `data` lacks, as the error that reading the keys
      in order raises. */
  function FirstMissing(data: Json, keys: seq<string>): (e: Error)
    requires !HasKeys(data, keys)
    ensures !data.JObj? ==> e == NotSubscriptable(keys[0])
    ensures data.JObj? ==> exists i :: 0 <= i < |keys| && e == KeyError(keys[i])
                             && !HasKey(data, keys[i])
                             && forall j :: 0 <= j < i ==> HasKey(data, keys[j])
  {
    if !data.JObj? then NotSubscriptable(keys[0])
    else if !HasKey(data, keys[0]) then KeyError(keys[0])
    else
      assert !HasKeys(data, keys[1..]);
      var e := FirstMissing(data, keys[1..]);
      ghost var i :| 0 <= i < |keys[1..]| && e == KeyError(keys[1..][i])
                     && !HasKey(data, keys[1..][i])
                     && forall j :: 0 <= j < i ==> HasKey(data, keys[1..][j]);
      assert keys[i + 1] == keys[1..][i];
      e
  }

  /** A mapper that rejects every value but a dict succeeds on a list by mapping
      its elements; on anything else it yields `[]`, and only for an empty dict or
      an empty string, whose iteration gives nothing. */
  lemma ListCompOfMapper<T>(f: Json -> Result<T>, v: Json)
    requires forall x: Json :: !x.JObj? ==> f(x).Err?
    requires ListComp(f, v).Ok?
    ensures v.JArr? ==> MapsEach(f, v.items, ListComp(f, v).value)
    ensures !v.JArr? ==> (v == JStr([]) || v == JObj([])) && ListComp(f, v).value == []
  {
    if !v.JArr? {
      var items := Iterate(v).value;
      assert |items| == 0;
    }
  }

  /** `[f(x) for x in data[key]]`: the key is required and its value iterated. */
  function ListAt<T>(f: Json -> Result<T>, data: Json, key: string): (r: Result<seq<T>>)
    ensures r.Ok? <==> HasKey(data, key) && ListComp(f, At(data, key)).Ok?
    ensures HasKey(data, key) ==> r == ListComp(f, At(data, key))
    ensures !HasKey(data, key) ==> r == Err(SubscriptError(data, key))
  {
    var v :- Subscript(data, key);
    ListComp(f, v)
  }

  /** `data[keys[0]], data[keys[1]], ...` evaluated left to right, as the keyword
      arguments of a constructor call are: the values in order, or the error of
      the first key that cannot be read. */
  function ReadKeys(data: Json, keys: seq<string>): (r: Result<seq<Json>>)
    ensures r.Ok? <==> HasKeys(data, keys)
    ensures r.Ok? ==> |r.value| == |keys| && forall i :: 0 <= i < |keys| ==> r.value[i] == At(data, keys[i])
    ensures r.Err? ==> r.error == FirstMissing(data, keys)
  {
    if keys == [] then Ok([])
    else
      var v :- Subscript(data, keys[0]);
      assert HasKeys(data, keys) <==> HasKeys(data, keys[1..]) by {
        assert forall i :: 0 <= i < |keys[1..]| ==> keys[1..][i] == keys[i + 1];
      }
      var rest :- ReadKeys(data, keys[1..]);
      Ok([v] + rest)
  }

  /** Python's truth value of a decoded JSON value: `None`, `False`, `0`, `""`,
      `[]` and `{}` are false, everything else is true. */
  predicate Truthy(v: Json) {
    match v
    case JNull => false
    case JBool(b) => b
    case JInt(i) => i != 0
    case JStr(s) => s != ""
    case JArr(items) => items != []
    case JObj(members) => members != []
  }

  /** What `for x in v` yields: the elements of a list, the keys of a dict, the
      one-character strings of a str; any other value is not iterable. */
  function Iterate(v: Json): (r: Result<seq<Json>>)
    ensures r.Ok? <==> v.JArr? || v.JObj? || v.JStr?
    ensures v.JArr? ==> r == Ok(v.items)
    ensures v.JObj? ==> r.Ok? && |r.value| == |v.members|
                        && forall i :: 0 <= i < |v.members| ==> r.value[i] == JStr(v.members[i].0)
    ensures v.JStr? ==> r.Ok? && |r.value| == |v.s|
                        && forall i :: 0 <= i < |v.s| ==> r.value[i] == JStr([v.s[i]])
  {
    match v
    case JArr(items) => Ok(items)
    case JObj(members) => Ok(seq(|members|, i requires 0 <= i < |members| => JStr(members[i].0)))
    case JStr(s) => Ok(seq(|s|, i requires 0 <= i < |s| => JStr([s[i]])))
    case _ => Err(NotIterable)
  }

  /** `out` is `items` mapped element by element by `f`, in order. */
  ghost predicate MapsEach<T>(f: Json -> Result<T>, items: seq<Json>, out: seq<T>) {
    |out| == |items| && forall i :: 0 <= i < |items| ==> f(items[i]) == Ok(out[i])
  }

  /** `[f(x) for x in items]`: every element mapped in order; the first failing
      element's error aborts the whole list. */
  function MapEach<T>(f: Json -> Result<T>, items: seq<Json>): (r: Result<seq<T>>)
    ensures r.Ok? <==> forall i :: 0 <= i < |items| ==> f(items[i]).Ok?
    ensures r.Ok? ==> MapsEach(f, items, r.value)
    ensures r.Err? ==> exists i :: 0 <= i < |items| && f(items[i]) == Err(r.error)
                         && forall j :: 0 <= j < i ==> f(items[j]).Ok?
  {
    if items == [] then Ok([])
    else
      var head :- f(items[0]);
      var tail :- MapEach(f, items[1..]);
      Ok([head] + tail)
  }

  /** `[f(x) for x in v]`, including the iteration of `v` itself. */
  function ListComp<T>(f: Json -> Result<T>, v: Json): (r: Result<seq<T>>)
    ensures r.Ok? <==> Iterate(v).Ok? && forall i :: 0 <= i < |Iterate(v).value| ==> f(Iterate(v).value[i]).Ok?
    ensures r.Ok? ==> MapsEach(f, Iterate(v).value, r.value)
    ensures Iterate(v).Err? ==> r == Err(NotIterable)
    ensures Iterate(v).Ok? && r.Err? ==>
              exists i :: 0 <= i < |Iterate(v).value| && f(Iterate(v).value[i]) == Err(r.error)
                          && forall j :: 0 <= j < i ==> f(Iterate(v).value[j]).Ok?
  {
    var items :- Iterate(v);
    MapEach(f, items)
  }
}
