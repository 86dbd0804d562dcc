/** The shared serialisation of `Base` (backlog/models/base.py): `to_dict`, the
    `_convert_value` hook and what `to_json_string` hands to the JSON encoder.

    Python walks `self.__dict__` by reflection.  Here a model instance is the
    value `PModel(attrs)`, whose `attrs` are its attribute names and values in
    declaration order; each model module lists its own attributes explicitly. */
module Base {
  import opened Errors
  import opened Json
  import opened Timestamp

  /** The Python values a model attribute or a `to_dict` result can hold.
      `PModel` is an instance of a `Base` subclass, the only kind of value that
      has a `to_dict` method. */
  datatype PyValue =
    | PNone
    | PBool(b: bool)
    | PInt(i: int)
    | PStr(s: string)
    | PList(items: seq<PyValue>)
    | PDict(entries: seq<(string, PyValue)>)
    | PDateTime(t: Timestamp)
    | PModel(attrs: seq<(string, PyValue)>)

  function Keys(entries: seq<(string, PyValue)>): (ks: seq<string>)
    ensures |ks| == |entries|
    ensures forall i :: 0 <= i < |entries| ==> ks[i] == entries[i].0
  {
    seq(|entries|, i requires 0 <= i < |entries| => entries[i].0)
  }

  /** The Python object `json.loads` builds for a JSON value. */
  function FromJson(j: Json): PyValue {
    match j
    case JNull => PNone
    case JBool(b) => PBool(b)
    case JInt(i) => PInt(i)
    case JStr(s) => PStr(s)
    case JArr(items) => PList(seq(|items|, i requires 0 <= i < |items| => FromJson(items[i])))
    case JObj(members) =>
      PDict(seq(|members|, i requires 0 <= i < |members| => (members[i].0, FromJson(members[i].1))))
  }

  // ---------------------------------------------------------------------------
  // Reading timestamps

  /** `datetime.strptime(v, _DATETIME_FORMAT)` on a decoded JSON value: a str is
      parsed, anything else is a TypeError. */
  function Strptime(v: Json): (r: Result<Timestamp>)
    ensures v.JStr? ==> r == Parse(v.s)
    ensures !v.JStr? ==> r == Err(NotAString)
  {
    match v
    case JStr(s) => Parse(s)
    case _ => Err(NotAString)
  }

  /** `datetime.strptime(data[key], cls._DATETIME_FORMAT)`: the key is required
      and its value must be a timestamp string. */
  function TimeAt(data: Json, key: string): (r: Result<Timestamp>)
    ensures r.Ok? <==> HasKey(data, key) && Strptime(At(data, key)).Ok?
    ensures HasKey(data, key) ==> r == Strptime(At(data, key))
    ensures !HasKey(data, key) ==> r == Err(SubscriptError(data, key))
  {
    var v :- Subscript(data, key);
    Strptime(v)
  }

  /** `datetime.strptime(v, ...) if v else None`: a false value (None, "", 0, ...)
      gives no timestamp without being parsed. */
  function StrptimeIfTruthy(v: Json): (r: Result<Option<Timestamp>>)
    ensures !Truthy(v) ==> r == Ok(None)
    ensures Truthy(v) && v.JStr? ==> (r.Ok? <==> Parse(v.s).Ok?) && (r.Ok? ==> r.value == Some(Parse(v.s).value))
    ensures Truthy(v) && !v.JStr? ==> r == Err(NotAString)
  {
    if Truthy(v) then
      var t :- Strptime(v);
      Ok(Some(t))
    else Ok(None)
  }

  /** `datetime.strptime(data[key], ...) if data[key] else None`: the key is
      required, its value tested first and parsed only when true. */
  function OptionalTimeAt(data: Json, key: string): (r: Result<Option<Timestamp>>)
    ensures r.Ok? <==> HasKey(data, key) && StrptimeIfTruthy(At(data, key)).Ok?
    ensures HasKey(data, key) ==> r == StrptimeIfTruthy(At(data, key))
    ensures !HasKey(data, key) ==> r == Err(SubscriptError(data, key))
  {
    var v :- Subscript(data, key);
    StrptimeIfTruthy(v)
  }

  /** The attribute value of an optional timestamp. */
  function OptionalTime(t: Option<Timestamp>): PyValue {
    match t
    case Some(t) => PDateTime(t)
    case None => PNone
  }

  // ---------------------------------------------------------------------------
  // to_dict

  /** `self.to_dict()` of the instance whose attributes are `attrs`. */
  function ToDict(attrs: seq<(string, PyValue)>): (d: seq<(string, PyValue)>)
    ensures |d| <= |attrs|
    decreases PModel(attrs), 0, |attrs| + 1
  {
    DictPrefix(PModel(attrs), |attrs|)
  }

  /** The dictionary `to_dict` has built after its first `n` iterations over the
      attributes of `model`. */
  function DictPrefix(model: PyValue, n: nat): (d: seq<(string, PyValue)>)
    requires model.PModel? && n <= |model.attrs|
    ensures |d| <= n
    decreases model, 0, n
  {
    if n == 0 then []
    else
      var before := DictPrefix(model, n - 1);
      var (key, value) := model.attrs[n - 1];
      match Converted(value)
      case None => before
      case Some(v) => before + [(key, v)]
  }

  /** What one iteration of `to_dict` stores for an attribute value, or `None`
      when it stores nothing: a list becomes a new list of its converted items, a
      model its own `to_dict()`, `None` is skipped, anything else is kept. */
  function Converted(value: PyValue): (r: Option<PyValue>)
    ensures r.None? <==> value == PNone
    ensures value.PList? ==> r.Some? && r.value.PList? && |r.value.items| == |value.items|
    decreases value, 1
  {
    match value
    case PList(items) => Some(PList(seq(|items|, i requires 0 <= i < |items| => ConvertedItem(items[i]))))
    case PModel(attrs) => Some(PDict(ToDict(attrs)))
    case PNone => None
    case _ => Some(value)
  }

  /** One list item in `to_dict`: `item.to_dict()` if it has one, else the item. */
  function ConvertedItem(item: PyValue): PyValue
    decreases item, 1
  {
    match item
    case PModel(attrs) => PDict(ToDict(attrs))
    case _ => item
  }

  /** `to_dict` as the source runs it: a loop over the attributes that fills the
      result dictionary, with an inner loop for list attributes. */
  method ToDictLoop(attrs: seq<(string, PyValue)>) returns (data: seq<(string, PyValue)>)
    ensures data == ToDict(attrs)
    decreases PModel(attrs)
  {
    ghost var model := PModel(attrs);
    data := [];
    var n := 0;
    while n < |attrs|
      invariant 0 <= n <= |attrs|
      invariant data == DictPrefix(model, n)
    {
      var (key, value) := attrs[n];
      assert attrs[n] in attrs;
      match value {
        case PList(items) =>
          var list: seq<PyValue> := [];
          var j := 0;
          while j < |items|
            invariant 0 <= j <= |items|
            invariant |list| == j
            invariant forall k :: 0 <= k < j ==> list[k] == ConvertedItem(items[k])
          {
            var item := items[j];
            assert item in items;
            if item.PModel? {
              var d := ToDictLoop(item.attrs);
              list := list + [PDict(d)];
            } else {
              list := list + [item];
            }
            j := j + 1;
          }
          assert list == seq(|items|, i requires 0 <= i < |items| => ConvertedItem(items[i]));
          data := data + [(key, PList(list))];
        case PModel(a) =>
          var d := ToDictLoop(a);
          data := data + [(key, PDict(d))];
        case PNone =>
        case _ =>
          data := data + [(key, value)];
      }
      assert model.attrs[n] == (key, value);
      n := n + 1;
    }
  }

  // ---------------------------------------------------------------------------
  // _convert_value and to_json_string

  /** `_convert_value`, the `default` hook of `json.dumps`: a datetime is rendered
      with the fixed pattern, any other value is refused with a TypeError. */
  function ConvertValue(value: PyValue): (r: Result<PyValue>)
    ensures r.Ok? <==> value.PDateTime?
    ensures r.Ok? ==> r.value.PStr? && Parse(r.value.s) == Ok(value.t)
    ensures r.Err? ==> r.error == CannotConvert
  {
    match value
    case PDateTime(t) =>
      ParseFormat(t);
      Ok(PStr(Format(t)))
    case _ => Err(CannotConvert)
  }

  /** The JSON value `json.dumps(value, default=_convert_value)` writes out; the
      hook is called for every value the encoder cannot serialise itself. */
  function Dump(value: PyValue): (r: Result<Json>)
    ensures r.Err? ==> r.error == CannotConvert
    ensures value == PNone ==> r == Ok(JNull)
    ensures value.PDateTime? ==> r == Ok(JStr(Format(value.t)))
    ensures value.PModel? ==> r == Err(CannotConvert)
    ensures value.PList? && r.Ok? ==> r.value.JArr? && |r.value.items| == |value.items|
    ensures value.PDict? && r.Ok? ==>
              r.value.JObj? && |r.value.members| == |value.entries|
              && forall i :: 0 <= i < |value.entries| ==> r.value.members[i].0 == value.entries[i].0
    decreases value, 1
  {
    match value
    case PNone => Ok(JNull)
    case PBool(b) => Ok(JBool(b))
    case PInt(i) => Ok(JInt(i))
    case PStr(s) => Ok(JStr(s))
    case PList(items) =>
      var rs := DumpedItems(value);
      if forall i :: 0 <= i < |rs| ==> rs[i].Ok? then
        Ok(JArr(seq(|rs|, i requires 0 <= i < |rs| && rs[i].Ok? => rs[i].value)))
      else Err(CannotConvert)
    case PDict(entries) =>
      var rs := DumpedItems(value);
      if forall i :: 0 <= i < |rs| ==> rs[i].Ok? then
        Ok(JObj(seq(|rs|, i requires 0 <= i < |rs| && rs[i].Ok? => (entries[i].0, rs[i].value))))
      else Err(CannotConvert)
    case PDateTime(_) => Ok(JStr(ConvertValue(value).value.s))
    case PModel(_) => Err(ConvertValue(value).error)
  }

  /** The encoder's result for each item of a list, or each value of a dict. */
  function DumpedItems(value: PyValue): (rs: seq<Result<Json>>)
    requires value.PList? || value.PDict?
    ensures value.PList? ==> |rs| == |value.items| && forall i :: 0 <= i < |rs| ==> rs[i] == Dump(value.items[i])
    ensures value.PDict? ==> |rs| == |value.entries| && forall i :: 0 <= i < |rs| ==> rs[i] == Dump(value.entries[i].1)
    decreases value, 0
  {
    match value
    case PList(items) => seq(|items|, i requires 0 <= i < |items| => Dump(items[i]))
    case PDict(entries) =>
      seq(|entries|, i requires 0 <= i < |entries| => assert entries[i] in entries; Dump(entries[i].1))
  }

  /** `to_json_string()`: the dictionary of `to_dict()` as the encoder writes it,
      in the same key order.  The character-level encoding is not modelled. */
  function ToJsonString(attrs: seq<(string, PyValue)>): (r: Result<Json>)
    ensures r.Err? ==> r.error == CannotConvert
    ensures r.Ok? ==> r.value.JObj? && |r.value.members| == |ToDict(attrs)|
                      && forall i :: 0 <= i < |ToDict(attrs)| ==> r.value.members[i].0 == ToDict(attrs)[i].0
  {
    Dump(PDict(ToDict(attrs)))
  }

  // ---------------------------------------------------------------------------
  // What to_dict promises

  /** A model instance: every attribute value is either a nested model, a list
      whose items are models or plain values, or a plain value. */
  predicate ModelShaped(attrs: seq<(string, PyValue)>)
    decreases PModel(attrs), 0
  {
    forall i :: 0 <= i < |attrs| ==> AttrShaped(attrs[i].1)
  }

  predicate AttrShaped(value: PyValue)
    decreases value, 1
  {
    match value
    case PModel(attrs) => ModelShaped(attrs)
    case PList(items) => forall i :: 0 <= i < |items| ==> ItemShaped(items[i])
    case _ => Plain(value)
  }

  predicate ItemShaped(item: PyValue)
    decreases item, 1
  {
    match item
    case PModel(attrs) => ModelShaped(attrs)
    case _ => Plain(item)
  }

  /** A value with no model instance anywhere inside: what the JSON encoder can
      write, given the datetime hook. */
  predicate Plain(value: PyValue) {
    match value
    case PModel(_) => false
    case PList(items) => forall i :: 0 <= i < |items| ==> Plain(items[i])
    case PDict(entries) => forall i :: 0 <= i < |entries| ==> Plain(entries[i].1)
    case _ => true
  }

  /** The first `n` iterations depend only on the first `n` attributes. */
  lemma {:induction false} DictPrefixOnlyReadsPrefix(m1: PyValue, m2: PyValue, n: nat)
    requires m1.PModel? && m2.PModel? && n <= |m1.attrs| && n <= |m2.attrs|
    requires m1.attrs[..n] == m2.attrs[..n]
    ensures DictPrefix(m1, n) == DictPrefix(m2, n)
  {
    if n > 0 {
      assert m1.attrs[..n - 1] == m2.attrs[..n - 1];
      assert m1.attrs[n - 1] == m1.attrs[..n][n - 1] == m2.attrs[n - 1];
      DictPrefixOnlyReadsPrefix(m1, m2, n - 1);
    }
  }

  lemma {:induction false} DictPrefixAppend(a: seq<(string, PyValue)>, b: seq<(string, PyValue)>, k: nat)
    requires k <= |b|
    ensures DictPrefix(PModel(a + b), |a| + k) == ToDict(a) + DictPrefix(PModel(b), k)
  {
    if k == 0 {
      assert (a + b)[..|a|] == a[..|a|];
      DictPrefixOnlyReadsPrefix(PModel(a + b), PModel(a), |a|);
    } else {
      DictPrefixAppend(a, b, k - 1);
      assert (a + b)[|a| + k - 1] == b[k - 1];
    }
  }

  /** `to_dict` treats the attributes one after the other: the result for two runs
      of attributes is the two results one after the other, so output keys keep
      the declaration order. */
  lemma ToDictAppend(a: seq<(string, PyValue)>, b: seq<(string, PyValue)>)
    ensures ToDict(a + b) == ToDict(a) + ToDict(b)
  {
    DictPrefixAppend(a, b, |b|);
  }

  /** One attribute on its own: skipped when it is None, otherwise stored under its
      own name as its converted value. */
  lemma ToDictSingle(key: string, value: PyValue)
    ensures ToDict([(key, value)]) == if value == PNone then [] else [(key, Converted(value).value)]
  {
    assert DictPrefix(PModel([(key, value)]), 0) == [];
  }

  lemma {:induction false} DictPrefixNoNone(model: PyValue, n: nat)
    requires model.PModel? && n <= |model.attrs|
    ensures forall i :: 0 <= i < |DictPrefix(model, n)| ==> DictPrefix(model, n)[i].1 != PNone
    ensures forall i :: 0 <= i < |DictPrefix(model, n)| ==>
              exists j :: 0 <= j < n && model.attrs[j].1 != PNone
                && DictPrefix(model, n)[i] == (model.attrs[j].0, Converted(model.attrs[j].1).value)
  {
    if n > 0 {
      DictPrefixNoNone(model, n - 1);
      var before := DictPrefix(model, n - 1);
      var d := DictPrefix(model, n);
      forall i | 0 <= i < |DictPrefix(model, n)|
        ensures exists j :: 0 <= j < n && model.attrs[j].1 != PNone
                  && DictPrefix(model, n)[i] == (model.attrs[j].0, Converted(model.attrs[j].1).value)
      {
        if i < |before| {
          assert d[i] == before[i];
          var j :| 0 <= j < n - 1 && model.attrs[j].1 != PNone
                   && before[i] == (model.attrs[j].0, Converted(model.attrs[j].1).value);
        } else {
          assert d[i] == (model.attrs[n - 1].0, Converted(model.attrs[n - 1].1).value);
        }
      }
    } else {
      assert DictPrefix(model, n) == [];
    }
  }

  /** `to_dict` never writes a None value: every entry it writes comes from an
      attribute that is not None, under that attribute's name. */
  lemma ToDictNeverNone(attrs: seq<(string, PyValue)>)
    ensures forall i :: 0 <= i < |ToDict(attrs)| ==> ToDict(attrs)[i].1 != PNone
    ensures forall i :: 0 <= i < |ToDict(attrs)| ==>
              exists j :: 0 <= j < |attrs| && attrs[j].1 != PNone
                && ToDict(attrs)[i] == (attrs[j].0, Converted(attrs[j].1).value)
  {
    var m := PModel(attrs);
    DictPrefixNoNone(m, |attrs|);
    var d := ToDict(attrs);
    assert d == DictPrefix(m, |attrs|);
    forall i | 0 <= i < |d|
      ensures exists j :: 0 <= j < |attrs| && attrs[j].1 != PNone && d[i] == (attrs[j].0, Converted(attrs[j].1).value)
    {
      var j :| 0 <= j < |attrs| && m.attrs[j].1 != PNone && d[i] == (m.attrs[j].0, Converted(m.attrs[j].1).value);
    }
  }

  /** Every key `to_dict` writes is one of the instance's attribute names. */
  lemma ToDictKeysFromAttrs(attrs: seq<(string, PyValue)>)
    ensures forall i :: 0 <= i < |ToDict(attrs)| ==> ToDict(attrs)[i].0 in Keys(attrs)
  {
    ToDictNeverNone(attrs);
    forall i | 0 <= i < |ToDict(attrs)| ensures ToDict(attrs)[i].0 in Keys(attrs) {
      var j :| 0 <= j < |attrs| && attrs[j].1 != PNone && ToDict(attrs)[i] == (attrs[j].0, Converted(attrs[j].1).value);
      assert Keys(attrs)[j] == attrs[j].0;
    }
  }

  /** An attribute that is not None leaves its converted value in `to_dict`,
      under its own name. */
  lemma ToDictEntry(attrs: seq<(string, PyValue)>, j: nat)
    requires j < |attrs| && attrs[j].1 != PNone
    ensures (attrs[j].0, Converted(attrs[j].1).value) in ToDict(attrs)
  {
    var pre, mid, post := attrs[..j], attrs[j..j + 1], attrs[j + 1..];
    assert attrs == pre + (mid + post);
    assert mid == [(attrs[j].0, attrs[j].1)];
    ToDictAppend(pre, mid + post);
    ToDictAppend(mid, post);
    ToDictSingle(attrs[j].0, attrs[j].1);
  }

  /** A nested model attribute is stored as that model's own `to_dict()`. */
  lemma ToDictNestedModel(attrs: seq<(string, PyValue)>, j: nat)
    requires j < |attrs| && attrs[j].1.PModel?
    ensures (attrs[j].0, PDict(ToDict(attrs[j].1.attrs))) in ToDict(attrs)
  {
    ToDictEntry(attrs, j);
  }

  /** A list attribute is stored as a new list with the same items in the same
      order, each item that has a `to_dict()` replaced by it. */
  lemma ToDictListItems(attrs: seq<(string, PyValue)>, j: nat)
    requires j < |attrs| && attrs[j].1.PList?
    ensures var items := attrs[j].1.items;
            (attrs[j].0, PList(seq(|items|, i requires 0 <= i < |items| =>
                                     if items[i].PModel? then PDict(ToDict(items[i].attrs)) else items[i])))
            in ToDict(attrs)
  {
    ToDictEntry(attrs, j);
    var items := attrs[j].1.items;
    assert Converted(attrs[j].1).value
        == PList(seq(|items|, i requires 0 <= i < |items| =>
                       if items[i].PModel? then PDict(ToDict(items[i].attrs)) else items[i]));
  }

  /** Any other attribute that is not None is stored as it is. */
  lemma ToDictKeepsPlain(attrs: seq<(string, PyValue)>, j: nat)
    requires j < |attrs| && attrs[j].1 != PNone && !attrs[j].1.PList? && !attrs[j].1.PModel?
    ensures attrs[j] in ToDict(attrs)
  {
    ToDictEntry(attrs, j);
  }

  /** Attribute names of a model are distinct, as those of a Python object are. */
  predicate DistinctKeys(attrs: seq<(string, PyValue)>) {
    forall i, j :: 0 <= i < j < |attrs| ==> attrs[i].0 != attrs[j].0
  }

  /** A None attribute leaves no key behind: it is omitted, not written as null. */
  lemma ToDictOmitsNone(attrs: seq<(string, PyValue)>, j: nat)
    requires DistinctKeys(attrs) && j < |attrs| && attrs[j].1 == PNone
    ensures attrs[j].0 !in Keys(ToDict(attrs))
  {
    ToDictNeverNone(attrs);
    var d := ToDict(attrs);
    forall i | 0 <= i < |d| ensures d[i].0 != attrs[j].0 {
      var j' :| 0 <= j' < |attrs| && attrs[j'].1 != PNone
                && d[i] == (attrs[j'].0, Converted(attrs[j'].1).value);
      assert j' != j;
    }
  }

  lemma {:induction false} DictPrefixAllSet(model: PyValue, n: nat)
    requires model.PModel? && n <= |model.attrs|
    requires forall j :: 0 <= j < n ==> model.attrs[j].1 != PNone
    ensures |DictPrefix(model, n)| == n
    ensures forall j :: 0 <= j < n ==>
              DictPrefix(model, n)[j] == (model.attrs[j].0, Converted(model.attrs[j].1).value)
  {
    if n > 0 {
      DictPrefixAllSet(model, n - 1);
    }
  }

  /** With no None attribute, `to_dict` has exactly one entry per attribute, in
      declaration order, each the converted attribute value. */
  lemma ToDictAllSet(attrs: seq<(string, PyValue)>)
    requires forall j :: 0 <= j < |attrs| ==> attrs[j].1 != PNone
    ensures Keys(ToDict(attrs)) == Keys(attrs)
    ensures forall j :: 0 <= j < |attrs| ==> ToDict(attrs)[j].1 == Converted(attrs[j].1).value
  {
    DictPrefixAllSet(PModel(attrs), |attrs|);
  }

  // ---------------------------------------------------------------------------
  // What the encoder writes

  /** A decoded JSON value is written back out as itself. */
  lemma {:induction false} DumpFromJson(j: Json)
    ensures Dump(FromJson(j)) == Ok(j)
    decreases j
  {
    match j
    case JArr(items) =>
      var v := FromJson(j);
      forall i | 0 <= i < |items| ensures Dump(v.items[i]) == Ok(items[i]) {
        DumpFromJson(items[i]);
      }
      assert Dump(v).value.items == items;
    case JObj(members) =>
      var v := FromJson(j);
      forall i | 0 <= i < |members| ensures Dump(v.entries[i].1) == Ok(members[i].1) {
        assert members[i] in members;
        DumpFromJson(members[i].1);
      }
      assert Dump(v).value.members == members;
    case _ =>
  }

  /** The encoder succeeds exactly on values with no model instance inside; a
      model instance reaches the hook, which raises TypeError. */
  lemma {:induction false} DumpSucceedsIffPlain(value: PyValue)
    ensures Dump(value).Ok? <==> Plain(value)
    decreases value
  {
    match value
    case PList(items) =>
      var rs := DumpedItems(value);
      forall i | 0 <= i < |items| ensures rs[i].Ok? <==> Plain(items[i]) {
        DumpSucceedsIffPlain(items[i]);
      }
      assert Dump(value).Ok? <==> forall i :: 0 <= i < |rs| ==> rs[i].Ok?;
    case PDict(entries) =>
      var rs := DumpedItems(value);
      forall i | 0 <= i < |entries| ensures rs[i].Ok? <==> Plain(entries[i].1) {
        assert entries[i] in entries;
        DumpSucceedsIffPlain(entries[i].1);
      }
      assert Dump(value).Ok? <==> forall i :: 0 <= i < |rs| ==> rs[i].Ok?;
    case _ =>
  }

  lemma {:induction false} DictPrefixPlain(model: PyValue, n: nat)
    requires model.PModel? && n <= |model.attrs| && ModelShaped(model.attrs)
    ensures forall i :: 0 <= i < |DictPrefix(model, n)| ==> Plain(DictPrefix(model, n)[i].1)
    decreases model, 0, n
  {
    if n > 0 {
      DictPrefixPlain(model, n - 1);
      var value := model.attrs[n - 1].1;
      assert model.attrs[n - 1] in model.attrs;
      ConvertedPlain(value);
    }
  }

  lemma {:induction false} ConvertedPlain(value: PyValue)
    requires AttrShaped(value)
    ensures Converted(value).Some? ==> Plain(Converted(value).value)
    decreases value, 1
  {
    match value
    case PModel(attrs) =>
      DictPrefixPlain(value, |attrs|);
      assert ToDict(attrs) == DictPrefix(value, |attrs|);
    case PList(items) =>
      forall i | 0 <= i < |items| ensures Plain(ConvertedItem(items[i])) {
        if items[i].PModel? {
          var a := items[i].attrs;
          DictPrefixPlain(items[i], |a|);
          assert ToDict(a) == DictPrefix(items[i], |a|);
        }
      }
    case _ =>
  }

  /** For a model instance, what `to_dict` returns can always be encoded: the
      TypeError of `_convert_value` is never raised by `to_json_string`. */
  lemma ToJsonStringSucceeds(attrs: seq<(string, PyValue)>)
    requires ModelShaped(attrs)
    ensures ToJsonString(attrs).Ok?
  {
    DictPrefixPlain(PModel(attrs), |attrs|);
    assert Plain(PDict(ToDict(attrs)));
    DumpSucceedsIffPlain(PDict(ToDict(attrs)));
  }

  /** `to_json_string` writes the entries of `to_dict` in the same order, each
      value encoded, a datetime as the formatted string. */
  lemma ToJsonStringEntries(attrs: seq<(string, PyValue)>)
    requires ModelShaped(attrs)
    ensures ToJsonString(attrs).Ok? && ToJsonString(attrs).value.JObj?
    ensures var d := ToDict(attrs); var ms := ToJsonString(attrs).value.members;
            |ms| == |d| && forall i :: 0 <= i < |d| ==> ms[i].0 == d[i].0 && Dump(d[i].1) == Ok(ms[i].1)
  {
    ToJsonStringSucceeds(attrs);
  }

  /** The values `json.loads` builds hold no model instance. */
  lemma {:induction false} FromJsonPlain(j: Json)
    ensures Plain(FromJson(j))
    decreases j
  {
    match j
    case JArr(items) =>
      forall i | 0 <= i < |items| ensures Plain(FromJson(items[i])) {
        FromJsonPlain(items[i]);
      }
    case JObj(members) =>
      forall i | 0 <= i < |members| ensures Plain(FromJson(members[i].1)) {
        assert members[i] in members;
        FromJsonPlain(members[i].1);
      }
    case _ =>
  }

  /** A decoded JSON value is a valid attribute value of a model. */
  lemma JsonShaped(j: Json)
    ensures AttrShaped(FromJson(j))
  {
    FromJsonPlain(j);
    if j.JArr? {
      var items := FromJson(j).items;
      forall i | 0 <= i < |items| ensures ItemShaped(items[i]) {
        assert items[i] == FromJson(j.items[i]);
      }
    }
  }

  /** A decoded JSON value other than null is stored by `to_dict` unchanged. */
  lemma ConvertedFromJson(j: Json)
    requires j != JNull
    ensures Converted(FromJson(j)) == Some(FromJson(j))
  {
    if j.JArr? {
      var items := FromJson(j).items;
      forall i | 0 <= i < |items| ensures ConvertedItem(items[i]) == items[i] {
        assert items[i] == FromJson(j.items[i]);
      }
      assert seq(|items|, i requires 0 <= i < |items| => ConvertedItem(items[i])) == items;
    }
  }

  // ---------------------------------------------------------------------------
  // The example of the base-class tests: a model with an int, a str, a dict and
  // a datetime attribute.

  function ExampleAttrs(): seq<(string, PyValue)> {
    [("id", PInt(123)), ("name", PStr("mike")), ("data", PDict([("key", PStr("value"))])),
     ("updated", PDateTime(DateTime(2022, 12, 31, 23, 59, 59)))]
  }

  /** `to_dict` keeps the datetime as it is. */
  lemma ExampleToDict()
    ensures ToDict(ExampleAttrs()) == ExampleAttrs()
  {
    var a := ExampleAttrs();
    ToDictAllSet(a);
    var d := ToDict(a);
    assert |d| == 4;
    assert d[0] == a[0] && d[1] == a[1] && d[2] == a[2] && d[3] == a[3];
  }

  /** The encoder's result for each value of the test instance's dictionary. */
  lemma ExampleDumpedItems()
    ensures DumpedItems(PDict(ExampleAttrs()))
            == [Ok(JInt(123)), Ok(JStr("mike")), Ok(JObj([("key", JStr("value"))])), Ok(JStr("2022-12-31T23:59:59Z"))]
  {
    var a := ExampleAttrs();
    FormatSpaceUpdated();
    var data := JObj([("key", JStr("value"))]);
    assert FromJson(data) == a[2].1;
    DumpFromJson(data);
  }

  /** `to_json_string` of the test instance: the same four keys in order, the
      nested dict as an object, the datetime as its formatted text. */
  lemma ExampleToJsonString()
    ensures ToJsonString(ExampleAttrs()) == Ok(JObj([("id", JInt(123)), ("name", JStr("mike")),
                                                     ("data", JObj([("key", JStr("value"))])),
                                                     ("updated", JStr("2022-12-31T23:59:59Z"))]))
  {
    ExampleToDict();
    ExampleDump();
  }

  /** The encoder's result for the test instance's dictionary. */
  lemma ExampleDump()
    ensures Dump(PDict(ExampleAttrs())) == Ok(JObj([("id", JInt(123)), ("name", JStr("mike")),
                                                    ("data", JObj([("key", JStr("value"))])),
                                                    ("updated", JStr("2022-12-31T23:59:59Z"))]))
  {
    var a := ExampleAttrs();
    ExampleDumpedItems();
    var vs := [JInt(123), JStr("mike"), JObj([("key", JStr("value"))]), JStr("2022-12-31T23:59:59Z")];
    DumpDictOk(a, vs);
    var ms := seq(|a|, i requires 0 <= i < |a| => (a[i].0, vs[i]));
    assert ms == [("id", JInt(123)), ("name", JStr("mike")), ("data", JObj([("key", JStr("value"))])),
                  ("updated", JStr("2022-12-31T23:59:59Z"))];
  }

  /** When every value encodes, the encoded dictionary pairs each key with its value's encoding. */
  lemma DumpDictOk(entries: seq<(string, PyValue)>, vs: seq<Json>)
    requires |DumpedItems(PDict(entries))| == |vs|
    requires forall i :: 0 <= i < |vs| ==> DumpedItems(PDict(entries))[i] == Ok(vs[i])
    ensures Dump(PDict(entries)) == Ok(JObj(seq(|entries|, i requires 0 <= i < |entries| => (entries[i].0, vs[i]))))
  {
    var rs := DumpedItems(PDict(entries));
    var ms := seq(|rs|, i requires 0 <= i < |rs| && rs[i].Ok? => (entries[i].0, rs[i].value));
    assert Dump(PDict(entries)) == Ok(JObj(ms));
    assert ms == seq(|entries|, i requires 0 <= i < |entries| => (entries[i].0, vs[i]));
  }

  /** `_convert_value` renders the example's datetime with the fixed pattern. */
  lemma ExampleConvertValue()
    ensures ConvertValue(PDateTime(DateTime(2022, 12, 31, 23, 59, 59))) == Ok(PStr("2022-12-31T23:59:59Z"))
  {
    FormatSpaceUpdated();
  }
}
