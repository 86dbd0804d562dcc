/** Users and their Nulab accounts (backlog/models/user.py). */
module UserModel {
  import opened Errors
  import opened Json
  import opened Base

  /** A Nulab account.  Each field holds the JSON value it was read from: the
      annotations of the Python dataclass are not enforced. */
  datatype NulabAccount = NulabAccount(nulabId: Json, name: Json, uniqueId: Json)

  const NULAB_ACCOUNT_KEYS: seq<string> := ["nulabId", "name", "uniqueId"]

  /** `NulabAccount.from_dict`: three required keys, copied unchanged. */
  function NulabAccountFromDict(data: Json): (r: Result<NulabAccount>)
    ensures r.Ok? <==> HasKeys(data, NULAB_ACCOUNT_KEYS)
    ensures r.Ok? ==> r.value == NulabAccount(At(data, "nulabId"), At(data, "name"), At(data, "uniqueId"))
    ensures r.Err? ==> r.error == FirstMissing(data, NULAB_ACCOUNT_KEYS)
  {
    var vs :- ReadKeys(data, NULAB_ACCOUNT_KEYS);
    Ok(NulabAccount(vs[0], vs[1], vs[2]))
  }

  /** A user.  `nulabAccount` is `None` when the payload's account is falsy. */
  datatype User = User(id: Json, userId: Json, name: Json, roleType: Json, lang: Json,
                       mailAddress: Json, nulabAccount: Option<NulabAccount>, keyword: Json)

  /** The keys `User.from_dict` reads after the account, in argument order. */
  const USER_KEYS: seq<string> := ["id", "userId", "name", "roleType", "lang", "mailAddress", "keyword"]

  /** `NulabAccount.from_dict(v) if v else None` for the payload's account `v`. */
  function AccountIfTruthy(v: Json): (r: Result<Option<NulabAccount>>)
    ensures !Truthy(v) ==> r == Ok(None)
    ensures Truthy(v) && NulabAccountFromDict(v).Ok? ==> r == Ok(Some(NulabAccountFromDict(v).value))
    ensures Truthy(v) && NulabAccountFromDict(v).Err? ==> r == Err(NulabAccountFromDict(v).error)
  {
    if Truthy(v) then
      var account :- NulabAccountFromDict(v);
      Ok(Some(account))
    else Ok(None)
  }

  /** `User.from_dict`.  The account is read first (a subscript, so the key is
      required even though its value may be null), then the seven other keys. */
  function UserFromDict(data: Json): (r: Result<User>)
    ensures r.Ok? <==> HasKey(data, "nulabAccount") && AccountIfTruthy(At(data, "nulabAccount")).Ok?
                       && HasKeys(data, USER_KEYS)
    ensures r.Ok? ==> r.value == User(At(data, "id"), At(data, "userId"), At(data, "name"),
                                      At(data, "roleType"), At(data, "lang"), At(data, "mailAddress"),
                                      AccountIfTruthy(At(data, "nulabAccount")).value, At(data, "keyword"))
    ensures !HasKey(data, "nulabAccount") ==> r == Err(SubscriptError(data, "nulabAccount"))
    ensures HasKey(data, "nulabAccount") && AccountIfTruthy(At(data, "nulabAccount")).Err? ==>
              r == Err(AccountIfTruthy(At(data, "nulabAccount")).error)
    ensures HasKey(data, "nulabAccount") && AccountIfTruthy(At(data, "nulabAccount")).Ok? && !HasKeys(data, USER_KEYS) ==>
              r == Err(FirstMissing(data, USER_KEYS))
  {
    var v :- Subscript(data, "nulabAccount");
    var account :- AccountIfTruthy(v);
    var vs :- ReadKeys(data, USER_KEYS);
    Ok(User(vs[0], vs[1], vs[2], vs[3], vs[4], vs[5], account, vs[6]))
  }

  /** `User.from_dict(data[key])`, the way the other models read a nested user. */
  function UserAt(data: Json, key: string): (r: Result<User>)
    ensures r.Ok? <==> HasKey(data, key) && UserFromDict(At(data, key)).Ok?
    ensures HasKey(data, key) ==> r == UserFromDict(At(data, key))
    ensures !HasKey(data, key) ==> r == Err(SubscriptError(data, key))
  {
    var v :- Subscript(data, key);
    UserFromDict(v)
  }

  // ---------------------------------------------------------------------------
  // Attributes, as `to_dict` sees them

  function NulabAccountAttrs(a: NulabAccount): seq<(string, PyValue)> {
    [("nulab_id", FromJson(a.nulabId)), ("name", FromJson(a.name)), ("unique_id", FromJson(a.uniqueId))]
  }

  function AccountValue(a: Option<NulabAccount>): PyValue {
    match a
    case Some(a) => PModel(NulabAccountAttrs(a))
    case None => PNone
  }

  /** The attribute names of a user, in declaration order. */
  const USER_ATTRIBUTES: seq<string> :=
    ["id", "user_id", "name", "role_type", "lang", "mail_address", "nulab_account", "keyword"]

  function UserAttrs(u: User): seq<(string, PyValue)> {
    [("id", FromJson(u.id)), ("user_id", FromJson(u.userId)), ("name", FromJson(u.name)),
     ("role_type", FromJson(u.roleType)), ("lang", FromJson(u.lang)),
     ("mail_address", FromJson(u.mailAddress)), ("nulab_account", AccountValue(u.nulabAccount)),
     ("keyword", FromJson(u.keyword))]
  }

  /** A user is a model instance whose `to_json_string` never raises. */
  lemma UserShaped(u: User)
    ensures ModelShaped(UserAttrs(u))
    ensures ToJsonString(UserAttrs(u)).Ok?
  {
    JsonShaped(u.id); JsonShaped(u.userId); JsonShaped(u.name); JsonShaped(u.roleType);
    JsonShaped(u.lang); JsonShaped(u.mailAddress); JsonShaped(u.keyword);
    if u.nulabAccount.Some? {
      var a := u.nulabAccount.value;
      JsonShaped(a.nulabId); JsonShaped(a.name); JsonShaped(a.uniqueId);
    }
    ToJsonStringSucceeds(UserAttrs(u));
  }

  /** `to_dict` writes the account under `nulab_account` while `from_dict` reads
      `nulabAccount`: re-reading what `to_json_string` writes always fails, first
      on that key. */
  lemma UserJsonNotReadable(u: User)
    ensures ToJsonString(UserAttrs(u)).Ok?
    ensures UserFromDict(ToJsonString(UserAttrs(u)).value) == Err(KeyError("nulabAccount"))
  {
    UserShaped(u);
    var attrs := UserAttrs(u);
    ToJsonStringEntries(attrs);
    ToDictKeysFromAttrs(attrs);
    assert Keys(attrs) == USER_ATTRIBUTES;
    assert "nulabAccount" !in USER_ATTRIBUTES;
    var j := ToJsonString(attrs).value;
    forall i | 0 <= i < |j.members| ensures j.members[i].0 != "nulabAccount" {
      assert j.members[i].0 == ToDict(attrs)[i].0;
    }
    assert !HasKey(j, "nulabAccount");
  }

  /** A null account gives no account; an object with the three keys gives that
      account. */
  lemma AccountExamples(id: Json, name: Json, uniqueId: Json)
    ensures AccountIfTruthy(JNull) == Ok(None)
    ensures AccountIfTruthy(JObj([])) == Ok(None)
    ensures AccountIfTruthy(JObj([("nulabId", id), ("name", name), ("uniqueId", uniqueId)]))
            == Ok(Some(NulabAccount(id, name, uniqueId)))
  {
    var ms := [("nulabId", id), ("name", name), ("uniqueId", uniqueId)];
    LookupAt(ms, 0); LookupAt(ms, 1); LookupAt(ms, 2);
    var data := JObj(ms);
    assert At(data, "nulabId") == id && At(data, "name") == name && At(data, "uniqueId") == uniqueId;
    assert HasKeys(data, NULAB_ACCOUNT_KEYS) by {
      assert HasKey(data, NULAB_ACCOUNT_KEYS[0]) && HasKey(data, NULAB_ACCOUNT_KEYS[1])
             && HasKey(data, NULAB_ACCOUNT_KEYS[2]);
    }
  }

  /** The nested users of the test payloads carry no `nulabAccount` key: reading
      one fails on that key before any other. */
  lemma UserWithoutAccountKey()
    ensures UserFromDict(JObj([("id", JInt(1)), ("userId", JStr("admin")), ("name", JStr("admin")),
                               ("roleType", JInt(1)), ("lang", JStr("ja")),
                               ("mailAddress", JStr("eguchi@nulab.example"))]))
            == Err(KeyError("nulabAccount"))
  {
    var ms := [("id", JInt(1)), ("userId", JStr("admin")), ("name", JStr("admin")),
               ("roleType", JInt(1)), ("lang", JStr("ja")), ("mailAddress", JStr("eguchi@nulab.example"))];
    var k := "nulabAccount";
    assert Lookup(ms[6..], k) == None;
    assert Lookup(ms[5..], k) == None;
    assert Lookup(ms[4..], k) == None;
    assert Lookup(ms[3..], k) == None;
    assert Lookup(ms[2..], k) == None;
    assert Lookup(ms[1..], k) == None;
    assert Lookup(ms, k) == None;
    assert !HasKey(JObj(ms), k);
  }
}
