/** Wiki pages and their tags (backlog/models/wiki.py). */
module WikiModel {
  import opened Errors
  import opened Json
  import opened Timestamp
  import opened Base
  import opened UserModel
  import opened StarModel
  import opened FileModel

  // ---------------------------------------------------------------------------
  // Tag

  datatype Tag = Tag(id: Json, name: Json)

  const TAG_KEYS: seq<string> := ["id", "name"]

  /** `Tag.from_dict`: two required keys, copied unchanged. */
  function TagFromDict(data: Json): (r: Result<Tag>)
    ensures r.Ok? <==> HasKeys(data, TAG_KEYS)
    ensures r.Ok? ==> r.value == Tag(At(data, "id"), At(data, "name"))
    ensures r.Err? ==> r.error == FirstMissing(data, TAG_KEYS)
  {
    var vs :- ReadKeys(data, TAG_KEYS);
    Ok(Tag(vs[0], vs[1]))
  }

  function TagAttrs(t: Tag): seq<(string, PyValue)> {
    [("id", FromJson(t.id)), ("name", FromJson(t.name))]
  }

  /** A tag is a model instance whose `to_json_string` never raises. */
  lemma TagShaped(t: Tag)
    ensures ModelShaped(TagAttrs(t))
    ensures ToJsonString(TagAttrs(t)).Ok?
  {
    JsonShaped(t.id); JsonShaped(t.name);
    ToJsonStringSucceeds(TagAttrs(t));
  }

  /** A tag's attribute names are single words, so its snake_case `to_dict` keys
      are the keys `from_dict` reads: a tag with no None field is written by
      `to_json_string` as the object it was read from, and read back as itself. */
  lemma TagRoundTrip(t: Tag)
    requires t.id != JNull && t.name != JNull
    ensures ToJsonString(TagAttrs(t)) == Ok(JObj([("id", t.id), ("name", t.name)]))
    ensures TagFromDict(ToJsonString(TagAttrs(t)).value) == Ok(t)
  {
    var attrs := TagAttrs(t);
    ToDictAllSet(attrs);
    ConvertedFromJson(t.id);
    ConvertedFromJson(t.name);
    assert ToDict(attrs) == attrs;
    JsonShaped(t.id); JsonShaped(t.name);
    ToJsonStringEntries(attrs);
    DumpFromJson(t.id);
    DumpFromJson(t.name);
    var j := ToJsonString(attrs).value;
    assert j.members == [("id", t.id), ("name", t.name)];
    var ms := j.members;
    assert ms[1..] == [("name", t.name)];
  }

  /** A None name is omitted by `to_dict`, so the tag no longer reads back. */
  lemma TagNullNameNotReadable(t: Tag)
    requires t.id != JNull && t.name == JNull
    ensures ToJsonString(TagAttrs(t)).Ok?
    ensures TagFromDict(ToJsonString(TagAttrs(t)).value) == Err(KeyError("name"))
  {
    var attrs := TagAttrs(t);
    JsonShaped(t.id); JsonShaped(t.name);
    ToJsonStringEntries(attrs);
    ToDictNeverNone(attrs);
    ToDictOmitsNone(attrs, 1);
    var j := ToJsonString(attrs).value;
    forall i | 0 <= i < |j.members| ensures j.members[i].0 != "name" {
      assert j.members[i].0 == ToDict(attrs)[i].0 == Keys(ToDict(attrs))[i];
    }
    ToDictAllSet(attrs[..1]);
    ToDictAppend(attrs[..1], attrs[1..]);
    ToDictSingle("name", PNone);
    ConvertedFromJson(t.id);
    assert attrs[..1] + attrs[1..] == attrs;
    assert ToDict(attrs)[0] == ("id", FromJson(t.id));
    DumpFromJson(t.id);
    assert j.members[0] == ("id", t.id);
  }

  // ---------------------------------------------------------------------------
  // Wiki

  datatype Wiki = Wiki(id: Json, projectId: Json, name: Json, content: Json, tags: seq<Tag>,
                       attachments: seq<Attachment>, sharedFiles: seq<SharedFile>, stars: seq<Star>,
                       createdUser: User, created: Timestamp, updatedUser: User, updated: Timestamp)

  const WIKI_KEYS: seq<string> := ["id", "projectId", "name", "content"]

  /** The four lists of a wiki page, `tags`, `attachments`, `sharedFiles` and
      `stars`, each read and mapped element by element in argument order. */
  datatype WikiLists = WikiLists(tags: seq<Tag>, attachments: seq<Attachment>, sharedFiles: seq<SharedFile>,
                                 stars: seq<Star>)

  function WikiListsAt(data: Json): (r: Result<WikiLists>)
    ensures r.Ok? <==> ListAt(TagFromDict, data, "tags").Ok? && ListAt(AttachmentFromDict, data, "attachments").Ok?
                       && ListAt(SharedFileFromDict, data, "sharedFiles").Ok? && ListAt(StarFromDict, data, "stars").Ok?
    ensures r.Ok? ==> r.value == WikiLists(ListAt(TagFromDict, data, "tags").value,
                                           ListAt(AttachmentFromDict, data, "attachments").value,
                                           ListAt(SharedFileFromDict, data, "sharedFiles").value,
                                           ListAt(StarFromDict, data, "stars").value)
    ensures ListAt(TagFromDict, data, "tags").Err? ==> r == Err(ListAt(TagFromDict, data, "tags").error)
    ensures ListAt(TagFromDict, data, "tags").Ok? && ListAt(AttachmentFromDict, data, "attachments").Err? ==>
              r == Err(ListAt(AttachmentFromDict, data, "attachments").error)
    ensures (ListAt(TagFromDict, data, "tags").Ok? && ListAt(AttachmentFromDict, data, "attachments").Ok?
             && ListAt(SharedFileFromDict, data, "sharedFiles").Err?) ==>
              r == Err(ListAt(SharedFileFromDict, data, "sharedFiles").error)
    ensures (ListAt(TagFromDict, data, "tags").Ok? && ListAt(AttachmentFromDict, data, "attachments").Ok?
             && ListAt(SharedFileFromDict, data, "sharedFiles").Ok? && ListAt(StarFromDict, data, "stars").Err?) ==>
              r == Err(ListAt(StarFromDict, data, "stars").error)
  {
    var tags :- ListAt(TagFromDict, data, "tags");
    var attachments :- ListAt(AttachmentFromDict, data, "attachments");
    var sharedFiles :- ListAt(SharedFileFromDict, data, "sharedFiles");
    var stars :- ListAt(StarFromDict, data, "stars");
    Ok(WikiLists(tags, attachments, sharedFiles, stars))
  }

  /** `Wiki.from_dict`: four copied keys (`content` required even when null),
      the four lists, then creator, creation time, updater and update time; the
      first failing step is the one reported. */
  function WikiFromDict(data: Json): (r: Result<Wiki>)
    ensures r.Ok? <==> HasKeys(data, WIKI_KEYS) && WikiListsAt(data).Ok?
                       && UserAt(data, "createdUser").Ok? && TimeAt(data, "created").Ok?
                       && UserAt(data, "updatedUser").Ok? && TimeAt(data, "updated").Ok?
    ensures r.Ok? ==> var ls := WikiListsAt(data).value;
                      r.value == Wiki(At(data, "id"), At(data, "projectId"), At(data, "name"), At(data, "content"),
                                      ls.tags, ls.attachments, ls.sharedFiles, ls.stars,
                                      UserAt(data, "createdUser").value, TimeAt(data, "created").value,
                                      UserAt(data, "updatedUser").value, TimeAt(data, "updated").value)
    ensures !HasKeys(data, WIKI_KEYS) ==> r == Err(FirstMissing(data, WIKI_KEYS))
    ensures HasKeys(data, WIKI_KEYS) && WikiListsAt(data).Err? ==> r == Err(WikiListsAt(data).error)
    ensures (HasKeys(data, WIKI_KEYS) && WikiListsAt(data).Ok? && UserAt(data, "createdUser").Err?) ==>
              r == Err(UserAt(data, "createdUser").error)
    ensures (HasKeys(data, WIKI_KEYS) && WikiListsAt(data).Ok? && UserAt(data, "createdUser").Ok?
             && TimeAt(data, "created").Err?) ==> r == Err(TimeAt(data, "created").error)
    ensures (HasKeys(data, WIKI_KEYS) && WikiListsAt(data).Ok? && UserAt(data, "createdUser").Ok?
             && TimeAt(data, "created").Ok? && UserAt(data, "updatedUser").Err?) ==>
              r == Err(UserAt(data, "updatedUser").error)
    ensures (HasKeys(data, WIKI_KEYS) && WikiListsAt(data).Ok? && UserAt(data, "createdUser").Ok?
             && TimeAt(data, "created").Ok? && UserAt(data, "updatedUser").Ok? && TimeAt(data, "updated").Err?) ==>
              r == Err(TimeAt(data, "updated").error)
  {
    var vs :- ReadKeys(data, WIKI_KEYS);
    var lists :- WikiListsAt(data);
    var createdUser :- UserAt(data, "createdUser");
    var created :- TimeAt(data, "created");
    var updatedUser :- UserAt(data, "updatedUser");
    var updated :- TimeAt(data, "updated");
    Ok(Wiki(vs[0], vs[1], vs[2], vs[3], lists.tags, lists.attachments, lists.sharedFiles, lists.stars,
            createdUser, created, updatedUser, updated))
  }

  function WikiAttrs(w: Wiki): seq<(string, PyValue)> {
    [("id", FromJson(w.id)), ("project_id", FromJson(w.projectId)), ("name", FromJson(w.name)),
     ("content", FromJson(w.content)),
     ("tags", PList(seq(|w.tags|, i requires 0 <= i < |w.tags| => PModel(TagAttrs(w.tags[i]))))),
     ("attachments", PList(seq(|w.attachments|, i requires 0 <= i < |w.attachments| =>
                                 PModel(AttachmentAttrs(w.attachments[i]))))),
     ("shared_files", PList(seq(|w.sharedFiles|, i requires 0 <= i < |w.sharedFiles| =>
                                  PModel(SharedFileAttrs(w.sharedFiles[i]))))),
     ("stars", PList(seq(|w.stars|, i requires 0 <= i < |w.stars| => PModel(StarAttrs(w.stars[i]))))),
     ("created_user", PModel(UserAttrs(w.createdUser))), ("created", PDateTime(w.created)),
     ("updated_user", PModel(UserAttrs(w.updatedUser))), ("updated", PDateTime(w.updated))]
  }

  /** A wiki page's `to_json_string` never raises: its four lists and its two
      users are nested models the encoder can write. */
  lemma WikiShaped(w: Wiki)
    ensures ToJsonString(WikiAttrs(w)).Ok?
  {
    var attrs := WikiAttrs(w);
    JsonShaped(w.id); JsonShaped(w.projectId); JsonShaped(w.name); JsonShaped(w.content);
    UserShaped(w.createdUser); UserShaped(w.updatedUser);
    WikiListsShaped(w);
    ToJsonStringSucceeds(attrs);
  }

  /** Each of the four lists of a wiki page holds model instances only. */
  lemma WikiListsShaped(w: Wiki)
    ensures forall k :: 4 <= k < 8 ==> AttrShaped(WikiAttrs(w)[k].1)
  {
    var attrs := WikiAttrs(w);
    forall i | 0 <= i < |w.tags| ensures ItemShaped(attrs[4].1.items[i]) {
      TagShaped(w.tags[i]);
    }
    forall i | 0 <= i < |w.attachments| ensures ItemShaped(attrs[5].1.items[i]) {
      AttachmentShaped(w.attachments[i]);
    }
    forall i | 0 <= i < |w.sharedFiles| ensures ItemShaped(attrs[6].1.items[i]) {
      SharedFileShaped(w.sharedFiles[i]);
    }
    forall i | 0 <= i < |w.stars| ensures ItemShaped(attrs[7].1.items[i]) {
      StarShaped(w.stars[i]);
    }
  }

  /** The mappers of list elements reject anything but a dict. */
  lemma WikiElementMappersRejectNonObjects()
    ensures forall x: Json :: !x.JObj? ==> TagFromDict(x).Err?
    ensures forall x: Json :: !x.JObj? ==> AttachmentFromDict(x).Err?
    ensures forall x: Json :: !x.JObj? ==> SharedFileFromDict(x).Err?
    ensures forall x: Json :: !x.JObj? ==> StarFromDict(x).Err?
  {
  }

  /** The four lists of a wiki page are the source lists mapped element by
      element, same length and order; so an empty `stars` list gives [], not
      None. */
  lemma WikiListsElementwise(data: Json)
    requires WikiFromDict(data).Ok?
    ensures var w := WikiFromDict(data).value;
            (At(data, "tags").JArr? ==> MapsEach(TagFromDict, At(data, "tags").items, w.tags))
            && (At(data, "attachments").JArr? ==>
                  MapsEach(AttachmentFromDict, At(data, "attachments").items, w.attachments))
            && (At(data, "sharedFiles").JArr? ==>
                  MapsEach(SharedFileFromDict, At(data, "sharedFiles").items, w.sharedFiles))
            && (At(data, "stars").JArr? ==> MapsEach(StarFromDict, At(data, "stars").items, w.stars))
    ensures At(data, "stars") == JArr([]) ==> WikiFromDict(data).value.stars == []
    ensures var w := WikiFromDict(data).value;
            (!At(data, "tags").JArr? ==> w.tags == []) && (!At(data, "attachments").JArr? ==> w.attachments == [])
            && (!At(data, "sharedFiles").JArr? ==> w.sharedFiles == []) && (!At(data, "stars").JArr? ==> w.stars == [])
  {
    WikiElementMappersRejectNonObjects();
    ListCompOfMapper(TagFromDict, At(data, "tags"));
    ListCompOfMapper(AttachmentFromDict, At(data, "attachments"));
    ListCompOfMapper(SharedFileFromDict, At(data, "sharedFiles"));
    ListCompOfMapper(StarFromDict, At(data, "stars"));
  }
}
