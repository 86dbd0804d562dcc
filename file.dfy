/** Wiki attachments and shared files (backlog/models/file.py). */
module FileModel {
  import opened Errors
  import opened Json
  import opened Timestamp
  import opened Base
  import opened UserModel

  datatype Attachment = Attachment(id: Json, name: Json, size: Json, createdUser: User, created: Timestamp)

  /** The keys `Attachment.from_dict` reads before the nested creator. */
  const ATTACHMENT_KEYS: seq<string> := ["id", "name", "size"]

  /** `Attachment.from_dict`: three copied keys, the creator as a user, the
      creation time parsed, in argument order. */
  function AttachmentFromDict(data: Json): (r: Result<Attachment>)
    ensures r.Ok? <==> HasKeys(data, ATTACHMENT_KEYS) && UserAt(data, "createdUser").Ok? && TimeAt(data, "created").Ok?
    ensures r.Ok? ==> r.value == Attachment(At(data, "id"), At(data, "name"), At(data, "size"),
                                            UserAt(data, "createdUser").value, TimeAt(data, "created").value)
    ensures !HasKeys(data, ATTACHMENT_KEYS) ==> r == Err(FirstMissing(data, ATTACHMENT_KEYS))
    ensures HasKeys(data, ATTACHMENT_KEYS) && UserAt(data, "createdUser").Err? ==>
              r == Err(UserAt(data, "createdUser").error)
    ensures HasKeys(data, ATTACHMENT_KEYS) && UserAt(data, "createdUser").Ok? && TimeAt(data, "created").Err? ==>
              r == Err(TimeAt(data, "created").error)
  {
    var vs :- ReadKeys(data, ATTACHMENT_KEYS);
    var createdUser :- UserAt(data, "createdUser");
    var created :- TimeAt(data, "created");
    Ok(Attachment(vs[0], vs[1], vs[2], createdUser, created))
  }

  datatype SharedFile = SharedFile(id: Json, fileType: Json, dir: Json, name: Json, size: Json,
                                   createdUser: User, created: Timestamp, updatedUser: User, updated: Timestamp)

  /** The keys `SharedFile.from_dict` reads before the nested creator. */
  const SHARED_FILE_KEYS: seq<string> := ["id", "type", "dir", "name", "size"]

  /** `SharedFile.from_dict`: five copied keys, then creator, creation time,
      updater and update time, in argument order.  The two users are read from
      their own keys. */
  function SharedFileFromDict(data: Json): (r: Result<SharedFile>)
    ensures r.Ok? <==> HasKeys(data, SHARED_FILE_KEYS) && UserAt(data, "createdUser").Ok? && TimeAt(data, "created").Ok?
                       && UserAt(data, "updatedUser").Ok? && TimeAt(data, "updated").Ok?
    ensures r.Ok? ==> r.value == SharedFile(At(data, "id"), At(data, "type"), At(data, "dir"), At(data, "name"),
                                            At(data, "size"), UserAt(data, "createdUser").value,
                                            TimeAt(data, "created").value, UserAt(data, "updatedUser").value,
                                            TimeAt(data, "updated").value)
    ensures !HasKeys(data, SHARED_FILE_KEYS) ==> r == Err(FirstMissing(data, SHARED_FILE_KEYS))
    ensures HasKeys(data, SHARED_FILE_KEYS) && UserAt(data, "createdUser").Err? ==>
              r == Err(UserAt(data, "createdUser").error)
    ensures HasKeys(data, SHARED_FILE_KEYS) && UserAt(data, "createdUser").Ok? && TimeAt(data, "created").Err? ==>
              r == Err(TimeAt(data, "created").error)
    ensures (HasKeys(data, SHARED_FILE_KEYS) && UserAt(data, "createdUser").Ok? && TimeAt(data, "created").Ok?
             && UserAt(data, "updatedUser").Err?) ==> r == Err(UserAt(data, "updatedUser").error)
    ensures (HasKeys(data, SHARED_FILE_KEYS) && UserAt(data, "createdUser").Ok? && TimeAt(data, "created").Ok?
             && UserAt(data, "updatedUser").Ok? && TimeAt(data, "updated").Err?) ==>
              r == Err(TimeAt(data, "updated").error)
  {
    var vs :- ReadKeys(data, SHARED_FILE_KEYS);
    var createdUser :- UserAt(data, "createdUser");
    var created :- TimeAt(data, "created");
    var updatedUser :- UserAt(data, "updatedUser");
    var updated :- TimeAt(data, "updated");
    Ok(SharedFile(vs[0], vs[1], vs[2], vs[3], vs[4], createdUser, created, updatedUser, updated))
  }

  function AttachmentAttrs(a: Attachment): seq<(string, PyValue)> {
    [("id", FromJson(a.id)), ("name", FromJson(a.name)), ("size", FromJson(a.size)),
     ("created_user", PModel(UserAttrs(a.createdUser))), ("created", PDateTime(a.created))]
  }

  function SharedFileAttrs(f: SharedFile): seq<(string, PyValue)> {
    [("id", FromJson(f.id)), ("type", FromJson(f.fileType)), ("dir", FromJson(f.dir)), ("name", FromJson(f.name)),
     ("size", FromJson(f.size)), ("created_user", PModel(UserAttrs(f.createdUser))), ("created", PDateTime(f.created)),
     ("updated_user", PModel(UserAttrs(f.updatedUser))), ("updated", PDateTime(f.updated))]
  }

  /** An attachment is a model instance whose `to_json_string` never raises. */
  lemma AttachmentShaped(a: Attachment)
    ensures ModelShaped(AttachmentAttrs(a))
    ensures ToJsonString(AttachmentAttrs(a)).Ok?
  {
    JsonShaped(a.id); JsonShaped(a.name); JsonShaped(a.size);
    UserShaped(a.createdUser);
    ToJsonStringSucceeds(AttachmentAttrs(a));
  }

  /** A shared file is a model instance whose `to_json_string` never raises. */
  lemma SharedFileShaped(f: SharedFile)
    ensures ModelShaped(SharedFileAttrs(f))
    ensures ToJsonString(SharedFileAttrs(f)).Ok?
  {
    JsonShaped(f.id); JsonShaped(f.fileType); JsonShaped(f.dir); JsonShaped(f.name); JsonShaped(f.size);
    UserShaped(f.createdUser); UserShaped(f.updatedUser);
    ToJsonStringSucceeds(SharedFileAttrs(f));
  }

  /** Both users of a shared file are in its `to_dict`, each as its own nested
      dict, and the two times are kept as datetimes: nothing is None. */
  lemma SharedFileToDict(f: SharedFile)
    requires f.id != JNull && f.fileType != JNull && f.dir != JNull && f.name != JNull && f.size != JNull
    ensures Keys(ToDict(SharedFileAttrs(f))) ==
            ["id", "type", "dir", "name", "size", "created_user", "created", "updated_user", "updated"]
    ensures ToDict(SharedFileAttrs(f))[5].1 == PDict(ToDict(UserAttrs(f.createdUser)))
    ensures ToDict(SharedFileAttrs(f))[7].1 == PDict(ToDict(UserAttrs(f.updatedUser)))
    ensures ToDict(SharedFileAttrs(f))[6].1 == PDateTime(f.created)
    ensures ToDict(SharedFileAttrs(f))[8].1 == PDateTime(f.updated)
  {
    var a := SharedFileAttrs(f);
    SharedFileAllSet(f);
    ToDictAllSet(a);
    assert Keys(a) == ["id", "type", "dir", "name", "size", "created_user", "created", "updated_user", "updated"];
    assert ToDict(a)[5].1 == Converted(a[5].1).value;
    assert ToDict(a)[7].1 == Converted(a[7].1).value;
  }

  /** A shared file whose JSON fields are all present sets every attribute. */
  lemma SharedFileAllSet(f: SharedFile)
    requires f.id != JNull && f.fileType != JNull && f.dir != JNull && f.name != JNull && f.size != JNull
    ensures forall j :: 0 <= j < |SharedFileAttrs(f)| ==> SharedFileAttrs(f)[j].1 != PNone
  {
    var a := SharedFileAttrs(f);
    assert a[0].1 != PNone && a[1].1 != PNone && a[2].1 != PNone && a[3].1 != PNone && a[4].1 != PNone;
  }
}
