/** Issue statuses, issue types, categories, versions, change logs and comments
    (backlog/models/issue.py). */
module IssueModel {
  import opened Errors
  import opened Json
  import opened Timestamp
  import opened Base
  import opened UserModel
  import opened StarModel

  // ---------------------------------------------------------------------------
  // Status

  datatype Status = Status(id: Json, projectId: Json, name: Json, color: Json, displayOrder: Json)

  const STATUS_KEYS: seq<string> := ["id", "projectId", "name", "color", "displayOrder"]

  /** `Status.from_dict`: five required keys, copied unchanged. */
  function StatusFromDict(data: Json): (r: Result<Status>)
    ensures r.Ok? <==> HasKeys(data, STATUS_KEYS)
    ensures r.Ok? ==> r.value == Status(At(data, "id"), At(data, "projectId"), At(data, "name"),
                                        At(data, "color"), At(data, "displayOrder"))
    ensures r.Err? ==> r.error == FirstMissing(data, STATUS_KEYS)
  {
    var vs :- ReadKeys(data, STATUS_KEYS);
    Ok(Status(vs[0], vs[1], vs[2], vs[3], vs[4]))
  }

  function StatusAttrs(s: Status): seq<(string, PyValue)> {
    [("id", FromJson(s.id)), ("project_id", FromJson(s.projectId)), ("name", FromJson(s.name)),
     ("color", FromJson(s.color)), ("display_order", FromJson(s.displayOrder))]
  }

  /** A status's `to_json_string` never raises. */
  lemma StatusShaped(s: Status)
    ensures ToJsonString(StatusAttrs(s)).Ok?
  {
    JsonShaped(s.id); JsonShaped(s.projectId); JsonShaped(s.name); JsonShaped(s.color); JsonShaped(s.displayOrder);
    ToJsonStringSucceeds(StatusAttrs(s));
  }

  // ---------------------------------------------------------------------------
  // IssueType

  datatype IssueType = IssueType(id: Json, projectId: Json, name: Json, color: Json, displayOrder: Json,
                                 templateSummary: Json, templateDescription: Json)

  const ISSUE_TYPE_KEYS: seq<string> := ["id", "projectId", "name", "color", "displayOrder"]

  /** `IssueType.from_dict`: five required keys; the two templates are read with
      `get`, so an absent one is None and never an error. */
  function IssueTypeFromDict(data: Json): (r: Result<IssueType>)
    ensures r.Ok? <==> HasKeys(data, ISSUE_TYPE_KEYS)
    ensures r.Ok? ==> r.value.id == At(data, "id") && r.value.projectId == At(data, "projectId")
                      && r.value.name == At(data, "name") && r.value.color == At(data, "color")
                      && r.value.displayOrder == At(data, "displayOrder")
    ensures r.Ok? && HasKey(data, "templateSummary") ==> r.value.templateSummary == At(data, "templateSummary")
    ensures r.Ok? && !HasKey(data, "templateSummary") ==> r.value.templateSummary == JNull
    ensures r.Ok? && HasKey(data, "templateDescription") ==>
              r.value.templateDescription == At(data, "templateDescription")
    ensures r.Ok? && !HasKey(data, "templateDescription") ==> r.value.templateDescription == JNull
    ensures r.Err? ==> r.error == FirstMissing(data, ISSUE_TYPE_KEYS)
  {
    var vs :- ReadKeys(data, ISSUE_TYPE_KEYS);
    assert HasKey(data, ISSUE_TYPE_KEYS[0]);
    var summary := GetOrNone(data, "templateSummary").value;
    var description := GetOrNone(data, "templateDescription").value;
    Ok(IssueType(vs[0], vs[1], vs[2], vs[3], vs[4], summary, description))
  }

  function IssueTypeAttrs(t: IssueType): seq<(string, PyValue)> {
    [("id", FromJson(t.id)), ("project_id", FromJson(t.projectId)), ("name", FromJson(t.name)),
     ("color", FromJson(t.color)), ("display_order", FromJson(t.displayOrder)),
     ("template_summary", FromJson(t.templateSummary)), ("template_description", FromJson(t.templateDescription))]
  }

  /** An issue type's `to_json_string` never raises, and a template that is None,
      as `get` leaves an absent one, has no key in its `to_dict`. */
  lemma IssueTypeShaped(t: IssueType)
    ensures ToJsonString(IssueTypeAttrs(t)).Ok?
    ensures t.templateSummary == JNull ==> "template_summary" !in Keys(ToDict(IssueTypeAttrs(t)))
    ensures t.templateDescription == JNull ==> "template_description" !in Keys(ToDict(IssueTypeAttrs(t)))
  {
    var attrs := IssueTypeAttrs(t);
    JsonShaped(t.id); JsonShaped(t.projectId); JsonShaped(t.name); JsonShaped(t.color); JsonShaped(t.displayOrder);
    JsonShaped(t.templateSummary); JsonShaped(t.templateDescription);
    ToJsonStringSucceeds(attrs);
    if t.templateSummary == JNull {
      ToDictOmitsNone(attrs, 5);
    }
    if t.templateDescription == JNull {
      ToDictOmitsNone(attrs, 6);
    }
  }

  // ---------------------------------------------------------------------------
  // Category

  datatype Category = Category(id: Json, name: Json, displayOrder: Json)

  const CATEGORY_KEYS: seq<string> := ["id", "name", "displayOrder"]

  /** `Category.from_dict`: three required keys, copied unchanged. */
  function CategoryFromDict(data: Json): (r: Result<Category>)
    ensures r.Ok? <==> HasKeys(data, CATEGORY_KEYS)
    ensures r.Ok? ==> r.value == Category(At(data, "id"), At(data, "name"), At(data, "displayOrder"))
    ensures r.Err? ==> r.error == FirstMissing(data, CATEGORY_KEYS)
  {
    var vs :- ReadKeys(data, CATEGORY_KEYS);
    Ok(Category(vs[0], vs[1], vs[2]))
  }

  function CategoryAttrs(c: Category): seq<(string, PyValue)> {
    [("id", FromJson(c.id)), ("name", FromJson(c.name)), ("display_order", FromJson(c.displayOrder))]
  }

  /** A category's `to_json_string` never raises. */
  lemma CategoryShaped(c: Category)
    ensures ToJsonString(CategoryAttrs(c)).Ok?
  {
    JsonShaped(c.id); JsonShaped(c.name); JsonShaped(c.displayOrder);
    ToJsonStringSucceeds(CategoryAttrs(c));
  }

  // ---------------------------------------------------------------------------
  // Version

  datatype Version = Version(id: Json, projectId: Json, name: Json, description: Json,
                             startDate: Option<Timestamp>, releaseDueDate: Option<Timestamp>,
                             archived: Json, displayOrder: Json)

  /** The keys `Version.from_dict` reads after the two dates. */
  const VERSION_KEYS: seq<string> := ["id", "projectId", "name", "description", "archived", "displayOrder"]

  /** `Version.from_dict`.  The two dates are computed first, each required as a
      key, None when false and parsed otherwise; then the six copied keys. */
  function VersionFromDict(data: Json): (r: Result<Version>)
    ensures r.Ok? <==> OptionalTimeAt(data, "startDate").Ok? && OptionalTimeAt(data, "releaseDueDate").Ok?
                       && HasKeys(data, VERSION_KEYS)
    ensures r.Ok? ==> r.value == Version(At(data, "id"), At(data, "projectId"), At(data, "name"),
                                         At(data, "description"), OptionalTimeAt(data, "startDate").value,
                                         OptionalTimeAt(data, "releaseDueDate").value, At(data, "archived"),
                                         At(data, "displayOrder"))
    ensures OptionalTimeAt(data, "startDate").Err? ==> r == Err(OptionalTimeAt(data, "startDate").error)
    ensures OptionalTimeAt(data, "startDate").Ok? && OptionalTimeAt(data, "releaseDueDate").Err? ==>
              r == Err(OptionalTimeAt(data, "releaseDueDate").error)
    ensures (OptionalTimeAt(data, "startDate").Ok? && OptionalTimeAt(data, "releaseDueDate").Ok?
             && !HasKeys(data, VERSION_KEYS)) ==> r == Err(FirstMissing(data, VERSION_KEYS))
  {
    var startDate :- OptionalTimeAt(data, "startDate");
    var releaseDueDate :- OptionalTimeAt(data, "releaseDueDate");
    var vs :- ReadKeys(data, VERSION_KEYS);
    Ok(Version(vs[0], vs[1], vs[2], vs[3], startDate, releaseDueDate, vs[4], vs[5]))
  }

  function VersionAttrs(v: Version): seq<(string, PyValue)> {
    [("id", FromJson(v.id)), ("project_id", FromJson(v.projectId)), ("name", FromJson(v.name)),
     ("description", FromJson(v.description)), ("start_date", OptionalTime(v.startDate)),
     ("release_due_date", OptionalTime(v.releaseDueDate)), ("archived", FromJson(v.archived)),
     ("display_order", FromJson(v.displayOrder))]
  }

  /** A version's `to_json_string` never raises, and a date that is None has no
      key in its `to_dict`. */
  lemma VersionShaped(v: Version)
    ensures ToJsonString(VersionAttrs(v)).Ok?
    ensures v.startDate.None? ==> "start_date" !in Keys(ToDict(VersionAttrs(v)))
    ensures v.releaseDueDate.None? ==> "release_due_date" !in Keys(ToDict(VersionAttrs(v)))
  {
    var attrs := VersionAttrs(v);
    JsonShaped(v.id); JsonShaped(v.projectId); JsonShaped(v.name); JsonShaped(v.description);
    JsonShaped(v.archived); JsonShaped(v.displayOrder);
    ToJsonStringSucceeds(attrs);
    if v.startDate.None? {
      ToDictOmitsNone(attrs, 4);
    }
    if v.releaseDueDate.None? {
      ToDictOmitsNone(attrs, 5);
    }
  }

  /** What the date rule does with the values the API sends: null and "" give no
      date, a timestamp string gives its time, and a malformed string is an
      error. */
  lemma VersionDates(data: Json, key: string)
    requires HasKey(data, key)
    ensures At(data, key) == JNull || At(data, key) == JStr("") ==> OptionalTimeAt(data, key) == Ok(None)
    ensures At(data, key).JStr? && Parse(At(data, key).s).Ok? ==>
              OptionalTimeAt(data, key) == Ok(Some(Parse(At(data, key).s).value))
    ensures At(data, key).JStr? && At(data, key).s != "" && Parse(At(data, key).s).Err? ==>
              OptionalTimeAt(data, key) == Err(BadTimestamp(At(data, key).s))
  {
  }

  // ---------------------------------------------------------------------------
  // ChangeLog

  /** One change of a comment.  `newValue`, `originalValue` and the three info
      fields are opaque JSON values. */
  datatype ChangeLog = ChangeLog(field: Json, newValue: Json, originalValue: Json, attachmentInfo: Json,
                                 attributeInfo: Json, notificationInfo: Json)

  const CHANGE_LOG_KEYS: seq<string> :=
    ["field", "newValue", "originalValue", "attachmentInfo", "attributeInfo", "notificationInfo"]

  /** `ChangeLog.from_dict`: six required keys, passed through unchanged. */
  function ChangeLogFromDict(data: Json): (r: Result<ChangeLog>)
    ensures r.Ok? <==> HasKeys(data, CHANGE_LOG_KEYS)
    ensures r.Ok? ==> r.value == ChangeLog(At(data, "field"), At(data, "newValue"), At(data, "originalValue"),
                                           At(data, "attachmentInfo"), At(data, "attributeInfo"),
                                           At(data, "notificationInfo"))
    ensures r.Err? ==> r.error == FirstMissing(data, CHANGE_LOG_KEYS)
  {
    var vs :- ReadKeys(data, CHANGE_LOG_KEYS);
    Ok(ChangeLog(vs[0], vs[1], vs[2], vs[3], vs[4], vs[5]))
  }

  function ChangeLogAttrs(c: ChangeLog): seq<(string, PyValue)> {
    [("field", FromJson(c.field)), ("new_value", FromJson(c.newValue)),
     ("original_value", FromJson(c.originalValue)), ("attachment_info", FromJson(c.attachmentInfo)),
     ("attribute_info", FromJson(c.attributeInfo)), ("notification_info", FromJson(c.notificationInfo))]
  }

  /** A change log is a model instance whose `to_json_string` never raises. */
  lemma ChangeLogShaped(c: ChangeLog)
    ensures ModelShaped(ChangeLogAttrs(c))
    ensures ToJsonString(ChangeLogAttrs(c)).Ok?
  {
    JsonShaped(c.field); JsonShaped(c.newValue); JsonShaped(c.originalValue);
    JsonShaped(c.attachmentInfo); JsonShaped(c.attributeInfo); JsonShaped(c.notificationInfo);
    ToJsonStringSucceeds(ChangeLogAttrs(c));
  }

  // ---------------------------------------------------------------------------
  // Comment

  datatype Comment = Comment(id: Json, content: Json, changeLog: seq<ChangeLog>, createdUser: User,
                             created: Timestamp, updated: Timestamp, stars: seq<Star>, notifications: Json)

  const COMMENT_KEYS: seq<string> := ["id", "content"]

  /** `Comment.from_dict`: two copied keys, the change log mapped element by
      element, the creator, the two times, the stars mapped element by element and
      the notifications copied, in argument order. */
  function CommentFromDict(data: Json): (r: Result<Comment>)
    ensures r.Ok? <==> HasKeys(data, COMMENT_KEYS) && ListAt(ChangeLogFromDict, data, "changeLog").Ok?
                       && UserAt(data, "createdUser").Ok? && TimeAt(data, "created").Ok?
                       && TimeAt(data, "updated").Ok? && ListAt(StarFromDict, data, "stars").Ok?
                       && HasKey(data, "notifications")
    ensures r.Ok? ==> r.value == Comment(At(data, "id"), At(data, "content"),
                                         ListAt(ChangeLogFromDict, data, "changeLog").value,
                                         UserAt(data, "createdUser").value, TimeAt(data, "created").value,
                                         TimeAt(data, "updated").value, ListAt(StarFromDict, data, "stars").value,
                                         At(data, "notifications"))
    ensures !HasKeys(data, COMMENT_KEYS) ==> r == Err(FirstMissing(data, COMMENT_KEYS))
    ensures HasKeys(data, COMMENT_KEYS) && ListAt(ChangeLogFromDict, data, "changeLog").Err? ==>
              r == Err(ListAt(ChangeLogFromDict, data, "changeLog").error)
    ensures (HasKeys(data, COMMENT_KEYS) && ListAt(ChangeLogFromDict, data, "changeLog").Ok?
             && UserAt(data, "createdUser").Err?) ==> r == Err(UserAt(data, "createdUser").error)
    ensures (HasKeys(data, COMMENT_KEYS) && ListAt(ChangeLogFromDict, data, "changeLog").Ok?
             && UserAt(data, "createdUser").Ok? && TimeAt(data, "created").Err?) ==>
              r == Err(TimeAt(data, "created").error)
    ensures (HasKeys(data, COMMENT_KEYS) && ListAt(ChangeLogFromDict, data, "changeLog").Ok?
             && UserAt(data, "createdUser").Ok? && TimeAt(data, "created").Ok? && TimeAt(data, "updated").Err?) ==>
              r == Err(TimeAt(data, "updated").error)
    ensures (HasKeys(data, COMMENT_KEYS) && ListAt(ChangeLogFromDict, data, "changeLog").Ok?
             && UserAt(data, "createdUser").Ok? && TimeAt(data, "created").Ok? && TimeAt(data, "updated").Ok?
             && ListAt(StarFromDict, data, "stars").Err?) ==> r == Err(ListAt(StarFromDict, data, "stars").error)
    ensures (HasKeys(data, COMMENT_KEYS) && ListAt(ChangeLogFromDict, data, "changeLog").Ok?
             && UserAt(data, "createdUser").Ok? && TimeAt(data, "created").Ok? && TimeAt(data, "updated").Ok?
             && ListAt(StarFromDict, data, "stars").Ok? && !HasKey(data, "notifications")) ==>
              r == Err(KeyError("notifications"))
  {
    var vs :- ReadKeys(data, COMMENT_KEYS);
    var changeLog :- ListAt(ChangeLogFromDict, data, "changeLog");
    var createdUser :- UserAt(data, "createdUser");
    var created :- TimeAt(data, "created");
    var updated :- TimeAt(data, "updated");
    var stars :- ListAt(StarFromDict, data, "stars");
    assert HasKey(data, COMMENT_KEYS[0]);
    var notifications :- Subscript(data, "notifications");
    Ok(Comment(vs[0], vs[1], changeLog, createdUser, created, updated, stars, notifications))
  }

  function CommentAttrs(c: Comment): seq<(string, PyValue)> {
    [("id", FromJson(c.id)), ("content", FromJson(c.content)),
     ("change_log", PList(seq(|c.changeLog|, i requires 0 <= i < |c.changeLog| => PModel(ChangeLogAttrs(c.changeLog[i]))))),
     ("created_user", PModel(UserAttrs(c.createdUser))), ("created", PDateTime(c.created)),
     ("updated", PDateTime(c.updated)),
     ("stars", PList(seq(|c.stars|, i requires 0 <= i < |c.stars| => PModel(StarAttrs(c.stars[i]))))),
     ("notifications", FromJson(c.notifications))]
  }

  /** A comment's `to_json_string` never raises: its change logs, its stars and
      its creator are nested models the encoder can write. */
  lemma CommentShaped(c: Comment)
    ensures ToJsonString(CommentAttrs(c)).Ok?
  {
    var attrs := CommentAttrs(c);
    JsonShaped(c.id); JsonShaped(c.content); JsonShaped(c.notifications);
    UserShaped(c.createdUser);
    forall i | 0 <= i < |c.changeLog| ensures ItemShaped(attrs[2].1.items[i]) {
      ChangeLogShaped(c.changeLog[i]);
    }
    forall i | 0 <= i < |c.stars| ensures ItemShaped(attrs[6].1.items[i]) {
      StarShaped(c.stars[i]);
    }
    ToJsonStringSucceeds(attrs);
  }

  /** The mappers of list elements reject anything but a dict. */
  lemma ElementMappersRejectNonObjects()
    ensures forall x: Json :: !x.JObj? ==> ChangeLogFromDict(x).Err?
    ensures forall x: Json :: !x.JObj? ==> StarFromDict(x).Err?
  {
  }

  /** The change log and the stars of a comment are the source lists mapped
      element by element, same length and order; the only other payloads that
      pass are {} and "", which give []. */
  lemma CommentListsElementwise(data: Json)
    requires CommentFromDict(data).Ok?
    ensures var c := CommentFromDict(data).value; var v := At(data, "changeLog");
            (v.JArr? ==> MapsEach(ChangeLogFromDict, v.items, c.changeLog))
            && (!v.JArr? ==> (v == JStr([]) || v == JObj([])) && c.changeLog == [])
    ensures var c := CommentFromDict(data).value; var v := At(data, "stars");
            (v.JArr? ==> MapsEach(StarFromDict, v.items, c.stars))
            && (!v.JArr? ==> (v == JStr([]) || v == JObj([])) && c.stars == [])
  {
    ElementMappersRejectNonObjects();
    ListCompOfMapper(ChangeLogFromDict, At(data, "changeLog"));
    ListCompOfMapper(StarFromDict, At(data, "stars"));
  }
}
