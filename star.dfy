/** Stars (backlog/models/star.py). */
module StarModel {
  import opened Errors
  import opened Json
  import opened Timestamp
  import opened Base
  import opened UserModel

  datatype Star = Star(id: Json, comment: Json, url: Json, title: Json, presenter: User, created: Timestamp)

  /** The keys `Star.from_dict` reads before the nested presenter. */
  const STAR_KEYS: seq<string> := ["id", "comment", "url", "title"]

  /** `Star.from_dict`: four copied keys, the presenter as a user, the creation
      time parsed; each step in argument order, the first failing one reported. */
  function StarFromDict(data: Json): (r: Result<Star>)
    ensures r.Ok? <==> HasKeys(data, STAR_KEYS) && UserAt(data, "presenter").Ok? && TimeAt(data, "created").Ok?
    ensures r.Ok? ==> r.value == Star(At(data, "id"), At(data, "comment"), At(data, "url"), At(data, "title"),
                                      UserAt(data, "presenter").value, TimeAt(data, "created").value)
    ensures !HasKeys(data, STAR_KEYS) ==> r == Err(FirstMissing(data, STAR_KEYS))
    ensures HasKeys(data, STAR_KEYS) && UserAt(data, "presenter").Err? ==> r == Err(UserAt(data, "presenter").error)
    ensures HasKeys(data, STAR_KEYS) && UserAt(data, "presenter").Ok? && TimeAt(data, "created").Err? ==>
              r == Err(TimeAt(data, "created").error)
  {
    var vs :- ReadKeys(data, STAR_KEYS);
    var presenter :- UserAt(data, "presenter");
    var created :- TimeAt(data, "created");
    Ok(Star(vs[0], vs[1], vs[2], vs[3], presenter, created))
  }

  function StarAttrs(s: Star): seq<(string, PyValue)> {
    [("id", FromJson(s.id)), ("comment", FromJson(s.comment)), ("url", FromJson(s.url)),
     ("title", FromJson(s.title)), ("presenter", PModel(UserAttrs(s.presenter))),
     ("created", PDateTime(s.created))]
  }

  /** A star is a model instance whose `to_json_string` never raises. */
  lemma StarShaped(s: Star)
    ensures ModelShaped(StarAttrs(s))
    ensures ToJsonString(StarAttrs(s)).Ok?
  {
    JsonShaped(s.id); JsonShaped(s.comment); JsonShaped(s.url); JsonShaped(s.title);
    UserShaped(s.presenter);
    ToJsonStringSucceeds(StarAttrs(s));
  }

  /** A star without a comment has no `comment` key in its `to_dict`. */
  lemma StarNullCommentOmitted(s: Star)
    requires s.comment == JNull
    ensures "comment" !in Keys(ToDict(StarAttrs(s)))
  {
    ToDictOmitsNone(StarAttrs(s), 1);
  }
}
