/** The space (backlog/models/space.py). */
module SpaceModel {
  import opened Errors
  import opened Json
  import opened Timestamp
  import opened Base

  datatype Space = Space(spaceKey: Json, name: Json, ownerId: Json, lang: Json, timezone: Json,
                         reportSendTime: Json, textFormattingRule: Json, created: Timestamp, updated: Timestamp)

  const SPACE_KEYS: seq<string> :=
    ["spaceKey", "name", "ownerId", "lang", "timezone", "reportSendTime", "textFormattingRule"]

  /** `Space.from_dict`: seven copied keys (`reportSendTime` stays the string it
      is), then the two times parsed, in argument order. */
  function SpaceFromDict(data: Json): (r: Result<Space>)
    ensures r.Ok? <==> HasKeys(data, SPACE_KEYS) && TimeAt(data, "created").Ok? && TimeAt(data, "updated").Ok?
    ensures r.Ok? ==> r.value == Space(At(data, "spaceKey"), At(data, "name"), At(data, "ownerId"), At(data, "lang"),
                                       At(data, "timezone"), At(data, "reportSendTime"),
                                       At(data, "textFormattingRule"), TimeAt(data, "created").value,
                                       TimeAt(data, "updated").value)
    ensures !HasKeys(data, SPACE_KEYS) ==> r == Err(FirstMissing(data, SPACE_KEYS))
    ensures HasKeys(data, SPACE_KEYS) && TimeAt(data, "created").Err? ==> r == Err(TimeAt(data, "created").error)
    ensures HasKeys(data, SPACE_KEYS) && TimeAt(data, "created").Ok? && TimeAt(data, "updated").Err? ==>
              r == Err(TimeAt(data, "updated").error)
  {
    var vs :- ReadKeys(data, SPACE_KEYS);
    var created :- TimeAt(data, "created");
    var updated :- TimeAt(data, "updated");
    Ok(Space(vs[0], vs[1], vs[2], vs[3], vs[4], vs[5], vs[6], created, updated))
  }

  function SpaceAttrs(s: Space): seq<(string, PyValue)> {
    [("space_key", FromJson(s.spaceKey)), ("name", FromJson(s.name)), ("owner_id", FromJson(s.ownerId)),
     ("lang", FromJson(s.lang)), ("timezone", FromJson(s.timezone)), ("report_send_time", FromJson(s.reportSendTime)),
     ("text_formatting_rule", FromJson(s.textFormattingRule)), ("created", PDateTime(s.created)),
     ("updated", PDateTime(s.updated))]
  }

  /** A space's `to_json_string` never raises, and writes both times in the
      fixed format. */
  lemma SpaceShaped(s: Space)
    ensures ToJsonString(SpaceAttrs(s)).Ok?
  {
    JsonShaped(s.spaceKey); JsonShaped(s.name); JsonShaped(s.ownerId); JsonShaped(s.lang);
    JsonShaped(s.timezone); JsonShaped(s.reportSendTime); JsonShaped(s.textFormattingRule);
    ToJsonStringSucceeds(SpaceAttrs(s));
  }

  /** The two times of the space test, read from the fixed format; a creation
      time that does not match it fails the whole mapping. */
  lemma SpaceTimes(data: Json)
    requires HasKeys(data, SPACE_KEYS)
    ensures At(data, "created") == JStr("2013-01-01T00:00:00Z") && At(data, "updated") == JStr("2022-12-31T23:59:59Z")
            ==> SpaceFromDict(data).Ok? && SpaceFromDict(data).value.created == DateTime(2013, 1, 1, 0, 0, 0)
                && SpaceFromDict(data).value.updated == DateTime(2022, 12, 31, 23, 59, 59)
    ensures HasKey(data, "created") && At(data, "created") == JStr("2013-01-01 00:00:00") ==>
              SpaceFromDict(data) == Err(BadTimestamp("2013-01-01 00:00:00"))
  {
    assert HasKey(data, SPACE_KEYS[0]);
    ParseSpaceCreated();
    ParseSpaceUpdated();
  }
}
