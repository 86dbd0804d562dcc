/** Projects (backlog/models/project.py). */
module ProjectModel {
  import opened Errors
  import opened Json
  import opened Base

  datatype Project = Project(id: Json, projectKey: Json, name: Json, chartEnabled: Json, subtaskingEnabled: Json,
                             projectLeaderCanEditProjectLeader: Json, useWikiTreeView: Json,
                             textFormattingRule: Json, archived: Json, displayOrder: Json, useDevAttributes: Json)

  const PROJECT_KEYS: seq<string> :=
    ["id", "projectKey", "name", "chartEnabled", "subtaskingEnabled", "projectLeaderCanEditProjectLeader",
     "useWikiTreeView", "textFormattingRule", "archived", "displayOrder", "useDevAttributes"]

  /** `Project.from_dict`: eleven required keys, each copied unchanged into its
      own field; a missing key fails with no project built. */
  function ProjectFromDict(data: Json): (r: Result<Project>)
    ensures r.Ok? <==> HasKeys(data, PROJECT_KEYS)
    ensures r.Ok? ==> r.value == Project(At(data, "id"), At(data, "projectKey"), At(data, "name"),
                                         At(data, "chartEnabled"), At(data, "subtaskingEnabled"),
                                         At(data, "projectLeaderCanEditProjectLeader"), At(data, "useWikiTreeView"),
                                         At(data, "textFormattingRule"), At(data, "archived"),
                                         At(data, "displayOrder"), At(data, "useDevAttributes"))
    ensures r.Err? ==> r.error == FirstMissing(data, PROJECT_KEYS)
  {
    var vs :- ReadKeys(data, PROJECT_KEYS);
    Ok(Project(vs[0], vs[1], vs[2], vs[3], vs[4], vs[5], vs[6], vs[7], vs[8], vs[9], vs[10]))
  }

  /** The snake_case attribute names, in declaration order. */
  const PROJECT_ATTRIBUTES: seq<string> :=
    ["id", "project_key", "name", "chart_enabled", "subtasking_enabled", "project_leader_can_edit_project_leader",
     "use_wiki_tree_view", "text_formatting_rule", "archived", "display_order", "use_dev_attributes"]

  function ProjectAttrs(p: Project): seq<(string, PyValue)> {
    [("id", FromJson(p.id)), ("project_key", FromJson(p.projectKey)), ("name", FromJson(p.name)),
     ("chart_enabled", FromJson(p.chartEnabled)), ("subtasking_enabled", FromJson(p.subtaskingEnabled)),
     ("project_leader_can_edit_project_leader", FromJson(p.projectLeaderCanEditProjectLeader)),
     ("use_wiki_tree_view", FromJson(p.useWikiTreeView)), ("text_formatting_rule", FromJson(p.textFormattingRule)),
     ("archived", FromJson(p.archived)), ("display_order", FromJson(p.displayOrder)),
     ("use_dev_attributes", FromJson(p.useDevAttributes))]
  }

  predicate NoNullField(p: Project) {
    p.id != JNull && p.projectKey != JNull && p.name != JNull && p.chartEnabled != JNull
    && p.subtaskingEnabled != JNull && p.projectLeaderCanEditProjectLeader != JNull && p.useWikiTreeView != JNull
    && p.textFormattingRule != JNull && p.archived != JNull && p.displayOrder != JNull && p.useDevAttributes != JNull
  }

  /** With no None field, `to_dict` has exactly the eleven attribute names as
      keys, in declaration order. */
  lemma ProjectToDictKeys(p: Project)
    requires NoNullField(p)
    ensures Keys(ToDict(ProjectAttrs(p))) == PROJECT_ATTRIBUTES
  {
    var attrs := ProjectAttrs(p);
    ProjectAllSet(p);
    ToDictAllSet(attrs);
    assert Keys(attrs) == PROJECT_ATTRIBUTES;
  }

  /** With no None field, no attribute of a project is None. */
  lemma ProjectAllSet(p: Project)
    requires NoNullField(p)
    ensures forall j :: 0 <= j < |ProjectAttrs(p)| ==> ProjectAttrs(p)[j].1 != PNone
  {
    var a := ProjectAttrs(p);
    assert a[0].1 != PNone && a[1].1 != PNone && a[2].1 != PNone && a[3].1 != PNone;
    assert a[4].1 != PNone && a[5].1 != PNone && a[6].1 != PNone && a[7].1 != PNone;
    assert a[8].1 != PNone && a[9].1 != PNone && a[10].1 != PNone;
  }

  lemma ProjectShaped(p: Project)
    ensures ModelShaped(ProjectAttrs(p))
  {
    JsonShaped(p.id); JsonShaped(p.projectKey); JsonShaped(p.name); JsonShaped(p.chartEnabled);
    JsonShaped(p.subtaskingEnabled); JsonShaped(p.projectLeaderCanEditProjectLeader); JsonShaped(p.useWikiTreeView);
    JsonShaped(p.textFormattingRule); JsonShaped(p.archived); JsonShaped(p.displayOrder);
    JsonShaped(p.useDevAttributes);
  }

  /** No key `to_dict` writes for a project is `projectKey`. */
  lemma ProjectDictLacksProjectKey(p: Project)
    ensures forall i :: 0 <= i < |ToDict(ProjectAttrs(p))| ==> ToDict(ProjectAttrs(p))[i].0 != "projectKey"
  {
    ToDictKeysFromAttrs(ProjectAttrs(p));
    assert Keys(ProjectAttrs(p)) == PROJECT_ATTRIBUTES;
    assert "projectKey" !in PROJECT_ATTRIBUTES;
  }

  /** A project whose id is not None is written with `id` first. */
  lemma ProjectDictStartsWithId(p: Project)
    requires p.id != JNull
    ensures |ToDict(ProjectAttrs(p))| > 0 && ToDict(ProjectAttrs(p))[0] == ("id", FromJson(p.id))
  {
    var attrs := ProjectAttrs(p);
    assert attrs[0] == ("id", FromJson(p.id));
    assert attrs[..1] == [("id", FromJson(p.id))];
    ToDictAppend(attrs[..1], attrs[1..]);
    ToDictSingle("id", FromJson(p.id));
    ConvertedFromJson(p.id);
    assert attrs[..1] + attrs[1..] == attrs;
  }

  /** `to_dict` writes `project_key` where `from_dict` reads `projectKey`:
      re-reading what `to_json_string` writes fails on that key, whatever the
      project. */
  lemma ProjectJsonNotReadable(p: Project)
    requires p.id != JNull
    ensures ToJsonString(ProjectAttrs(p)).Ok?
    ensures ProjectFromDict(ToJsonString(ProjectAttrs(p)).value) == Err(KeyError("projectKey"))
  {
    var attrs := ProjectAttrs(p);
    ProjectShaped(p);
    ToJsonStringEntries(attrs);
    ProjectDictLacksProjectKey(p);
    ProjectDictStartsWithId(p);
    DumpFromJson(p.id);
    var j := ToJsonString(attrs).value;
    assert j.members[0] == ("id", p.id);
    assert !HasKey(j, "projectKey");
    LookupAt(j.members, 0);
    assert HasKey(j, PROJECT_KEYS[0]);
    assert PROJECT_KEYS[1..][0] == "projectKey";
  }

  /** With a None id, `to_dict` leaves `id` out, and re-reading what
      `to_json_string` writes fails on `id`, the first key `from_dict` reads. */
  lemma ProjectNullIdNotReadable(p: Project)
    requires p.id == JNull
    ensures ToJsonString(ProjectAttrs(p)).Ok?
    ensures ProjectFromDict(ToJsonString(ProjectAttrs(p)).value) == Err(KeyError("id"))
  {
    var attrs := ProjectAttrs(p);
    ProjectShaped(p);
    ToJsonStringEntries(attrs);
    assert DistinctKeys(attrs) by {
      assert Keys(attrs) == PROJECT_ATTRIBUTES;
    }
    ToDictOmitsNone(attrs, 0);
    var j := ToJsonString(attrs).value;
    assert forall i :: 0 <= i < |j.members| ==> j.members[i].0 == Keys(ToDict(attrs))[i];
    assert !HasKey(j, PROJECT_KEYS[0]);
  }
}
