# backlog-api4py: the data-mapping layer, modelled in Dafny

backlog-api4py is a Python client for the REST API v2 of the Backlog project
management service. This project models the part of the client that turns
decoded JSON payloads into model objects and back, together with the client's
configuration check:

- the `from_dict` class methods of every model (`NulabAccount`, `User`, `Star`,
  `Attachment`, `SharedFile`, `Status`, `IssueType`, `Category`, `Version`,
  `ChangeLog`, `Comment`, `Tag`, `Wiki`, `Space`, `Project`). Each one is a
  function from a `Json` value to `Result<Entity>`. Its contract says when it
  succeeds and what it returns. It also says which Python exception is raised
  when a step fails: `KeyError` for a missing key, `TypeError` for a subscript
  of a non-dict or a non-string timestamp, `ValueError` for a malformed
  timestamp. Keyword arguments are evaluated left to right, so the first
  failing step is the one reported, and each contract states that order;
- the timestamp codec `"%Y-%m-%dT%H:%M:%SZ"` (`strptime` and `strftime`), with
  a round trip proved in both directions;
- `Base.to_dict` as a loop, proved equal to a recursive specification.
  `_convert_value` and `to_json_string` are modelled as the conversion that
  `json.dumps(..., default=_convert_value)` performs on the dictionary;
- the enumerations `Priority` and `Resolution` with `value_of` (as a scan and
  as a function), `to_value` and `__str__`;
- `BacklogApi.__init__`, which checks its parameters in order, picks the
  domain from `SPACE_TYPES` and builds the base URL.

Modules: `Errors` (Python's exceptions as values, plus `Result` and `Option`),
`Json` (`json.loads` output, dict subscripts, iteration, list
comprehensions), `Timestamp`, `Base`, `Const`, `UserModel`, `StarModel`,
`FileModel`, `IssueModel`, `WikiModel`, `SpaceModel`, `ProjectModel` and
`Api`.

Dataclass annotations are not enforced in Python. A field that `from_dict`
copies with `data["key"]` therefore holds the payload value unchanged, so in
the model such fields have type `Json`. Python `None` is `JNull`.

**Serialisation is not the inverse of reading.** It is tempting to expect that
reading back what `to_json_string` writes gives the same entity. The code does
not do that:
- `to_dict` writes the Python attribute names (`user_id`, `project_key`, ...);
- `from_dict` reads the camelCase keys of the API (`userId`, `projectKey`, ...);
- `to_dict` drops attributes that are `None`, but `from_dict` requires nearly
  all of them. The exceptions are `IssueType`'s two templates, which are read
  with `.get`.

The model proves both sides of this:
- `UserModel.UserJsonNotReadable` proves that reading a user back always
  fails, on `nulabAccount`;
- `ProjectModel.ProjectJsonNotReadable` proves that reading a project back
  with an id fails on `projectKey`. `ProjectModel.ProjectNullIdNotReadable`
  proves that with a None id it fails earlier, on `id`;
- `WikiModel.TagRoundTrip` proves that the round trip does hold for `Tag`,
  whose attribute names are single words, as long as no field is None;
- `WikiModel.TagNullNameNotReadable` proves that it breaks as soon as the
  tag's name is None.

## Model

| member | source | states |
|---|---|---|
| Json.Subscript | backlog/models/user.py:34-36 | `data[key]` succeeds exactly when data is a dict that has key, and gives the value bound to key. Otherwise it is a KeyError for a dict and a TypeError for anything else |
| Json.GetOrNone | backlog/models/issue.py:67-68 | `data.get(key)` succeeds exactly on dicts. It gives the bound value when the key is present and None when it is absent |
| Json.ReadKeys | backlog/models/project.py:40-53 | Subscripting keys in order succeeds exactly when all are present. The values are in key order, and a failure names the first missing key |
| Json.FirstMissing | backlog/models/project.py:40-53 | The error of the first failing subscript: a TypeError on the first key when data is not a dict, otherwise the KeyError of a key that is absent |
| Json.Iterate | backlog/models/issue.py:165 | `for x in v` succeeds on lists (their items), dicts (their keys) and strings (their characters). Anything else is a TypeError |
| Json.ListComp | backlog/models/issue.py:165 | A comprehension succeeds exactly when v is iterable and f succeeds on every element. The result maps each element in order, and a non-iterable is a TypeError |
| Json.ListAt | backlog/models/wiki.py:66-69 | `[f(x) for x in data[key]]` is the subscript error when the key is missing, and otherwise the comprehension over its value |
| Json.ListCompOfMapper | backlog/models/wiki.py:66-69 | A comprehension of a mapper that rejects non-dicts succeeds on a list only element by element. On anything else it succeeds only for `""` or `{}`, giving `[]` |
| Timestamp.Parse | backlog/models/base.py:25 | `strptime` with the fixed format: a failure is a ValueError for that text, and any string not exactly 20 characters long fails |
| Timestamp.Format | backlog/models/base.py:75-76 | `strftime` with the fixed pattern always writes 20 characters: digits where the pattern has fields, and `-`, `T`, `:` and `Z` at their fixed positions |
| Timestamp.ParseFormat | backlog/models/base.py:25 | Parsing the formatted text of any valid datetime (years 1 to 9999) gives back that datetime |
| Timestamp.FormatParse | backlog/models/base.py:25 | Any string that parses is the formatted text of what it parses to, so the format has one spelling per instant |
| Timestamp.ParseSpaceCreated | tests/api/test_space.py:62-65 | `"2013-01-01T00:00:00Z"` parses to 2013-01-01 00:00:00 |
| Timestamp.ParseSpaceUpdated | tests/api/test_space.py:62-65 | `"2022-12-31T23:59:59Z"` parses to 2022-12-31 23:59:59 |
| Timestamp.FormatSpaceUpdated | tests/models/test_base.py:57-68 | 2022-12-31 23:59:59 is written as `"2022-12-31T23:59:59Z"` |
| Timestamp.ParseAttachmentCreated | tests/api/test_wiki_attachment.py:50-66 | The attachment creation time of the test parses to 2014-01-06 11:10:45 |
| Timestamp.ParseStarCreated | tests/api/test_user_star.py:52-78 | The star creation time of the test parses to 2014-01-23 10:55:19 |
| Timestamp.ParseRejectsImpossibleDates | backlog/models/base.py:25 | 29 February of a common year, hour 24 and second 60 are rejected |
| Base.Strptime | backlog/models/space.py:47 | `datetime.strptime(v, ...)` parses a string and raises a TypeError on every other value |
| Base.TimeAt | backlog/models/space.py:47-48 | `strptime(data[key], ...)` fails on a missing key with the subscript error, and otherwise parses the value |
| Base.StrptimeIfTruthy | backlog/models/issue.py:104-109 | A false value (None, `""`, 0, empty list or dict) gives None without parsing. A true string is parsed, and any other true value is a TypeError |
| Base.OptionalTimeAt | backlog/models/issue.py:104-109 | The key is required even when its value is null, and the value is then handled as `StrptimeIfTruthy` handles it |
| Base.Converted | backlog/models/base.py:53-64 | An attribute is dropped exactly when it is None. A list stays a list of the same length. What each kind of value becomes is stated by the `ToDictEntry` lemmas below |
| Base.ToDict | backlog/models/base.py:47-66 | `to_dict` never has more entries than the instance has attributes |
| Base.DictPrefix | backlog/models/base.py:52-64 | After n iterations of the loop the dictionary holds at most n entries |
| Base.ToDictLoop | backlog/models/base.py:47-66 | The loop over the attributes, with its inner loop over list items and its recursive `to_dict` of nested models, builds the dictionary of the recursive specification `ToDict` |
| Base.ToDictNeverNone | backlog/models/base.py:63-64 | No value in a `to_dict` result is None, and every key is an attribute name whose value is not None |
| Base.ToDictKeysFromAttrs | backlog/models/base.py:53-64 | Every key of a `to_dict` result is one of the instance's attribute names |
| Base.ToDictEntry | backlog/models/base.py:53-64 | Every attribute that is not None is in the `to_dict` result under its own name, with its converted value |
| Base.ToDictNestedModel | backlog/models/base.py:61-62 | An attribute holding a model is stored as that model's own `to_dict()` |
| Base.ToDictListItems | backlog/models/base.py:54-60 | A list attribute is stored as a new list of the same items in the same order. Each item that has `to_dict` is replaced by its `to_dict()`, and every other item is kept as it is |
| Base.ToDictKeepsPlain | backlog/models/base.py:63-64 | An attribute that is not None, not a list and not a model is stored unchanged under its own name |
| Base.ToDictOmitsNone | backlog/models/base.py:63-64 | An attribute whose value is None has no key in `to_dict` |
| Base.ToDictAllSet | backlog/models/base.py:53-64 | With no None attribute, `to_dict` keeps every attribute name in declaration order, each with its converted value |
| Base.ToDictAppend | backlog/models/base.py:53-64 | `to_dict` treats attributes one at a time: the dictionary of a concatenation is the concatenation of the dictionaries |
| Base.ToDictSingle | backlog/models/base.py:53-64 | A single attribute gives no entry when it is None and its converted value otherwise |
| Base.ConvertedFromJson | backlog/models/base.py:53-60 | A non-null value copied from the payload passes through `to_dict` unchanged |
| Base.ConvertValue | backlog/models/base.py:68-77 | The `default` hook succeeds exactly on datetimes and gives a string that parses back to the same datetime. Anything else is a TypeError |
| Base.Dump | backlog/models/base.py:42-45 | `json.dumps` with the hook: None is `null`, a datetime is its formatted string, and a bare model is the hook's TypeError. A list or dict that encodes keeps its length, and a dict keeps its keys in order. Every failure is that TypeError |
| Base.ToJsonString | backlog/models/base.py:37-45 | `to_json_string` fails only with the hook's TypeError. On success it writes an object with exactly the `to_dict` keys, in order |
| Base.DumpSucceedsIffPlain | backlog/models/base.py:42-45 | `json.dumps` with that hook succeeds exactly when the value holds only JSON-native values and datetimes |
| Base.DumpFromJson | backlog/models/base.py:42-45 | A decoded JSON value is encoded back as itself |
| Base.ToJsonStringSucceeds | backlog/models/base.py:37-45 | `to_json_string` never raises for an instance whose attributes are payload values, datetimes, models or lists of them |
| Base.ToJsonStringEntries | backlog/models/base.py:37-45 | `to_json_string` writes an object whose keys are the `to_dict` keys in order, each value encoded from its `to_dict` value |
| Base.ExampleToDict | tests/models/test_base.py:45-55 | The test instance's `to_dict` keeps id, name, the nested dict and the datetime |
| Base.ExampleConvertValue | tests/models/test_base.py:57-68 | The test's datetime is written as `"2022-12-31T23:59:59Z"` |
| Base.ExampleToJsonString | tests/models/test_base.py:57-68 | The test instance is written as `{"id": 123, "name": "mike", "data": {"key": "value"}, "updated": "2022-12-31T23:59:59Z"}`, in that key order |
| Base.ExampleDump | tests/models/test_base.py:57-68 | The encoder writes the test instance's dictionary as that object |
| Const.ValueOf | backlog/models/const.py:34-45 | `value_of` succeeds exactly when some member has the code, and then gives the first such member. Otherwise it is a ValueError carrying the code |
| Const.ValueOfScan | backlog/models/const.py:42-45 | The scan with early return computes `ValueOf` |
| Const.ValueOfOwnCode | backlog/models/const.py:34-45 | When codes are unique, looking up a member's own code gives back that member |
| Const.PriorityToValue | backlog/models/const.py:27-32 | `to_value()` of a priority is a code from 2 to 4, and the member declared at that position |
| Const.PriorityLabel | backlog/models/const.py:23-25 | `str()` of a priority is the label declared with its code |
| Const.PriorityValueOf | backlog/models/const.py:34-53 | `Priority.value_of` gives a member whose code is the argument, or a ValueError carrying the code |
| Const.PriorityMembers | backlog/models/const.py:23-32 | `to_value` and `str` of High, Normal and Low are 2/"High", 3/"Normal" and 4/"Low". Codes and labels are pairwise distinct |
| Const.PriorityValueOfTable | backlog/models/const.py:48-53 | `Priority.value_of` accepts exactly 2, 3 and 4, giving High, Normal and Low, and rejects every other code |
| Const.PriorityRoundTrip | backlog/models/const.py:27-45 | `value_of(p.to_value())` is p for every priority |
| Const.ResolutionToValue | backlog/models/const.py:27-32 | `to_value()` of a resolution is a code from 0 to 4, and the member declared at that position |
| Const.ResolutionLabel | backlog/models/const.py:23-25 | `str()` of a resolution is the label declared with its code |
| Const.ResolutionValueOf | backlog/models/const.py:34-45 | `Resolution.value_of` gives a member whose code is the argument, or a ValueError carrying the code |
| Const.ResolutionMembers | backlog/models/const.py:56-63 | The codes 0 to 4 with labels "Fixed", "Won't Fix", "Invalid", "Duplication" and "Cannot Reproduce". Codes and labels are pairwise distinct |
| Const.ResolutionValueOfTable | backlog/models/const.py:56-63 | `Resolution.value_of` accepts exactly 0 to 4, in declaration order, and rejects every other code |
| Const.ResolutionRoundTrip | backlog/models/const.py:27-45 | `value_of(r.to_value())` is r for every resolution |
| UserModel.NulabAccountFromDict | backlog/models/user.py:31-37 | Succeeds exactly when nulabId, name and uniqueId are present, and copies them. Otherwise it reports the first missing key |
| UserModel.AccountIfTruthy | backlog/models/user.py:55-56 | A false nested account (None, `{}`) gives None. A true one is read as a Nulab account and its error propagates |
| UserModel.UserFromDict | backlog/models/user.py:53-67 | `nulabAccount` is required and read first. The seven other keys are then required in order, and the user is built from the copied values. Each failure names the first failing step |
| UserModel.UserAt | backlog/models/star.py:43 | `User.from_dict(data[key])`: the subscript error when the key is missing, and otherwise the user read from the value |
| UserModel.AccountExamples | backlog/models/user.py:55-56 | A null or empty account gives None, and an account with its three keys gives that account |
| UserModel.UserWithoutAccountKey | backlog/models/user.py:55-56 | A user payload shaped like the nested users of the wiki tests, with no `nulabAccount` key, fails with KeyError("nulabAccount") |
| UserModel.UserShaped | backlog/models/base.py:37-45 | A user's `to_json_string` never raises |
| UserModel.UserJsonNotReadable | backlog/models/user.py:53-67 | What `to_json_string` writes for any user is not readable by `User.from_dict`: it lacks `nulabAccount` |
| StarModel.StarFromDict | backlog/models/star.py:36-45 | Four copied keys, the presenter read as a user, then the creation time parsed. Succeeds exactly when all succeed, and each failure is reported in argument order |
| StarModel.StarShaped | backlog/models/base.py:37-45 | A star's `to_json_string` never raises |
| StarModel.StarNullCommentOmitted | backlog/models/star.py:30 | A star with a None comment has no `comment` key in its `to_dict` |
| FileModel.AttachmentFromDict | backlog/models/file.py:34-42 | Three copied keys, the creator read as a user, the creation time parsed. Succeeds exactly when all succeed, and failures are reported in argument order |
| FileModel.SharedFileFromDict | backlog/models/file.py:59-71 | Five copied keys, then creator, creation time, updater and update time. Succeeds exactly when all succeed, and failures are reported in argument order |
| FileModel.AttachmentShaped | backlog/models/file.py:24-32 | An attachment's `to_json_string` never raises |
| FileModel.SharedFileShaped | backlog/models/file.py:45-57 | A shared file's `to_json_string` never raises |
| FileModel.SharedFileToDict | backlog/models/base.py:47-66 | A shared file's `to_dict` has its nine attribute names in order. Both users are nested dicts, and both times stay datetimes |
| IssueModel.StatusFromDict | backlog/models/issue.py:36-44 | Five required keys, copied, or the first missing one reported |
| IssueModel.StatusShaped | backlog/models/issue.py:26-34 | A status's `to_json_string` never raises |
| IssueModel.IssueTypeFromDict | backlog/models/issue.py:59-69 | Five required keys. The two templates are optional and are None when absent |
| IssueModel.IssueTypeShaped | backlog/models/issue.py:47-57 | An issue type's `to_json_string` never raises, and a template that is None has no key in its `to_dict` |
| IssueModel.CategoryFromDict | backlog/models/issue.py:80-86 | Three required keys, copied, or the first missing one reported |
| IssueModel.CategoryShaped | backlog/models/issue.py:72-78 | A category's `to_json_string` never raises |
| IssueModel.VersionFromDict | backlog/models/issue.py:102-120 | Both dates are read first and are optional. The six other keys are then required, and failures are reported in that order |
| IssueModel.VersionDates | backlog/models/issue.py:104-109 | A null or empty date gives None. A timestamp string gives its datetime. Any other non-empty string is a ValueError |
| IssueModel.VersionShaped | backlog/models/issue.py:89-100 | A version's `to_json_string` never raises, and a date that is None has no key in its `to_dict` |
| IssueModel.ChangeLogFromDict | backlog/models/issue.py:135-144 | Six required keys, copied, or the first missing one reported |
| IssueModel.ChangeLogShaped | backlog/models/issue.py:123-133 | A change log's `to_json_string` never raises |
| IssueModel.CommentFromDict | backlog/models/issue.py:160-171 | Read in order: id and content, the change logs, the creator, both times, the stars, and notifications. Succeeds exactly when all steps succeed, and the first failing one is reported |
| IssueModel.CommentListsElementwise | backlog/models/issue.py:165-169 | Change logs and stars are the source lists mapped element by element. A non-list is accepted only as `""` or `{}`, giving `[]` |
| IssueModel.CommentShaped | backlog/models/issue.py:147-158 | A comment's `to_json_string` never raises, with its change logs, stars and creator nested |
| WikiModel.TagFromDict | backlog/models/wiki.py:34-39 | `id` and `name` are required and copied |
| WikiModel.TagShaped | backlog/models/wiki.py:27-32 | A tag's `to_json_string` never raises |
| WikiModel.TagRoundTrip | backlog/models/wiki.py:34-39 | A tag with no None field is written as `{"id": ..., "name": ...}` and read back as itself |
| WikiModel.TagNullNameNotReadable | backlog/models/wiki.py:34-39 | A tag whose name is None is written without `name`, so reading it back is KeyError("name") |
| WikiModel.WikiListsAt | backlog/models/wiki.py:66-69 | Tags, attachments, shared files and stars are read in that order. The first failing list is the one reported |
| WikiModel.WikiFromDict | backlog/models/wiki.py:59-74 | Four copied keys, the four lists, then creator, creation time, updater and update time. Succeeds exactly when all succeed, and failures are reported in argument order |
| WikiModel.WikiListsElementwise | backlog/models/wiki.py:66-69 | Each list is its source list mapped element by element, so an empty `stars` list gives `[]` and not None |
| WikiModel.WikiShaped | backlog/models/wiki.py:42-57 | A wiki page's `to_json_string` never raises, with its four lists and two users nested |
| WikiModel.WikiListsShaped | backlog/models/wiki.py:50-53 | The four lists of a wiki page hold only model instances the encoder can write |
| SpaceModel.SpaceFromDict | backlog/models/space.py:37-49 | Seven copied keys, then both times parsed. Succeeds exactly when all succeed, and failures are reported in argument order |
| SpaceModel.SpaceTimes | tests/api/test_space.py:62-65 | A payload with every required key and the test's two timestamps maps to a space with the expected datetimes. A space-separated creation time makes the mapping a ValueError |
| SpaceModel.SpaceShaped | backlog/models/space.py:23-35 | A space's `to_json_string` never raises |
| ProjectModel.ProjectFromDict | backlog/models/project.py:38-53 | Eleven required keys, copied, or the first missing one reported |
| ProjectModel.ProjectToDictKeys | backlog/models/project.py:26-36 | With no None field, the `to_dict` keys are the eleven attribute names in declaration order |
| ProjectModel.ProjectDictLacksProjectKey | backlog/models/project.py:27 | No key of a project's `to_dict` is `projectKey` |
| ProjectModel.ProjectJsonNotReadable | backlog/models/project.py:38-53 | What `to_json_string` writes for a project with an id is not readable by `Project.from_dict`: it fails on `projectKey` |
| ProjectModel.ProjectNullIdNotReadable | backlog/models/project.py:38-53 | With a None id, `to_dict` omits `id`, so reading back what `to_json_string` writes fails with KeyError("id") |
| Api.Validate | backlog/api.py:34-40 | The three checks run in order with their exact messages. They all pass exactly when space_key and api_key are non-empty and space_type is jp, com or tool, and the result is then that type's domain |
| Api.BaseUrl | backlog/api.py:42 | The URL is `https://`, the space key, a dot, the domain, then `/api/v2/` |
| Api.BacklogApi.constructor | backlog/api.py:36-43 | Once the checks pass, the object keeps `api_key` and a `base_url` built from the space key and the domain of the space type |
| Api.BacklogApi.Create | backlog/api.py:26-43 | Construction succeeds exactly when the checks pass and raises the first check's error otherwise. On success, `api_key` is kept and `base_url` is built from the space key and the domain |
| Api.SpaceTypesTable | backlog/api.py:20-24 | The table has exactly jp, com and tool, mapped to backlog.jp, backlog.com and backlogtool.com |
| Api.InitJpExample | tests/api/test_init.py:31-39 | A jp space gives `https://test.backlog.jp/api/v2/` |
| Api.InitComExample | tests/api/test_init.py:41-49 | A com space gives `https://test.backlog.com/api/v2/` |
| Api.InitToolExample | tests/api/test_init.py:51-59 | A tool space gives `https://test.backlogtool.com/api/v2/` |
| Api.InitRejectExamples | tests/api/test_init.py:23-75 | An empty space key, an unknown space type and an empty api key each raise their error |

## Left out

- The HTTP endpoints, the `requests` transport and the mocked responses of the tests are not part of this model. `api.py` is modelled only as far as its constructor.
- JSON text: `json.loads` is taken as already done, and `to_json_string` is modelled up to the JSON value it encodes. Spacing, escaping and `ensure_ascii=False` are not modelled.
- Timestamp.Parse: models the strict reading of the format. Two leniencies of CPython's `strptime` are not modelled: one-digit fields and lowercase `t`/`z`. Non-ASCII digits are not modelled either.
- Timestamp.Parse: the ValueError carries the text that failed, not CPython's message (for example "day is out of range for month" or "unconverted data remains").
- Timestamp.Format: always writes four year digits. CPython's `strftime` does not pad years below 1000 on every platform.
- Floats and big-number JSON values are not modelled: numbers are integers.
- Base.FromJson: its contract is not stated on the function itself. What it promises is stated by `Base.DumpFromJson` (encoding undoes it), and by `FromJsonPlain`, `JsonShaped` and `ConvertedFromJson`.
- Reflection over `self.__dict__` is not modelled. Each model lists its attributes in declaration order (`UserAttrs`, `StarAttrs`, ...).
- The abstract `Base.from_dict` only raises `NotImplementedError` and has no counterpart.
- Api.Validate: the space key and api key are strings, so the `None` case of `not space_key` is not modelled.
- Json.Lookup: a JSON object with duplicate keys is read with its first binding. `json.loads` keeps the last one.
- Base.ToDictLoop: builds a sequence of entries rather than updating a dict in place. Tuples and sets are modelled as lists.
- FileModel.SharedFileFromDict: the attribute `type` is called `fileType`, because `type` is a keyword in Dafny. Its payload key and `to_dict` key are still `type`.
- Concrete success-path payload examples (a whole wiki, comment or star payload read end to end) are not stated. The mappers' contracts state the general case.
- `__init__.py` re-exports and `setup.py` are not part of this model.
