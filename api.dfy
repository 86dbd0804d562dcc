/** The client object and its configuration (backlog/api.py): the parameters are
    checked in order, the space type picks the domain, and the base URL of the
    REST API v2 is built from the space key and that domain. */
module Api {
  import opened Errors

  /** `BacklogApi.SPACE_TYPES`: the domain of each space type. */
  const SPACE_TYPES: map<string, string> := map["jp" := "backlog.jp", "com" := "backlog.com", "tool" := "backlogtool.com"]

  const SPACE_KEY_EMPTY: string := "space_key must not be empty."
  const SPACE_TYPE_UNKNOWN: string := "space_type must be one of 'jp', 'com', 'tool'."
  const API_KEY_EMPTY: string := "api_key must not be empty."

  /** The three checks of `__init__`, in the order they run: the domain when they
      all pass, the ValueError of the first failing one otherwise. */
  function Validate(spaceKey: string, spaceType: string, apiKey: string): (r: Result<string>)
    ensures r.Ok? <==> spaceKey != "" && spaceType in {"jp", "com", "tool"} && apiKey != ""
    ensures r.Ok? ==> spaceType in SPACE_TYPES && r.value == SPACE_TYPES[spaceType] && r.value != ""
    ensures spaceKey == "" ==> r == Err(InvalidConfig(SPACE_KEY_EMPTY))
    ensures spaceKey != "" && spaceType !in {"jp", "com", "tool"} ==> r == Err(InvalidConfig(SPACE_TYPE_UNKNOWN))
    ensures spaceKey != "" && spaceType in {"jp", "com", "tool"} && apiKey == "" ==>
              r == Err(InvalidConfig(API_KEY_EMPTY))
  {
    if spaceKey == "" then Err(InvalidConfig(SPACE_KEY_EMPTY))
    else if spaceType !in SPACE_TYPES || SPACE_TYPES[spaceType] == "" then Err(InvalidConfig(SPACE_TYPE_UNKNOWN))
    else if apiKey == "" then Err(InvalidConfig(API_KEY_EMPTY))
    else Ok(SPACE_TYPES[spaceType])
  }

  /** `f"https://{space_key}.{domain}/api/v2/"`. */
  function BaseUrl(spaceKey: string, domain: string): (url: string)
    ensures |url| == |"https://"| + |spaceKey| + 1 + |domain| + |"/api/v2/"|
    ensures url[..8] == "https://" && url[8..8 + |spaceKey|] == spaceKey && url[8 + |spaceKey|] == '.'
    ensures url[9 + |spaceKey|..9 + |spaceKey| + |domain|] == domain && url[|url| - 8..] == "/api/v2/"
  {
    "https://" + spaceKey + "." + domain + "/api/v2/"
  }

  class BacklogApi {
    const baseUrl: string
    const apiKey: string

    /** The object `__init__` leaves behind once the checks have passed: the
        domain of the space type, and the two fields set from it. */
    constructor (spaceKey: string, spaceType: string, apiKey: string)
      requires Validate(spaceKey, spaceType, apiKey).Ok?
      ensures this.baseUrl == BaseUrl(spaceKey, Validate(spaceKey, spaceType, apiKey).value)
      ensures this.apiKey == apiKey
    {
      var domain := SPACE_TYPES[spaceType];
      this.baseUrl := "https://" + spaceKey + "." + domain + "/api/v2/";
      this.apiKey := apiKey;
    }

    /** `BacklogApi(space_key, space_type, api_key)`: the checks in order, each
        raising its ValueError, then the two fields set. */
    static method Create(spaceKey: string, spaceType: string, apiKey: string) returns (r: Result<BacklogApi>)
      ensures r.Ok? <==> Validate(spaceKey, spaceType, apiKey).Ok?
      ensures r.Err? ==> r.error == Validate(spaceKey, spaceType, apiKey).error
      ensures r.Ok? ==> fresh(r.value) && r.value.apiKey == apiKey
                        && r.value.baseUrl == BaseUrl(spaceKey, Validate(spaceKey, spaceType, apiKey).value)
    {
      if spaceKey == "" {
        return Err(InvalidConfig(SPACE_KEY_EMPTY));
      }
      var domain := if spaceType in SPACE_TYPES then SPACE_TYPES[spaceType] else "";
      if domain == "" {
        return Err(InvalidConfig(SPACE_TYPE_UNKNOWN));
      }
      if apiKey == "" {
        return Err(InvalidConfig(API_KEY_EMPTY));
      }
      var api := new BacklogApi(spaceKey, spaceType, apiKey);
      return Ok(api);
    }
  }

  /** The domain table has exactly the three space types, each with its own
      domain. */
  lemma SpaceTypesTable()
    ensures SPACE_TYPES.Keys == {"jp", "com", "tool"}
    ensures SPACE_TYPES["jp"] == "backlog.jp" && SPACE_TYPES["com"] == "backlog.com"
            && SPACE_TYPES["tool"] == "backlogtool.com"
  {
  }

  /** The base URL of the constructor test for a "jp" space. */
  lemma InitJpExample()
    ensures Validate("test", "jp", "key") == Ok("backlog.jp")
    ensures BaseUrl("test", "backlog.jp") == "https://test.backlog.jp/api/v2/"
  {
    assert "jp" in SPACE_TYPES && SPACE_TYPES["jp"] == "backlog.jp";
  }

  lemma InitComExample()
    ensures Validate("test", "com", "key") == Ok("backlog.com")
    ensures BaseUrl("test", "backlog.com") == "https://test.backlog.com/api/v2/"
  {
    assert "com" in SPACE_TYPES && SPACE_TYPES["com"] == "backlog.com";
  }

  lemma InitToolExample()
    ensures Validate("test", "tool", "key") == Ok("backlogtool.com")
    ensures BaseUrl("test", "backlogtool.com") == "https://test.backlogtool.com/api/v2/"
  {
    assert "tool" in SPACE_TYPES && SPACE_TYPES["tool"] == "backlogtool.com";
  }

  /** The three invalid parameter sets of the constructor tests. */
  lemma InitRejectExamples()
    ensures Validate("", "jp", "key") == Err(InvalidConfig(SPACE_KEY_EMPTY))
    ensures Validate("test", "", "key") == Err(InvalidConfig(SPACE_TYPE_UNKNOWN))
    ensures Validate("test", "jp", "") == Err(InvalidConfig(API_KEY_EMPTY))
  {
  }
}
