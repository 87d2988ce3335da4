/** Configuration from environment variables (main.py:26-87): integer
    variables with fallback, the required api keys, the search-depth and
    summarisation switches. The environment is a map; Python's `int()` is a
    parameter `parse` that yields `None` where `int()` raises `ValueError`. */
module Settings {
  import opened Wrappers
  import opened Text

  type Env = map<string, string>

  /** Python truthiness of `os.getenv(key)`: set and non-empty. */
  predicate IsSet(env: Env, key: string)
  {
    key in env && env[key] != ""
  }

  /** `os.getenv(key, default)` for a string default. */
  function GetEnv(env: Env, key: string, default: string): (v: string)
    ensures key in env ==> v == env[key]
    ensures key !in env ==> v == default
  {
    if key in env then env[key] else default
  }

  /** `get_int_env` (main.py:26-32): the parsed value, or the default when the
      variable is unset or does not parse. */
  function GetIntEnv(env: Env, key: string, default: int, parse: string -> Option<int>): (v: int)
    ensures key !in env ==> v == default
    ensures key in env && parse(env[key]).Some? ==> v == parse(env[key]).value
    ensures key in env && parse(env[key]).None? ==> v == default
  {
    if key !in env then default
    else match parse(env[key])
      case Some(n) => n
      case None => default
  }

  datatype ApiKeys = ApiKeys(openai: string, tavily: string)

  const OpenAiKeyRequired: string := "OPENAI_API_KEY environment variable is required"
  const TavilyKeyRequired: string := "TAVILY_API_KEY environment variable is required"

  /** `validate_api_keys` (main.py:44-54): both keys must be set and
      non-empty, and the OpenAI key is checked first. */
  function ValidateApiKeys(env: Env): (r: Result<ApiKeys>)
    ensures r.Ok? <==> IsSet(env, "OPENAI_API_KEY") && IsSet(env, "TAVILY_API_KEY")
    ensures !IsSet(env, "OPENAI_API_KEY") ==> r == Err(OpenAiKeyRequired)
    ensures IsSet(env, "OPENAI_API_KEY") && !IsSet(env, "TAVILY_API_KEY") ==> r == Err(TavilyKeyRequired)
    ensures r.Ok? ==> r.value == ApiKeys(env["OPENAI_API_KEY"], env["TAVILY_API_KEY"])
  {
    if !IsSet(env, "OPENAI_API_KEY") then Err(OpenAiKeyRequired)
    else if !IsSet(env, "TAVILY_API_KEY") then Err(TavilyKeyRequired)
    else Ok(ApiKeys(env["OPENAI_API_KEY"], env["TAVILY_API_KEY"]))
  }

  predicate ValidDepth(depth: string)
  {
    depth == "basic" || depth == "advanced"
  }

  /** The search depth check of main.py:61-64: anything but "basic" or
      "advanced" becomes "basic". */
  function NormalizeDepth(depth: string): (d: string)
    ensures ValidDepth(d)
    ensures ValidDepth(depth) <==> d == depth
  {
    if ValidDepth(depth) then depth else "basic"
  }

  /** `value.lower() == "true"` (main.py:77-80). */
  predicate SummarizationFlag(value: string)
  {
    Lower(value) == "true"
  }

  /** The flag is on exactly for the sixteen spellings of "true" in any case. */
  lemma SummarizationFlagSpellings(value: string)
    ensures SummarizationFlag(value) <==>
              |value| == 4 && (value[0] == 't' || value[0] == 'T') && (value[1] == 'r' || value[1] == 'R')
              && (value[2] == 'u' || value[2] == 'U') && (value[3] == 'e' || value[3] == 'E')
  {
  }

  /** The configuration dictionary built by `build_config`; the float
      temperature is not modelled. */
  datatype Config = Config(
    openaiApiKey: string,
    tavilyApiKey: string,
    maxResults: int,
    searchDepth: string,
    maxContentSize: int,
    maxScrapeLength: int,
    enableSearchSummarization: bool,
    llmMaxTokens: int,
    requestTimeout: int,
    llmTimeout: int,
    csvFilePath: string,
    instanceName: string)

  /** `build_config` (main.py:57-87): fails exactly as `validate_api_keys`
      does; otherwise every field is its variable or its default. */
  function BuildConfig(env: Env, parse: string -> Option<int>): (r: Result<Config>)
    ensures r.Err? <==> ValidateApiKeys(env).Err?
    ensures r.Err? ==> r.message == ValidateApiKeys(env).message
    ensures r.Ok? ==> r.value.openaiApiKey == env["OPENAI_API_KEY"] != ""
                      && r.value.tavilyApiKey == env["TAVILY_API_KEY"] != ""
    ensures r.Ok? ==> ValidDepth(r.value.searchDepth)
    ensures r.Ok? ==> (r.value.searchDepth == "advanced" <==>
                        "SEARCH_DEPTH" in env && env["SEARCH_DEPTH"] == "advanced")
    ensures r.Ok? ==> (r.value.enableSearchSummarization <==>
                        "ENABLE_SEARCH_SUMMARIZATION" in env
                        && SummarizationFlag(env["ENABLE_SEARCH_SUMMARIZATION"]))
    ensures r.Ok? ==> r.value.maxResults == GetIntEnv(env, "MAX_RESULTS", 10, parse)
                      && r.value.maxContentSize == GetIntEnv(env, "MAX_CONTENT_SIZE", 10000, parse)
                      && r.value.maxScrapeLength == GetIntEnv(env, "MAX_SCRAPE_LENGTH", 20000, parse)
                      && r.value.llmMaxTokens == GetIntEnv(env, "LLM_MAX_TOKENS", 3000, parse)
                      && r.value.requestTimeout == GetIntEnv(env, "REQUEST_TIMEOUT", 30, parse)
                      && r.value.llmTimeout == GetIntEnv(env, "LLM_TIMEOUT", 60, parse)
    ensures r.Ok? ==> r.value.csvFilePath == GetEnv(env, "CSV_FILE_PATH", "sites_data.csv")
                      && r.value.instanceName == GetEnv(env, "INSTANCE_NAME", "qa-agent")
  {
    match ValidateApiKeys(env)
    case Err(e) => Err(e)
    case Ok(keys) =>
      var flag := GetEnv(env, "ENABLE_SEARCH_SUMMARIZATION", "false");
      assert Lower("false")[0] == 'f';
      Ok(Config(
        keys.openai,
        keys.tavily,
        GetIntEnv(env, "MAX_RESULTS", 10, parse),
        NormalizeDepth(GetEnv(env, "SEARCH_DEPTH", "basic")),
        GetIntEnv(env, "MAX_CONTENT_SIZE", 10000, parse),
        GetIntEnv(env, "MAX_SCRAPE_LENGTH", 20000, parse),
        SummarizationFlag(flag),
        GetIntEnv(env, "LLM_MAX_TOKENS", 3000, parse),
        GetIntEnv(env, "REQUEST_TIMEOUT", 30, parse),
        GetIntEnv(env, "LLM_TIMEOUT", 60, parse),
        GetEnv(env, "CSV_FILE_PATH", "sites_data.csv"),
        GetEnv(env, "INSTANCE_NAME", "qa-agent")))
  }
}
