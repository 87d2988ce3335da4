/** The Tavily domain search tool (search_tool.py): result formatting, the
    tool's construction, parameter defaulting, the empty-result and error
    paths, result slicing and the optional summarisation step. The Tavily
    client and the summarising language model are parameters. */
module SearchTool {
  import opened Wrappers
  import opened Text
  import opened Budget

  /** One entry of Tavily's `results` list; `None` is a key that is absent. */
  datatype Hit = Hit(title: Option<string>, url: Option<string>, content: Option<string>)

  /** The fields of a result as they are shown, after defaults and truncation. */
  datatype Shown = Shown(title: string, url: string, content: string)

  const NoTitle: string := "No title"
  const NoUrl: string := "No URL"
  const NoContent: string := "No content available"

  function FieldOr(field: Option<string>, default: string): (v: string)
    ensures field.None? ==> v == default
    ensures field.Some? ==> v == field.value
  {
    match field
    case None => default
    case Some(s) => s
  }

  /** The fields shown for `hit` (search_tool.py:32-39): a missing field
      shows its default, and content longer than the budget is cut to the
      budget followed by "...". The default content is budgeted like any other. */
  function Fill(hit: Hit, maxContentSize: int): (s: Shown)
    ensures hit.title.None? ==> s.title == NoTitle
    ensures hit.title.Some? ==> s.title == hit.title.value
    ensures hit.url.None? ==> s.url == NoUrl
    ensures hit.url.Some? ==> s.url == hit.url.value
    ensures var content := if hit.content.None? then NoContent else hit.content.value;
            && (|content| <= maxContentSize ==> s.content == content)
            && (0 <= maxContentSize < |content| ==>
                  |s.content| == maxContentSize + 3
                  && s.content == content[..maxContentSize] + "...")
  {
    Shown(FieldOr(hit.title, NoTitle), FieldOr(hit.url, NoUrl),
          Truncate(FieldOr(hit.content, NoContent), maxContentSize, SearchMarker))
  }

  const ResultTag: string := "\nResult "

  /** The text block of the `i`-th result (search_tool.py:41-47). */
  function Block(i: nat, s: Shown): string
  {
    ResultTag + NatToString(i) + BlockBody(s)
  }

  /** Everything after the number: the colon, then the shown fields. */
  function BlockBody(s: Shown): (body: string)
    ensures 0 < |body| && body[0] == ':'
  {
    ":\nTitle: " + s.title + "\nURL: " + s.url + "\nContent: " + s.content + "\n---\n"
  }

  /** The number in a block's "Result i:" label, if it carries one. */
  function ResultNumber(block: string): Option<nat>
  {
    if |ResultTag| <= |block| && block[..|ResultTag|] == ResultTag then
      var rest := block[|ResultTag|..];
      var k := DigitRunLength(rest);
      if 0 < k < |rest| && rest[k] == ':' then Some(ParseDigits(rest[..k])) else None
    else None
  }

  /** Every block is labelled with its own number, and the label reads back. */
  lemma ResultNumberOfBlock(i: nat, s: Shown)
    ensures ResultNumber(Block(i, s)) == Some(i)
  {
    var digits := NatToString(i);
    var tail := BlockBody(s);
    var rest := digits + tail;
    assert Block(i, s) == ResultTag + rest;
    DigitRunStopsAt(digits, tail);
    assert rest[..|digits|] == digits;
    ParseNatToString(i);
  }

  /** `format_search_results` from position `start` on: one block per hit, in
      order, numbered consecutively from `start`. */
  function FormatFrom(hits: seq<Hit>, start: nat, maxContentSize: int): (r: seq<string>)
    ensures |r| == |hits|
    ensures forall k :: 0 <= k < |hits| ==> r[k] == Block(start + k, Fill(hits[k], maxContentSize))
    decreases |hits|
  {
    if |hits| == 0 then []
    else [Block(start, Fill(hits[0], maxContentSize))] + FormatFrom(hits[1..], start + 1, maxContentSize)
  }

  /** `format_search_results(results, max_content_size)`: enumeration starts at 1. */
  function FormatSearchResults(hits: seq<Hit>, maxContentSize: int): (r: seq<string>)
    ensures |r| == |hits|
    ensures forall k :: 0 <= k < |hits| ==> r[k] == Block(k + 1, Fill(hits[k], maxContentSize))
  {
    FormatFrom(hits, 1, maxContentSize)
  }

  /** The k-th formatted string is labelled "Result k+1:". */
  lemma FormattedResultsNumbered(hits: seq<Hit>, maxContentSize: int, k: int)
    requires 0 <= k < |hits|
    ensures ResultNumber(FormatSearchResults(hits, maxContentSize)[k]) == Some(k + 1)
  {
    ResultNumberOfBlock(k + 1, Fill(hits[k], maxContentSize));
  }

  /** Distinct positions of the formatted list hold distinct blocks, since
      their labels differ. */
  lemma FormattedResultsDistinct(hits: seq<Hit>, maxContentSize: int, j: int, k: int)
    requires 0 <= j < |hits| && 0 <= k < |hits| && j != k
    ensures FormatSearchResults(hits, maxContentSize)[j] != FormatSearchResults(hits, maxContentSize)[k]
  {
    FormattedResultsNumbered(hits, maxContentSize, j);
    FormattedResultsNumbered(hits, maxContentSize, k);
  }

  /** The configured tool (search_tool.py:120-126). */
  datatype Tool = Tool(
    apiKey: string,
    defaultMaxResults: int,
    defaultDepth: string,
    maxContentSize: int,
    summarize: bool)

  /** `TavilyDomainSearchTool.__init__`: an empty api key raises; summarisation
      stays on only when an OpenAI key is supplied with it (search_tool.py:130-159). */
  function NewTool(apiKey: string, maxResults: int, depth: string, maxContentSize: int,
                   enableSummarization: bool, openaiApiKey: Option<string>): (r: Result<Tool>)
    ensures r.Err? <==> apiKey == ""
    ensures r.Err? ==> r.message == "TAVILY_API_KEY is required"
    ensures r.Ok? ==> r.value.apiKey == apiKey && r.value.defaultMaxResults == maxResults
                      && r.value.defaultDepth == depth && r.value.maxContentSize == maxContentSize
    ensures r.Ok? ==> (r.value.summarize <==>
                        enableSummarization && openaiApiKey.Some? && openaiApiKey.value != "")
  {
    if apiKey == "" then Err("TAVILY_API_KEY is required")
    else
      var hasKey := match openaiApiKey case Some(k) => k != "" case None => false;
      Ok(Tool(apiKey, maxResults, depth, maxContentSize, enableSummarization && hasKey))
  }

  /** The arguments passed to `TavilyClient.search`. */
  datatype Request = Request(query: string, maxResults: int, depth: string, includeDomains: seq<string>)

  /** What Tavily did: returned a response whose `results` key may be absent, or raised. */
  datatype Response = Returned(results: Option<seq<Hit>>) | Raised(error: string)

  /** What the summariser did: produced text, or failed. */
  datatype Summary = Summarized(text: string) | SummaryFailed(error: string)

  /** The request built from the call's optional arguments: Python's `or`
      replaces `None` and `0` (resp. `None` and "") by the tool's defaults
      (search_tool.py:168-169, 177-183). */
  function RequestFor(tool: Tool, query: string, sites: seq<string>,
                      maxResults: Option<int>, depth: Option<string>): (q: Request)
    ensures q.query == query && q.includeDomains == sites
    ensures maxResults.Some? && maxResults.value != 0 ==> q.maxResults == maxResults.value
    ensures maxResults.None? || maxResults.value == 0 ==> q.maxResults == tool.defaultMaxResults
    ensures depth.Some? && depth.value != "" ==> q.depth == depth.value
    ensures depth.None? || depth.value == "" ==> q.depth == tool.defaultDepth
  {
    var finalMax := match maxResults case Some(m) => if m != 0 then m else tool.defaultMaxResults
                                     case None => tool.defaultMaxResults;
    var finalDepth := match depth case Some(d) => if d != "" then d else tool.defaultDepth
                                  case None => tool.defaultDepth;
    Request(query, finalMax, finalDepth, sites)
  }

  const NoResultsMessage: string :=
    "No results found. Try a different search query or check if domains are accessible."
  const SearchErrorPrefix: string := "❌ Search error: "

  /** The formatted text of the first `maxResults` hits, joined by newlines
      (search_tool.py:191-194). */
  function ResultsText(tool: Tool, hits: seq<Hit>, maxResults: int): (text: string)
  {
    Join("\n", FormatSearchResults(PyPrefix(hits, maxResults), tool.maxContentSize))
  }

  /** The summarisation step (search_tool.py:200-216, 223-231): a failing
      summariser falls back to the unsummarised text; so does a summary of
      empty text, whose reduction ratio divides by zero. */
  function Summarize(tool: Tool, text: string, query: string,
                     summarizer: (string, string) -> Summary): (r: string)
    ensures !tool.summarize ==> r == text
    ensures summarizer(text, query).SummaryFailed? ==> r == text
    ensures |text| == 0 ==> r == text
    ensures tool.summarize && 0 < |text| && summarizer(text, query).Summarized? ==>
              r == summarizer(text, query).text
  {
    if !tool.summarize then text
    else match summarizer(text, query)
      case SummaryFailed(_) => text
      case Summarized(s) => if |text| == 0 then text else s
  }

  /** `TavilyDomainSearchTool._search_async`: never raises; every failure of
      the search call becomes a message (search_tool.py:165-221). */
  function Search(tool: Tool, query: string, sites: seq<string>,
                  maxResults: Option<int>, depth: Option<string>,
                  tavily: Request -> Response, summarizer: (string, string) -> Summary): (r: string)
    ensures var q := RequestFor(tool, query, sites, maxResults, depth);
            match tavily(q)
            case Raised(e) => r == SearchErrorPrefix + e
            case Returned(None) => r == NoResultsMessage
            case Returned(Some(hits)) =>
              (|hits| == 0 ==> r == NoResultsMessage)
              && (0 < |hits| ==>
                    r == Summarize(tool, ResultsText(tool, hits, q.maxResults), query, summarizer))
  {
    var q := RequestFor(tool, query, sites, maxResults, depth);
    match tavily(q)
    case Raised(e) => SearchErrorPrefix + e
    case Returned(results) =>
      if results.None? || |results.value| == 0 then NoResultsMessage
      else Summarize(tool, ResultsText(tool, results.value, q.maxResults), query, summarizer)
  }

  /** Without summarisation, a non-empty answer from Tavily is shown as the
      newline-joined blocks of its first `maxResults` hits, numbered from 1. */
  lemma SearchShowsLeadingHits(tool: Tool, query: string, sites: seq<string>,
                               maxResults: Option<int>, depth: Option<string>,
                               tavily: Request -> Response, summarizer: (string, string) -> Summary)
    requires !tool.summarize
    requires var q := RequestFor(tool, query, sites, maxResults, depth);
             tavily(q).Returned? && tavily(q).results.Some? && 0 < |tavily(q).results.value|
    ensures var q := RequestFor(tool, query, sites, maxResults, depth);
            var shown := PyPrefix(tavily(q).results.value, q.maxResults);
            var blocks := FormatSearchResults(shown, tool.maxContentSize);
            Search(tool, query, sites, maxResults, depth, tavily, summarizer) == Join("\n", blocks)
            && |blocks| == |shown|
            && (0 <= q.maxResults ==> |blocks| <= q.maxResults)
  {
  }

  /** Hits beyond the first `maxResults` never influence the answer. */
  lemma SearchIgnoresTrailingHits(tool: Tool, query: string, sites: seq<string>,
                                  maxResults: Option<int>, depth: Option<string>,
                                  t1: Request -> Response, t2: Request -> Response,
                                  summarizer: (string, string) -> Summary)
    requires var q := RequestFor(tool, query, sites, maxResults, depth);
             && t1(q).Returned? && t1(q).results.Some? && 0 < |t1(q).results.value|
             && t2(q).Returned? && t2(q).results.Some? && 0 < |t2(q).results.value|
             && PyPrefix(t1(q).results.value, q.maxResults) == PyPrefix(t2(q).results.value, q.maxResults)
    ensures Search(tool, query, sites, maxResults, depth, t1, summarizer)
         == Search(tool, query, sites, maxResults, depth, t2, summarizer)
  {
  }

  /** A failing summariser leaves the answer exactly as with summarisation off. */
  lemma SummaryFailureFallsBack(tool: Tool, query: string, sites: seq<string>,
                                maxResults: Option<int>, depth: Option<string>,
                                tavily: Request -> Response, summarizer: (string, string) -> Summary)
    requires forall text :: summarizer(text, query).SummaryFailed?
    ensures Search(tool, query, sites, maxResults, depth, tavily, summarizer)
         == Search(tool.(summarize := false), query, sites, maxResults, depth, tavily, summarizer)
  {
  }
}
