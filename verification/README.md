# Domain-restricted Q&A agent: verified model of its decision logic

This project models, in Dafny, the decision logic of a small web service that
answers questions from a curated list of documentation sites. The service is
written in Python. It wraps a language-model agent with two tools: a Tavily
domain search tool and a Chromium scraping tool. The model covers the
deterministic parts of that service:

- **Content budget** (`Budget`): the strict `len(text) > limit` truncation
  shared by search results (marker `...`) and scraped pages (marker
  `\n\n... (content truncated)`). Python's slicing is modelled with negative
  bounds (`Text.PyPrefix`), because the limits come from environment variables.
- **Search tool** (`SearchTool`): formatting of results with defaults for
  missing fields and consecutive numbering from 1; the tool's construction and
  its summarisation flag; `or`-defaulting of `max_results` and `depth`; the
  empty-result, slicing, summarisation-fallback and error branches.
- **Scraping tool** (`ScrapingTool`): the default tag list, the load,
  transform and exception outcomes, truncation, and the success template.
- **Sites table and knowledge sources** (`QaAgent`): the required-column
  check, and the order-preserving group-by-domain with its markdown rendering.
  The grouping is a loop method proved against reference definitions: first
  appearance, filter by domain, and a partition count.
- **Conversation memory** (`QaAgent`): the agent is built from the
  configuration. `achat` sends only the last five stored messages, stores a
  Human/AI pair on success, and leaves the history alone on failure.
  `reset_memory` clears the history.
- **Configuration** (`Settings`): `get_int_env`, `validate_api_keys`, and the
  normalisation done by `build_config`.
- **Session map** (`Server`): get-or-create and replace-on-reset in `/chat`,
  and delete in `/reset`. Only the requested session's entry ever changes.

External calls become parameters of the model:

- Tavily's `search` is `tavily: Request -> Response`.
- The summariser is `summarizer`.
- The Chromium loader is `loader`, and BeautifulSoup is `transformer`.
- Building the agent's prompt is `compile`. It takes the knowledge-sources
  markdown and the domain list, and reports whether `_create_agent` raised.
- The agent executor is `invoke`.
- Python's `int()` is `parse`.
- `uuid4()` is `freshId`.
- The CSV read is a `Result<Table>`.

Each Python exception becomes an `Err`, or becomes the message that the
Python code returns in its place.

Facts about the code that the model keeps:

- Sessions never expire. They live until `/reset` deletes them.
- The stored history grows without bound. Only the window sent to the agent
  is bounded.
- Search hits are not checked against an allow-list of hosts. Domain
  restriction is left to Tavily's `include_domains`.
- No deadline bounds a request.
- Truncated text is the limit plus the marker, so it overshoots the limit
  (`Budget.TruncatedOvershootsLimit`).
- Truncation is still idempotent for a non-negative limit
  (`Budget.TruncateIdempotent`).

## Model

| member | source | states |
|---|---|---|
| `Budget.Truncate` | search_tool.py:38-39 | Text at most the limit long is returned unchanged. Longer text becomes its first `limit` characters followed by the marker, so its length is exactly limit + marker length. Negative limits follow Python slicing. |
| `Budget.TruncateIdempotent` | scraping_tool.py:113-116 | With a non-negative limit, truncating text that has already been truncated changes nothing. |
| `Budget.TruncatedOvershootsLimit` | scraping_tool.py:113-116 | Truncated text is longer than the limit, and it is not the bare prefix. |
| `SearchTool.Fill` | search_tool.py:32-39 | A missing title, url or content is shown as "No title", "No URL" or "No content available". Content that fits the budget is shown unchanged, and the default content is budgeted like any other. Longer content becomes its first max_content_size characters followed by "...", which is exactly max+3 characters. |
| `SearchTool.FormatSearchResults` | search_tool.py:28-50 | There is exactly one block per input result, in input order. The block at index k is numbered k+1 and shows that result's filled fields. |
| `SearchTool.ResultNumberOfBlock` | search_tool.py:41-47 | The "Result i:" label of a block reads back as i, so distinct positions carry distinct labels. |
| `SearchTool.FormattedResultsNumbered` | search_tool.py:31-42 | The k-th formatted string carries the label "Result k+1:", so numbering starts at 1 and is consecutive. |
| `SearchTool.FormattedResultsDistinct` | search_tool.py:41-47 | Blocks at distinct positions of the formatted list are distinct strings, because their labels differ. |
| `SearchTool.NewTool` | search_tool.py:130-159 | Construction fails exactly when the Tavily key is empty. Summarisation stays on exactly when it was asked for and a non-empty OpenAI key was given. The other settings are kept as given. |
| `SearchTool.RequestFor` | search_tool.py:168-183 | Tavily is asked with the supplied max_results and depth when they are truthy. Otherwise, for None, 0 or "", it is asked with the tool's defaults. The query and sites are passed through. |
| `SearchTool.Summarize` | search_tool.py:200-231 | When summarisation is off, or the summariser fails, the unsummarised text is returned. For empty text the summary is dropped because the reduction ratio divides by zero. Otherwise the summary is returned. |
| `SearchTool.Search` | search_tool.py:165-221 | A raising search gives "❌ Search error: " followed by the message. Missing or empty results give the fixed "No results found..." text. Otherwise the answer is the summarisation step applied to the formatted leading hits. |
| `SearchTool.SearchShowsLeadingHits` | search_tool.py:187-194 | Without summarisation, a non-empty answer is the newline-joined blocks of the first max_results hits. There are at most max_results blocks. |
| `SearchTool.SearchIgnoresTrailingHits` | search_tool.py:191-193 | Two non-empty Tavily answers that agree on their first max_results hits give the same output. |
| `SearchTool.SummaryFailureFallsBack` | search_tool.py:211-216 | With a summariser that always fails, the output equals the output with summarisation switched off. |
| `ScrapingTool.DefaultTags` | scraping_tool.py:18-20 | The default list holds exactly the 11 tags p, li, div, a, span, h1 … h6, in that order. |
| `ScrapingTool.PageContentRoundTrip` | scraping_tool.py:118-125 | The success page embeds the url and the content so that the content can be read back from the page exactly. |
| `ScrapingTool.Scrape` | scraping_tool.py:76-128 | A load or transform exception gives "Web scraping error for {url}: …". An empty load gives "Failed to load content from {url}". An empty transform gives "No content extracted from {url}". Otherwise the page carries the truncated content of the first document. |
| `ScrapingTool.OmittedTagsAreDefault` | scraping_tool.py:81-82 | Omitting the tags gives the same output as passing the default tag list. |
| `ScrapingTool.ScrapedContentWithinBudget` | scraping_tool.py:111-116 | The content read back from a successful page is the first document whole when it fits. Otherwise it is that document's first max_content_length characters followed by the truncation notice. |
| `Settings.GetIntEnv` | main.py:26-32 | The result is the parsed value when the variable is set and parses. It is the default when the variable is unset or does not parse. |
| `Settings.ValidateApiKeys` | main.py:44-54 | Validation succeeds exactly when both keys are set and non-empty. A missing OpenAI key is reported first, before a missing Tavily key. On success the keys are returned. |
| `Settings.NormalizeDepth` | main.py:61-64 | The depth is always "basic" or "advanced". A valid value is kept, and anything else becomes "basic". |
| `Settings.SummarizationFlagSpellings` | main.py:77-80 | The flag `value.lower() == "true"` holds exactly for the case variants of "true". |
| `Settings.BuildConfig` | main.py:57-87 | Building fails exactly when key validation fails, with the same message. Otherwise the keys are non-empty and the depth is valid. "advanced" is kept only when asked for. Summarisation is on iff the variable reads "true" in any case. Integer settings come from `get_int_env` with defaults 10, 10000, 20000, 3000, 30 and 60. Paths and names fall back to their defaults. |
| `QaAgent.MissingColumns` | qa_agent.py:24-25 | A column is reported exactly when it is required and absent. Reported columns keep the order site, domain, description. |
| `QaAgent.LoadSitesData` | qa_agent.py:21-30 | Loading fails iff some required column is absent, and the message lists the missing ones. Otherwise the table is returned unchanged. |
| `QaAgent.DistinctDomainsSpec` | qa_agent.py:70-74 | The domain list has no duplicates. It holds exactly the domains that occur in the rows, ordered by their first row. |
| `QaAgent.GroupsPartitionRows` | qa_agent.py:75-77 | The group sizes over the distinct domains add up to the number of rows, so every row lands in exactly one group. |
| `QaAgent.GroupByDomain` | qa_agent.py:70-77 | The loop produces the first-appearance domain list. Each domain's group is the domain's rows in row order. |
| `QaAgent.RenderSection` | qa_agent.py:81-84 | A section is a "## {domain}" header followed by one "- {site}: {description}" line per source, in order. |
| `QaAgent.BuildKnowledgeSources` | qa_agent.py:65-86 | Each domain of the rows is listed once, by first appearance. The markdown has one section per listed domain, in that order, and each section lists that domain's rows in row order. |
| `QaAgent.CreateSearchTool` | qa_agent.py:44-57 | The search tool builds iff the Tavily key is non-empty. It carries the configured limits and depth. Summarisation is on iff the switch is on and the OpenAI key is non-empty. |
| `QaAgent.ConfiguredSearchToolBuilds` | qa_agent.py:44-57 | A configuration built from the environment always yields a search tool. The tool's depth is valid and its summarisation follows the switch. |
| `QaAgent.NewAgent` | qa_agent.py:156-190 | A missing configuration raises "Configuration is required". Construction succeeds iff the table loads with its columns, the Tavily key is non-empty, and assembling the prompt from the table's knowledge sources does not raise. An assembly failure is reported with its own message. A new agent has an empty history. |
| `QaAgent.ContextWindow` | qa_agent.py:212-214 | The window is the suffix of the stored history of length min(5, length of the history). |
| `QaAgent.AChat` | qa_agent.py:205-231 | The executor sees only the window. On success exactly Human(input) and then Ai(answer) are appended, and a missing "output" gives "I couldn't process your request.". On failure the answer is "Error: " followed by the message and the history is unchanged. Nothing but the history changes. |
| `QaAgent.ResetMemory` | qa_agent.py:233-235 | The history is empty afterwards, and nothing else changes. |
| `QaAgent.AChatKeepsPairs` | qa_agent.py:222-224 | A history made of whole question/answer exchanges stays so after `achat`. |
| `QaAgent.WindowOpensWithAnswer` | qa_agent.py:212-214 | Once three or more exchanges are stored, the five-message window begins with an AI message whose question is cut off. |
| `Server.SessionId` | main.py:148-149 | The id is the cookie when it is set and non-empty. Otherwise it is the freshly generated id. |
| `Server.Chat` | main.py:143-183 | The existing agent is reused unless the id is absent or a reset is asked for. In those two cases a new agent replaces it, and a construction failure gives HTTP 500 with the map unchanged. After a reply the id is in the map. No other entry is added, changed or removed. |
| `Server.Reset` | main.py:186-194 | The entry is removed iff the cookie is non-empty and present. Otherwise the map is unchanged and "No active session to reset" is returned. No other entry changes. |
| `Server.ChatKeepsHistoriesPaired` | main.py:153-165 | If every stored history is made of whole exchanges before `/chat`, the same holds after it. |
| `Server.ResetKeepsHistoriesPaired` | main.py:189-194 | If every stored history is made of whole exchanges before `/reset`, the same holds after it. |
| `Server.ChatAfterResetStartsFresh` | main.py:153-157 | A chat right after `/reset` of the same session starts from an empty history. |
| `Server.ResetFlagDiscardsHistory` | main.py:153-160 | A chat with `reset_memory` set discards the old history. The session then holds at most the new exchange. |
| `Server.ChatExtendsKeptSession` | main.py:161-165 | On a kept session a chat always replies. The history grows by the new exchange when the agent finishes, and stays the same when the agent fails. |

## Left out

- Tavily, OpenAI/ChatOpenAI, the Chromium loader and the BeautifulSoup transformer are foreign libraries. Their results are parameters that return outcome values.
- `create_llm` is a foreign library call, and the model does not include a construction failure from it.
- The agent executor's tool-calling loop (`max_iterations=10`, `handle_parsing_errors`) is library internals. It is modelled only as an `invoke` parameter that finishes or fails.
- The prompt texts are not modelled: `create_system_prompt`, `create_summary_prompt` and the tool descriptions. The system prompt embeds the table's domains and descriptions, and `_create_agent` parses it again as a chat prompt template. A brace in the table's text can make that parse raise. The model keeps only that outcome, as the `compile` parameter of `QaAgent.NewAgent`. Which texts raise is not modelled. The summariser parameter receives the joined results and the query in place of the prompt.
- asyncio, `to_thread` and the duplicated sync/async entry points are left out. Each operation is one sequential function.
- Floats are left out: `get_float_env`, the LLM temperature, and the logged reduction percentage. Only that percentage's division by zero on empty text is modelled.
- FastAPI routing, cookies as transport, `/health`, `/sessions`, logging and dotenv are left out. So is the `Response` object built at main.py:169-177, which the endpoint does not return.
- uuid generation is left out. The fresh id is an arbitrary string parameter, and it is not assumed to be new.
- Reading the CSV file is left out. The table is a column set plus rows holding the three used columns, and the read outcome is an input.
- Python's `int()` grammar is an abstract partial function `parse`.
- `Text.Lower` folds only the ASCII letters A-Z. No other character lowercases to a letter of "true", so the summarisation switch is unaffected.
- Dictionary values that are present but `None` (for example a result whose `title` is null) are not modelled. A field is either present with a string or absent.
- Concurrent requests on one session are not modelled, because the map is threaded through sequential calls.
