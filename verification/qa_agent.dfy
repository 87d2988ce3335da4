/** The question-answering agent (qa_agent.py): validation of the sites
    table, the grouping of knowledge sources by domain, construction of an
    agent from the configuration, and the conversation memory kept across
    `achat` calls. The agent executor's tool-calling loop is a parameter
    `invoke` that receives the user input and the history window. */
module QaAgent {
  import opened Wrappers
  import opened Text
  import Settings
  import SearchTool
  import ScrapingTool

  // ---------------------------------------------------------------------------
  // The sites table
  // ---------------------------------------------------------------------------

  /** The values of the three columns the agent uses in one table row. */
  datatype SiteRow = SiteRow(site: string, domain: string, description: string)

  /** A table read from the CSV file: its column names and its rows. */
  datatype Table = Table(columns: set<string>, rows: seq<SiteRow>)

  const RequiredColumns: seq<string> := ["site", "domain", "description"]

  /** Position of a required column in `RequiredColumns`. */
  function Rank(column: string): nat
  {
    if column == "site" then 0 else if column == "domain" then 1 else 2
  }

  /** `[col for col in required if col not in columns]`. */
  function Absent(required: seq<string>, columns: set<string>): (missing: seq<string>)
    ensures forall c :: c in missing <==> c in required && c !in columns
  {
    if |required| == 0 then []
    else (if required[0] in columns then [] else [required[0]]) + Absent(required[1..], columns)
  }

  /** The missing required columns, in the order they are required (qa_agent.py:24-25). */
  function MissingColumns(columns: set<string>): (missing: seq<string>)
    ensures forall c :: c in missing <==> c in RequiredColumns && c !in columns
    ensures forall i, j :: 0 <= i < j < |missing| ==> Rank(missing[i]) < Rank(missing[j])
  {
    var missing := Absent(RequiredColumns, columns);
    var tail1, tail2 := RequiredColumns[1..], RequiredColumns[2..];
    assert tail1 == ["domain", "description"] && tail2 == ["description"] && tail2 == tail1[1..];
    assert tail2[1..] == [];
    assert Absent(tail2, columns) == (if "description" in columns then [] else ["description"]);
    assert Absent(tail1, columns) == (if "domain" in columns then [] else ["domain"]) + Absent(tail2, columns);
    assert missing == (if "site" in columns then [] else ["site"])
                      + (if "domain" in columns then [] else ["domain"])
                      + (if "description" in columns then [] else ["description"]);
    missing
  }

  /** `load_sites_data` after the CSV is read (qa_agent.py:21-30): raises
      exactly when a required column is absent, naming the absent ones. */
  function LoadSitesData(table: Table): (r: Result<Table>)
    ensures r.Ok? <==> forall c :: c in RequiredColumns ==> c in table.columns
    ensures r.Ok? ==> r.value == table
    ensures r.Err? ==> r.message == "Missing required columns: " + ListRepr(MissingColumns(table.columns))
  {
    var missing := MissingColumns(table.columns);
    assert |missing| > 0 ==> missing[0] in missing;
    if |missing| > 0 then Err("Missing required columns: " + ListRepr(missing))
    else Ok(table)
  }

  // ---------------------------------------------------------------------------
  // Knowledge sources grouped by domain
  // ---------------------------------------------------------------------------

  /** The `{"site", "description"}` entry stored for a row. */
  datatype Source = Source(site: string, description: string)

  function SourceOf(row: SiteRow): Source
  {
    Source(row.site, row.description)
  }

  /** The distinct domains of `rows`, each where it first appears. */
  function DistinctDomains(rows: seq<SiteRow>): (ds: seq<string>)
    decreases |rows|
  {
    if |rows| == 0 then []
    else
      var ds := DistinctDomains(rows[..|rows| - 1]);
      if rows[|rows| - 1].domain in ds then ds else ds + [rows[|rows| - 1].domain]
  }

  /** The sources of the rows in `domain`, in row order. */
  function Group(rows: seq<SiteRow>, domain: string): (g: seq<Source>)
    ensures |g| <= |rows|
    decreases |rows|
  {
    if |rows| == 0 then []
    else
      var g := Group(rows[..|rows| - 1], domain);
      if rows[|rows| - 1].domain == domain then g + [SourceOf(rows[|rows| - 1])] else g
  }

  /** Index of the first row in `domain`, or `|rows|` when there is none. */
  function FirstIndex(rows: seq<SiteRow>, domain: string): (f: nat)
    ensures f <= |rows|
    ensures f < |rows| ==> rows[f].domain == domain
    ensures forall k :: 0 <= k < f ==> rows[k].domain != domain
    decreases |rows|
  {
    if |rows| == 0 then 0
    else
      var f := FirstIndex(rows[..|rows| - 1], domain);
      if f < |rows| - 1 then f
      else if rows[|rows| - 1].domain == domain then |rows| - 1
      else |rows|
  }

  predicate NoDuplicates(ds: seq<string>)
  {
    forall i, j :: 0 <= i < j < |ds| ==> ds[i] != ds[j]
  }

  /** `ds` lists domains in the order of their first rows. */
  predicate ByFirstAppearance(rows: seq<SiteRow>, ds: seq<string>)
  {
    forall i, j :: 0 <= i < j < |ds| ==> FirstIndex(rows, ds[i]) < FirstIndex(rows, ds[j])
  }

  predicate HasDomain(rows: seq<SiteRow>, domain: string)
  {
    exists k :: 0 <= k < |rows| && rows[k].domain == domain
  }

  /** The distinct domains are exactly the domains of the rows, once each,
      ordered by first appearance. */
  lemma {:induction false} DistinctDomainsSpec(rows: seq<SiteRow>)
    ensures NoDuplicates(DistinctDomains(rows))
    ensures forall d :: d in DistinctDomains(rows) <==> HasDomain(rows, d)
    ensures ByFirstAppearance(rows, DistinctDomains(rows))
    ensures forall d :: d in DistinctDomains(rows) ==> FirstIndex(rows, d) < |rows|
    decreases |rows|
  {
    if |rows| > 0 {
      var init := rows[..|rows| - 1];
      var last := rows[|rows| - 1];
      DistinctDomainsSpec(init);
      var ds := DistinctDomains(init);
      forall d
        ensures HasDomain(rows, d) <==> HasDomain(init, d) || last.domain == d
      {
        if HasDomain(rows, d) {
          var k :| 0 <= k < |rows| && rows[k].domain == d;
          if k < |rows| - 1 {
            assert init[k].domain == d;
          }
        }
        if HasDomain(init, d) {
          var k :| 0 <= k < |init| && init[k].domain == d;
          assert rows[k].domain == d;
        }
      }
      forall d | d in ds
        ensures FirstIndex(rows, d) == FirstIndex(init, d)
      {
      }
      if last.domain !in ds {
        var all := DistinctDomains(rows);
        assert all == ds + [last.domain];
        assert FirstIndex(init, last.domain) == |init|;
        assert FirstIndex(rows, last.domain) == |init|;
        forall i, j | 0 <= i < j < |all|
          ensures FirstIndex(rows, all[i]) < FirstIndex(rows, all[j])
        {
          assert all[i] == ds[i] && all[i] in ds;
          assert FirstIndex(rows, ds[i]) == FirstIndex(init, ds[i]) < |init|;
          if j < |ds| {
            assert all[j] == ds[j] && all[j] in ds;
            assert ByFirstAppearance(init, ds);
            assert FirstIndex(init, ds[i]) < FirstIndex(init, ds[j]);
          } else {
            assert all[j] == last.domain;
          }
        }
      }
    }
  }

  /** A domain that no row has has an empty group. */
  lemma {:induction false} GroupOfAbsentDomain(rows: seq<SiteRow>, domain: string)
    requires !HasDomain(rows, domain)
    ensures Group(rows, domain) == []
    decreases |rows|
  {
    if |rows| > 0 {
      var init := rows[..|rows| - 1];
      assert !HasDomain(init, domain);
      GroupOfAbsentDomain(init, domain);
    }
  }

  /** Total size of the groups of the domains `ds`. */
  function GroupSizes(rows: seq<SiteRow>, ds: seq<string>): nat
  {
    if |ds| == 0 then 0 else |Group(rows, ds[0])| + GroupSizes(rows, ds[1..])
  }

  /** Number of times `d` occurs in `ds`. */
  function Occurrences(ds: seq<string>, d: string): nat
  {
    if |ds| == 0 then 0 else (if ds[0] == d then 1 else 0) + Occurrences(ds[1..], d)
  }

  lemma {:induction false} OccurrencesOfDistinct(ds: seq<string>, d: string)
    requires NoDuplicates(ds)
    ensures Occurrences(ds, d) == if d in ds then 1 else 0
    decreases |ds|
  {
    if |ds| > 0 {
      OccurrencesOfDistinct(ds[1..], d);
      if ds[0] == d {
        assert d !in ds[1..];
      }
    }
  }

  /** One more row adds one source to the group of its own domain only. */
  lemma {:induction false} GroupSizesExtend(rows: seq<SiteRow>, row: SiteRow, ds: seq<string>)
    ensures GroupSizes(rows + [row], ds) == GroupSizes(rows, ds) + Occurrences(ds, row.domain)
    decreases |ds|
  {
    assert (rows + [row])[..|rows|] == rows;
    if |ds| > 0 {
      GroupSizesExtend(rows, row, ds[1..]);
    }
  }

  lemma GroupSizesAppend(rows: seq<SiteRow>, ds: seq<string>, d: string)
    ensures GroupSizes(rows, ds + [d]) == GroupSizes(rows, ds) + |Group(rows, d)|
    decreases |ds|
  {
    if |ds| > 0 {
      assert (ds + [d])[1..] == ds[1..] + [d];
      GroupSizesAppend(rows, ds[1..], d);
    } else {
      assert (ds + [d])[1..] == [];
    }
  }

  /** The groups partition the rows: every row lands in exactly one group,
      so the group sizes over the distinct domains add up to the row count. */
  lemma {:induction false} GroupsPartitionRows(rows: seq<SiteRow>)
    ensures GroupSizes(rows, DistinctDomains(rows)) == |rows|
    decreases |rows|
  {
    if |rows| > 0 {
      var init := rows[..|rows| - 1];
      var last := rows[|rows| - 1];
      assert rows == init + [last];
      var ds := DistinctDomains(init);
      GroupsPartitionRows(init);
      DistinctDomainsSpec(init);
      GroupSizesExtend(init, last, ds);
      OccurrencesOfDistinct(ds, last.domain);
      if last.domain !in ds {
        GroupSizesAppend(rows, ds, last.domain);
        GroupOfAbsentDomain(init, last.domain);
        assert Group(rows, last.domain) == [SourceOf(last)];
        assert GroupSizes(rows, ds) == |init| by {
          GroupSizesExtend(init, last, ds);
        }
      }
    }
  }

  /** The line rendered for one source (qa_agent.py:83). */
  function SourceLine(s: Source): string
  {
    "- " + s.site + ": " + s.description + "\n"
  }

  function SourceLines(sources: seq<Source>): string
    decreases |sources|
  {
    if |sources| == 0 then ""
    else SourceLines(sources[..|sources| - 1]) + SourceLine(sources[|sources| - 1])
  }

  function SectionHeader(domain: string): string
  {
    "\n## " + domain + "\n\n"
  }

  /** The markdown section of one domain (qa_agent.py:81-84). */
  function Section(domain: string, sources: seq<Source>): string
  {
    SectionHeader(domain) + SourceLines(sources) + "\n"
  }

  /** The sections of the domains `ds`, in that order, each listing its group. */
  function Render(ds: seq<string>, rows: seq<SiteRow>): string
    decreases |ds|
  {
    if |ds| == 0 then ""
    else Render(ds[..|ds| - 1], rows) + Section(ds[|ds| - 1], Group(rows, ds[|ds| - 1]))
  }

  /** The grouping loop of `build_knowledge_sources_text` (qa_agent.py:70-77):
      a domain is listed when first met, and each row is appended to its
      domain's group. */
  method GroupByDomain(rows: seq<SiteRow>) returns (domains: seq<string>, groups: map<string, seq<Source>>)
    ensures domains == DistinctDomains(rows)
    ensures forall d :: d in groups <==> d in domains
    ensures forall d :: d in groups ==> groups[d] == Group(rows, d)
  {
    groups := map[];
    domains := [];
    var i := 0;
    while i < |rows|
      invariant 0 <= i <= |rows|
      invariant domains == DistinctDomains(rows[..i])
      invariant forall d :: d in groups <==> d in domains
      invariant forall d :: d in groups ==> groups[d] == Group(rows[..i], d)
    {
      var row := rows[i];
      ghost var seen, next := rows[..i], rows[..i + 1];
      assert next[..i] == seen && next[i] == row;
      assert DistinctDomains(next) == if row.domain in domains then domains else domains + [row.domain];
      assert forall d :: Group(next, d) == if row.domain == d then Group(seen, d) + [SourceOf(row)] else Group(seen, d);
      if row.domain !in groups {
        DistinctDomainsSpec(seen);
        GroupOfAbsentDomain(seen, row.domain);
        domains := domains + [row.domain];
        groups := groups[row.domain := []];
      }
      groups := groups[row.domain := groups[row.domain] + [SourceOf(row)]];
      i := i + 1;
    }
    assert rows[..|rows|] == rows;
  }

  /** The rendering of one group (qa_agent.py:81-84). */
  method RenderSection(domain: string, sources: seq<Source>) returns (text: string)
    ensures text == Section(domain, sources)
  {
    text := SectionHeader(domain);
    var j := 0;
    while j < |sources|
      invariant 0 <= j <= |sources|
      invariant text == SectionHeader(domain) + SourceLines(sources[..j])
    {
      assert sources[..j + 1][..j] == sources[..j];
      text := text + SourceLine(sources[j]);
      j := j + 1;
    }
    assert sources[..|sources|] == sources;
    text := text + "\n";
  }

  /** `build_knowledge_sources_text` (qa_agent.py:65-86). The domain list holds
      each domain of the rows once, by first appearance; the markdown has one
      section per domain in that order, listing the domain's rows in row order. */
  method BuildKnowledgeSources(rows: seq<SiteRow>) returns (markdown: string, domains: seq<string>)
    ensures NoDuplicates(domains)
    ensures forall d :: d in domains <==> HasDomain(rows, d)
    ensures ByFirstAppearance(rows, domains)
    ensures markdown == Render(domains, rows)
  {
    var groups;
    domains, groups := GroupByDomain(rows);
    DistinctDomainsSpec(rows);
    markdown := "";
    var k := 0;
    while k < |domains|
      invariant 0 <= k <= |domains|
      invariant markdown == Render(domains[..k], rows)
    {
      var section := RenderSection(domains[k], groups[domains[k]]);
      markdown := markdown + section;
      assert domains[..k + 1][..k] == domains[..k];
      k := k + 1;
    }
    assert domains[..|domains|] == domains;
  }

  // ---------------------------------------------------------------------------
  // The agent and its conversation memory
  // ---------------------------------------------------------------------------

  /** A stored chat message. */
  datatype Message = Human(content: string) | Ai(content: string)

  /** A `DomainQAAgent`: its conversation history, its sites table and its two
      tools. The language model and the executor are not state of the model. */
  datatype Agent = Agent(
    history: seq<Message>,
    sites: Table,
    searchTool: SearchTool.Tool,
    scrapingTool: ScrapingTool.Tool)

  /** `create_search_tool` (qa_agent.py:44-57): the OpenAI key is handed over
      only when summarisation is switched on. */
  function CreateSearchTool(config: Settings.Config): (r: Result<SearchTool.Tool>)
    ensures r.Ok? <==> config.tavilyApiKey != ""
    ensures r.Ok? ==> r.value.defaultMaxResults == config.maxResults
                      && r.value.defaultDepth == config.searchDepth
                      && r.value.maxContentSize == config.maxContentSize
    ensures r.Ok? ==> (r.value.summarize <==>
                        config.enableSearchSummarization && config.openaiApiKey != "")
  {
    SearchTool.NewTool(config.tavilyApiKey, config.maxResults, config.searchDepth,
                       config.maxContentSize, config.enableSearchSummarization,
                       if config.enableSearchSummarization then Some(config.openaiApiKey) else None)
  }

  /** A configuration built from the environment always yields a search tool,
      whose depth is valid and whose summarisation follows the switch. */
  lemma ConfiguredSearchToolBuilds(env: Settings.Env, parse: string -> Option<int>)
    requires Settings.BuildConfig(env, parse).Ok?
    ensures var config := Settings.BuildConfig(env, parse).value;
            var tool := CreateSearchTool(config);
            tool.Ok? && Settings.ValidDepth(tool.value.defaultDepth)
            && (tool.value.summarize <==> config.enableSearchSummarization)
  {
  }

  const ConfigRequired: string := "Configuration is required"

  /** `_create_agent` (qa_agent.py:176-199) after the knowledge sources are
      built: the system prompt made from the markdown and the domain list is
      parsed again as a chat prompt template and handed to the structured chat
      agent. Either may raise, for instance on an unbalanced brace in the
      table's text; the outcome is `Some(message)` when it does. */
  type PromptCompiler = (string, seq<string>) -> Option<string>

  /** What `_create_agent` reports for the sites table `sites`. */
  function AssemblyError(compile: PromptCompiler, sites: Table): Option<string>
  {
    var domains := DistinctDomains(sites.rows);
    compile(Render(domains, sites.rows), domains)
  }

  /** `DomainQAAgent.__init__` (qa_agent.py:156-173), given the outcome of
      reading the CSV file: a missing configuration raises first, then an
      unreadable or invalid table, then a search tool without an api key, and
      last the assembly of the prompt from the table's knowledge sources. */
  function NewAgent(config: Option<Settings.Config>, csv: Result<Table>, compile: PromptCompiler): (r: Result<Agent>)
    ensures config.None? ==> r == Err(ConfigRequired)
    ensures r.Ok? <==> config.Some? && csv.Ok? && LoadSitesData(csv.value).Ok?
                       && config.value.tavilyApiKey != ""
                       && AssemblyError(compile, csv.value).None?
    ensures config.Some? && csv.Ok? && LoadSitesData(csv.value).Ok? && config.value.tavilyApiKey != ""
              && AssemblyError(compile, csv.value).Some?
            ==> r == Err(AssemblyError(compile, csv.value).value)
    ensures r.Ok? ==> r.value.history == [] && r.value.sites == csv.value
                      && r.value.scrapingTool.maxContentLength == config.value.maxScrapeLength
                      && r.value.searchTool == CreateSearchTool(config.value).value
  {
    match config
    case None => Err(ConfigRequired)
    case Some(cfg) =>
      match csv
      case Err(e) => Err(e)
      case Ok(table) =>
        match LoadSitesData(table)
        case Err(e) => Err(e)
        case Ok(sites) =>
          match CreateSearchTool(cfg)
          case Err(e) => Err(e)
          case Ok(search) =>
            match AssemblyError(compile, sites)
            case Some(e) => Err(e)
            case None => Ok(Agent([], sites, search, ScrapingTool.Tool(cfg.maxScrapeLength)))
  }

  const WindowSize: int := 5

  /** `chat_history[-5:] if chat_history else []` (qa_agent.py:210-213): the
      last five messages, or all of them when there are fewer. */
  function ContextWindow(history: seq<Message>): (w: seq<Message>)
    ensures |w| == if |history| < WindowSize then |history| else WindowSize
    ensures w == history[|history| - |w|..]
  {
    if |history| > 0 then PyDrop(history, -WindowSize) else []
  }

  /** What the agent executor did with one input. */
  datatype Invocation = Finished(output: Option<string>) | Failed(error: string)

  /** The answer to one input and the agent afterwards. */
  datatype ChatTurn = ChatTurn(answer: string, agent: Agent)

  const FallbackAnswer: string := "I couldn't process your request."

  /** `DomainQAAgent.achat` (qa_agent.py:205-231): the executor sees only the
      history window; a finished run appends the question and the answer,
      a failing run leaves the history as it was and reports the error. */
  function AChat(agent: Agent, input: string, invoke: (string, seq<Message>) -> Invocation): (t: ChatTurn)
    ensures t.agent.sites == agent.sites && t.agent.searchTool == agent.searchTool
            && t.agent.scrapingTool == agent.scrapingTool
    ensures invoke(input, ContextWindow(agent.history)).Failed? ==>
              t.answer == "Error: " + invoke(input, ContextWindow(agent.history)).error
              && t.agent.history == agent.history
    ensures invoke(input, ContextWindow(agent.history)).Finished? ==>
              t.agent.history == agent.history + [Human(input), Ai(t.answer)]
    ensures invoke(input, ContextWindow(agent.history)) == Finished(None) ==> t.answer == FallbackAnswer
    ensures invoke(input, ContextWindow(agent.history)).Finished?
            && invoke(input, ContextWindow(agent.history)).output.Some? ==>
              t.answer == invoke(input, ContextWindow(agent.history)).output.value
  {
    match invoke(input, ContextWindow(agent.history))
    case Failed(e) => ChatTurn("Error: " + e, agent)
    case Finished(out) =>
      var answer := match out case Some(a) => a case None => FallbackAnswer;
      ChatTurn(answer, agent.(history := agent.history + [Human(input), Ai(answer)]))
  }

  /** `DomainQAAgent.reset_memory` (qa_agent.py:233-235). */
  function ResetMemory(agent: Agent): (a: Agent)
    ensures a.history == []
    ensures a == agent.(history := [])
  {
    agent.(history := [])
  }

  /** A history of whole exchanges: questions at even positions, answers at odd ones. */
  predicate WellPaired(history: seq<Message>)
  {
    && |history| % 2 == 0
    && forall k :: 0 <= k < |history| ==> (history[k].Human? <==> k % 2 == 0)
  }

  /** `achat` keeps the history made of whole exchanges. */
  lemma AChatKeepsPairs(agent: Agent, input: string, invoke: (string, seq<Message>) -> Invocation)
    requires WellPaired(agent.history)
    ensures WellPaired(AChat(agent, input, invoke).agent.history)
  {
  }

  /** Once three exchanges are stored, the five-message window opens with an
      answer whose question is cut off. */
  lemma WindowOpensWithAnswer(history: seq<Message>)
    requires WellPaired(history) && 6 <= |history|
    ensures ContextWindow(history)[0].Ai?
    ensures ContextWindow(history)[0] == history[|history| - 5]
  {
  }
}
