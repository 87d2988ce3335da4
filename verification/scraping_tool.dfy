/** The Chromium scraping tool (scraping_tool.py): the default tag list and
    the outcome, truncation and templating logic of `_process_scraping`. The
    page loader and the HTML transformer are parameters; the synchronous and
    asynchronous entry points share this one function. */
module ScrapingTool {
  import opened Wrappers
  import opened Text
  import opened Budget

  /** A loaded or transformed document; only its text is used. */
  datatype Doc = Doc(pageContent: string)

  /** What `AsyncChromiumLoader.load` did. */
  datatype LoadOutcome = Loaded(docs: seq<Doc>) | LoadRaised(error: string)

  /** What `BeautifulSoupTransformer.transform_documents` did. */
  datatype TransformOutcome = Transformed(docs: seq<Doc>) | TransformRaised(error: string)

  /** The configured tool: its content ceiling (scraping_tool.py:68-74). */
  datatype Tool = Tool(maxContentLength: int)

  /** `get_default_tags` (scraping_tool.py:18-20). */
  function DefaultTags(): (tags: seq<string>)
    ensures |tags| == 11
    ensures tags[0] == "p" && tags[1] == "li" && tags[2] == "div" && tags[3] == "a" && tags[4] == "span"
    ensures forall k :: 5 <= k < 11 ==> tags[k] == "h" + [DigitChar(k - 4)]
  {
    ["p", "li", "div", "a", "span", "h1", "h2", "h3", "h4", "h5", "h6"]
  }

  function LoadFailedMessage(url: string): string
  {
    "Failed to load content from " + url
  }

  function NothingExtractedMessage(url: string): string
  {
    "No content extracted from " + url
  }

  function ScrapeErrorMessage(url: string, error: string): string
  {
    "Web scraping error for " + url + ": " + error
  }

  const PageHead: string := "\n**Website Scraped:** "
  const PageMiddle: string := "\n**Content Extracted:**\n\n"
  const PageTail: string := "\n\n**Note:** Complete website content for comprehensive analysis.\n"

  /** The success template (scraping_tool.py:118-125). */
  function Page(url: string, content: string): string
  {
    PageHead + url + PageMiddle + content + PageTail
  }

  /** Reads the content back out of a page, knowing the url it was made for. */
  function PageContent(url: string, page: string): Option<string>
  {
    var before := |PageHead + url + PageMiddle|;
    if before + |PageTail| <= |page| && page[..before] == PageHead + url + PageMiddle
       && page[|page| - |PageTail|..] == PageTail
    then Some(page[before..|page| - |PageTail|])
    else None
  }

  /** The page embeds its url and content so that the content reads back. */
  lemma PageContentRoundTrip(url: string, content: string)
    ensures PageContent(url, Page(url, content)) == Some(content)
  {
  }

  /** `_process_scraping`: never raises; each failure is a message naming the url. */
  function Scrape(tool: Tool, url: string, tagsToExtract: Option<seq<string>>,
                  loader: string -> LoadOutcome,
                  transformer: (seq<Doc>, seq<string>) -> TransformOutcome): (r: string)
    ensures var tags := if tagsToExtract.None? then DefaultTags() else tagsToExtract.value;
            match loader(url)
            case LoadRaised(e) => r == ScrapeErrorMessage(url, e)
            case Loaded(html) =>
              if |html| == 0 then r == LoadFailedMessage(url)
              else match transformer(html, tags)
                case TransformRaised(e) => r == ScrapeErrorMessage(url, e)
                case Transformed(docs) =>
                  (|docs| == 0 ==> r == NothingExtractedMessage(url))
                  && (0 < |docs| ==>
                        PageContent(url, r)
                        == Some(Truncate(docs[0].pageContent, tool.maxContentLength, ScrapeMarker)))
  {
    var tags := match tagsToExtract case None => DefaultTags() case Some(t) => t;
    match loader(url)
    case LoadRaised(e) => ScrapeErrorMessage(url, e)
    case Loaded(html) =>
      if |html| == 0 then LoadFailedMessage(url)
      else match transformer(html, tags)
        case TransformRaised(e) => ScrapeErrorMessage(url, e)
        case Transformed(docs) =>
          if |docs| == 0 then NothingExtractedMessage(url)
          else
            var content := Truncate(docs[0].pageContent, tool.maxContentLength, ScrapeMarker);
            PageContentRoundTrip(url, content);
            Page(url, content)
  }

  /** Leaving out the tag list is the same as asking for the default tags. */
  lemma OmittedTagsAreDefault(tool: Tool, url: string, loader: string -> LoadOutcome,
                              transformer: (seq<Doc>, seq<string>) -> TransformOutcome)
    ensures Scrape(tool, url, None, loader, transformer)
         == Scrape(tool, url, Some(DefaultTags()), loader, transformer)
  {
  }

  /** A scraped page shows the first extracted document whole when it fits the
      ceiling, and otherwise its first `maxContentLength` characters followed
      by the truncation notice. */
  lemma ScrapedContentWithinBudget(tool: Tool, url: string, tagsToExtract: Option<seq<string>>,
                                   loader: string -> LoadOutcome,
                                   transformer: (seq<Doc>, seq<string>) -> TransformOutcome,
                                   c: string)
    requires PageContent(url, Scrape(tool, url, tagsToExtract, loader, transformer)) == Some(c)
    requires loader(url).Loaded? && 0 < |loader(url).docs|
    requires var tags := if tagsToExtract.None? then DefaultTags() else tagsToExtract.value;
             var t := transformer(loader(url).docs, tags);
             t.Transformed? && 0 < |t.docs|
    ensures var tags := if tagsToExtract.None? then DefaultTags() else tagsToExtract.value;
            var text := transformer(loader(url).docs, tags).docs[0].pageContent;
            (|text| <= tool.maxContentLength ==> c == text)
            && (0 <= tool.maxContentLength < |text| ==>
                  c == text[..tool.maxContentLength] + ScrapeMarker)
  {
  }
}
