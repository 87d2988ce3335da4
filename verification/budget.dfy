/** The content budget shared by the search and scraping tools: text longer
    than a limit is cut to the limit and a marker is appended
    (search_tool.py:38-39 with marker "...", scraping_tool.py:113-116 with
    marker "\n\n... (content truncated)"). The comparison is strict: text of
    exactly the limit's length is kept. */
module Budget {
  import opened Text

  const SearchMarker: string := "..."
  const ScrapeMarker: string := "\n\n... (content truncated)"

  /** `text[:limit] + marker` when `len(text) > limit`, else `text`. */
  function Truncate(text: string, limit: int, marker: string): (r: string)
    ensures |text| <= limit ==> r == text
    ensures 0 <= limit < |text| ==> |r| == limit + |marker|
    ensures 0 <= limit < |text| ==> r[..limit] == text[..limit] && r[limit..] == marker
    ensures limit < 0 && 0 <= |text| + limit ==> r == text[..|text| + limit] + marker
    ensures |text| + limit < 0 ==> r == marker
  {
    if |text| > limit then PyPrefix(text, limit) + marker else text
  }

  /** With a non-negative limit, cutting already cut text changes nothing. */
  lemma TruncateIdempotent(text: string, limit: int, marker: string)
    requires 0 <= limit
    ensures Truncate(Truncate(text, limit, marker), limit, marker) == Truncate(text, limit, marker)
  {
  }

  /** Cut text is never shorter than the limit: the marker is added on top of
      it, so a non-empty marker makes the result overshoot the limit. */
  lemma TruncatedOvershootsLimit(text: string, limit: int, marker: string)
    requires 0 <= limit < |text|
    requires 0 < |marker|
    ensures limit < |Truncate(text, limit, marker)|
    ensures Truncate(text, limit, marker) != text[..limit]
  {
  }
}
