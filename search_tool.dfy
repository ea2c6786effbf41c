/**
 * `internet_search` from the travel planner, as values: the tool events it
 * emits and the text it returns, for each outcome of the external search.
 * The emitting itself, through the logger slot, is the `InternetSearch`
 * method of `TravelPlanner.Planner`.
 */
module SearchTool {
  import opened Options
  import opened Text
  import opened Redaction

  const ToolName := "internet_search"

  datatype Kind = CallKind | ResultKind | ErrorKind | EndKind

  /** A tool event (the source's dictionaries with a "type" and a "tool" entry). */
  datatype Event =
    | Call(tool: string, query: string)          // "args": {"query": query}
    | ToolResult(tool: string, preview: string)
    | ToolError(tool: string, error: string)
    | End(tool: string)
  {
    function Kind(): Kind {
      match this
      case Call(_, _) => CallKind
      case ToolResult(_, _) => ResultKind
      case ToolError(_, _) => ErrorKind
      case End(_) => EndKind
    }
  }

  /** The number of events of kind `k`. */
  function Count(es: seq<Event>, k: Kind): nat
    decreases |es|
  {
    if |es| == 0 then 0 else (if es[0].Kind() == k then 1 else 0) + Count(es[1..], k)
  }

  lemma CountThree(a: Event, b: Event, c: Event, k: Kind)
    ensures Count([a, b, c], k)
         == (if a.Kind() == k then 1 else 0) + (if b.Kind() == k then 1 else 0) + (if c.Kind() == k then 1 else 0)
  {
    assert [a, b, c][1..] == [b, c];
    assert [b, c][1..] == [c];
    assert [c][1..] == [];
    assert Count([c], k) == (if c.Kind() == k then 1 else 0);
    assert Count([b, c], k) == (if b.Kind() == k then 1 else 0) + Count([c], k);
  }

  /** One hit of the search service; either field may be missing. */
  datatype SearchItem = SearchItem(title: Option<string>, content: Option<string>)

  /**
   * What happens when the tool runs: the API key is missing or empty, the
   * client raises an exception with the given description, or the service
   * answers with a list of hits.
   */
  datatype SearchOutcome = MissingKey | Raised(message: string) | Results(items: seq<SearchItem>)

  const SearchErrorPrefix := "Search error: "
  const MissingKeyMessage := "missing TAVILY_API_KEY in environment."
  const NoResultsText := "No results found."
  const MissingField := "N/A"
  /** The formatted output is cut to this many characters before it is redacted into the preview. */
  const PreviewLimit := 400

  function ResultLine(it: SearchItem): string {
    "- " + it.title.GetOr(MissingField) + ": " + it.content.GetOr(MissingField)
  }

  function ResultLines(items: seq<SearchItem>): seq<string> {
    seq(|items|, i requires 0 <= i < |items| => ResultLine(items[i]))
  }

  /** The text returned for a successful search. */
  function FormatResults(items: seq<SearchItem>): (r: string)
    ensures |items| == 0 <==> r == NoResultsText
    ensures |items| > 0 ==> StartsWith(r, "- ")
    ensures |items| == 1 ==> r == ResultLine(items[0])
  {
    if |items| == 0 then NoResultsText
    else
      var r := Join(ResultLines(items), "\n");
      JoinStartsWithFirst(ResultLines(items), "\n");
      assert r[0] == '-' != NoResultsText[0];
      r
  }

  /** The hits appear in the order the service returned them, one line each, separated by newlines. */
  lemma FormatResultsSnoc(items: seq<SearchItem>, it: SearchItem)
    requires |items| > 0
    ensures FormatResults(items + [it]) == FormatResults(items) + "\n" + ResultLine(it)
  {
    assert ResultLines(items + [it]) == ResultLines(items) + [ResultLine(it)];
    JoinSnoc(ResultLines(items), ResultLine(it), "\n");
  }

  /** The preview carried by the `result` event. */
  function Preview(output: string): (r: string)
    ensures |r| <= MaxUntruncated
    ensures !LooksSecret(r)
  {
    if |output| > PreviewLimit then RedactString(output[..PreviewLimit] + "\U{2026}")
    else RedactString(output)
  }

  /** The text `internet_search` returns. */
  function SearchOutput(o: SearchOutcome): (r: string)
    ensures StartsWith(r, SearchErrorPrefix) <==> !o.Results?
  {
    match o
    case MissingKey => SearchErrorPrefix + MissingKeyMessage
    case Raised(e) => SearchErrorPrefix + e
    case Results(items) =>
      var out := FormatResults(items);
      assert out[0] != SearchErrorPrefix[0];
      out
  }

  /** The events `internet_search` emits, in order: `call`, then `error` or `result`, then `end` from the `finally` block. */
  function SearchEvents(query: string, o: SearchOutcome): (es: seq<Event>)
    ensures |es| == 3
    ensures es[0] == Call(ToolName, RedactString(query)) && es[2] == End(ToolName)
    ensures Count(es, CallKind) == 1 && Count(es, EndKind) == 1
    ensures Count(es, ResultKind) == (if o.Results? then 1 else 0)
    ensures Count(es, ErrorKind) == (if o.Results? then 0 else 1)
    ensures forall i :: 0 <= i < |es| ==> es[i].tool == ToolName
  {
    var middle := match o
      case MissingKey => ToolError(ToolName, MissingKeyMessage)
      case Raised(e) => ToolError(ToolName, e)
      case Results(items) => ToolResult(ToolName, Preview(FormatResults(items)));
    var es := [Call(ToolName, RedactString(query)), middle, End(ToolName)];
    CountThree(es[0], middle, es[2], CallKind);
    CountThree(es[0], middle, es[2], ResultKind);
    CountThree(es[0], middle, es[2], ErrorKind);
    CountThree(es[0], middle, es[2], EndKind);
    es
  }

  /** Missing key: exactly `call`, `error`, `end`, no `result`, and the fixed message. */
  lemma MissingKeyProtocol(query: string)
    ensures SearchEvents(query, MissingKey)
         == [Call(ToolName, RedactString(query)), ToolError(ToolName, MissingKeyMessage), End(ToolName)]
    ensures SearchOutput(MissingKey) == SearchErrorPrefix + MissingKeyMessage
  {
  }

  /** A raised exception: its description is reported in an `error` event before `end`, and returned after the prefix. */
  lemma RaisedProtocol(query: string, e: string)
    ensures SearchEvents(query, Raised(e))[1] == ToolError(ToolName, e)
    ensures SearchOutput(Raised(e)) == SearchErrorPrefix + e
    ensures Contains(SearchOutput(Raised(e)), e)
  {
    ContainsSuffix(SearchErrorPrefix, e);
  }

  /** Success: `call`, `result`, `end`; the preview is the redacted, cut output and never longer than 300 characters. */
  lemma ResultsProtocol(query: string, items: seq<SearchItem>)
    ensures SearchEvents(query, Results(items))
         == [Call(ToolName, RedactString(query)), ToolResult(ToolName, Preview(FormatResults(items))), End(ToolName)]
    ensures SearchOutput(Results(items)) == FormatResults(items)
    ensures |Preview(FormatResults(items))| <= 300
  {
  }

  /** An output of at most 300 characters that does not look secret is previewed verbatim. */
  lemma ShortPreviewVerbatim(output: string)
    requires |output| <= MaxUntruncated && !LooksSecret(output)
    ensures Preview(output) == output
  {
  }
}
