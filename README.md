# openai-cli: the model-call layer, in Dafny

This project models the part of the `openai-cli` command-line tool that
talks to the language model, and proves properties of that model.

- **The completion client** (`Completions`): a `Completions` object holds
  the model, an input-token ceiling per call, the temperature, a
  one-minute rate window and a running usage total.
  - `create` counts the prompt's tokens.
  - It rejects a prompt over the ceiling.
  - It waits for the rate window when the next call would reach a limit.
  - It calls the provider, books the request and its tokens in the window,
    and adds the usage to the total.
- **Token counting** (`Token`): the encoded length of each message, plus 4
  per message and 3 for the reply.
- **The shared CLI helpers** (`Cli`): the help-text builders, the two JSON
  extractors (`extractJson`, `extractJsonV2`) and `sequential`.
- **The commands and actions built on the client:**
  - `web` (`Web`): search query, search engine results, ranking, scraping,
    one distillation per page and a final summary;
  - the directory metadata extraction (`Metadata`);
  - picking a file from an analysis (`PickFile`);
  - the Markdown question (`Markdown`);
  - saving a fenced code block to a file (`CreateFile`);
  - the search engine scraper (`SearchEngine`);
  - the page sanitiser (`Scrape`).

The ECMAScript string built-ins these use are in `Strings`: `trim`,
`includes`, `indexOf`, `lastIndexOf`, `replaceAll`, `join` and ASCII
`toLowerCase`.

Everything the program gets from outside is a parameter:
- the clock (`now`, or `clock(i)` for the i-th call of a run);
- the provider's answer (`Reply`, or `replies(i)`);
- the tokenizer, as `model -> Option<encoder>`;
- file reads, page fetches, HTML rendering, URL parsing, `encodeURIComponent`
  and `JSON.parse`.

The `Completions` class keeps its fields, as the source does.

- Every method is proved against a pure specification function on a
  `ClientState` value: `Create` ensures
  `(r, State()) == CreateSpec(old(State()), ...)`.
- The object carries a ghost log of every remote call: the request sent and
  the reply received.
- The object invariant `ClientInvariant` states three things:
  - the running total is what the logged calls charge;
  - an empty window holds no tokens;
  - the window stays within its limits.
- Each command is a method whose result and final client state are tied to
  a pure function of the inputs (`WebSpec`, `ExtractAll`, `PickSpec`,
  `CreateSpec`).
- Lemmas about those functions state what each run sends:
  - which requests, in which order, with which model;
  - when a run stops;
  - what it reports.

Where the code and its description disagree, the model follows the code:

- `extractJsonV2` is greedy. It takes everything from the first ` ```json`
  line to the last closing fence, not the first fenced block.
- The README and index filter matches anywhere in the path, so
  `docs/myindex.md` is skipped.
- The usage total adds the provider's `total_tokens` on top of the prompt and
  completion counts. For a provider whose total is their sum, this counts
  them twice (`Completions.TotalIsDoubleCounted`).
- A reply with no choice is booked in the window and the total before
  `create` fails on it.
- The rate-limit check resets the window after sleeping and compares with
  `>=`. When the window had already expired, it is restarted first. If even
  the empty window cannot take the call, the check then sleeps a further
  full minute (`Completions.ExpiredWindowRestarts`). Within an open window
  it sleeps only until the window closes, which can be less than a minute.

## Model

| member | source | states |
|---|---|---|
| Strings.IndexOfFrom | src/commands/context/extractMetadataFromDirectoryWithMarkdowns.ts:25 | `indexOf` from a position: the result is an occurrence, with none before it; None means there is no occurrence at or after the position |
| Strings.LastIndexAtOrBefore | src/common/cli.ts:103 | the last occurrence at or before an index, with none after it up to that index; None means no occurrence there |
| Strings.LastIndexOf | src/common/cli.ts:103 | `lastIndexOf`: an occurrence with none after it, or None when there is no occurrence |
| Strings.Contains | src/commands/context/extractMetadataFromDirectoryWithMarkdowns.ts:25 | `includes` holds exactly when the pattern occurs at some index |
| Strings.TrimStart | src/actions/getSearchEngineResults.ts:7 | drops exactly the leading white space: a suffix of the input, everything dropped is white space, and the result does not start with white space |
| Strings.TrimEnd | src/actions/getSearchEngineResults.ts:7 | drops exactly the trailing white space: a prefix, everything dropped is white space, no trailing white space is left |
| Strings.Trim | src/actions/createFile.ts:13 | `trim` removes exactly the leading and trailing white space: the result is the slice of the input after its leading white space, everything outside that slice is white space, and the result has none at either end |
| Strings.TrimBothEnds | src/actions/createFile.ts:13 | trimming the start and then the end leaves a slice of the input with only white space on either side |
| Strings.TrimmedIsTrim | src/actions/createFile.ts:13 | a string without white space at either end is its own trim |
| Strings.ToLower | src/actions/scrapeWebPage.ts:42 | `toLowerCase` keeps the length and maps every character through the ASCII lower-casing |
| Strings.ReplaceAll | src/common/cli.ts:94 | `replaceAll` with a non-empty string pattern: every occurrence, scanning left to right without overlap, is replaced; ReplaceAllSkip and Cli.StripFencesLeavesNoFence state its properties |
| Strings.Join | src/common/cli.ts:81 | `join`: the items with the separator between each two; JoinAppend states how it splits |
| Strings.JoinAppend | src/common/cli.ts:81 | joining two non-empty lists is the two joins with one separator between them |
| Strings.ReplaceAllSkip | src/common/cli.ts:94 | `replaceAll` leaves unchanged a leading part in which no match can start |
| Cli.MapTopic | src/common/cli.ts:72-78 | a topic becomes its title with a colon, one `  - ` line per description line in order, and an empty line |
| Cli.GetDescriptionLines | src/common/cli.ts:68-70 | a list description is its lines, a string description one line; DescriptionOfText states the two cases |
| Cli.TopicsDescription | src/common/cli.ts:80-82 | two spaces, then the topic lines joined with a line break and two spaces; TopicsDescriptionAppend states how it splits |
| Cli.IndentedDescription | src/common/cli.ts:84-86 | the description lines, then the topic lines, joined with a line break and a tab; DescriptionOfText states it without topics |
| Cli.MultilineDescription | src/common/cli.ts:88-90 | the description lines joined with line breaks; DescriptionOfText states both cases |
| Cli.TopicLines | src/common/cli.ts:81 | the flattened topic lines hold at least two lines per topic |
| Cli.TopicLinesAppend | src/common/cli.ts:81 | flattening distributes over concatenation of the topic lists, so order is kept |
| Cli.TopicsDescriptionAppend | src/common/cli.ts:80-82 | the help text of two non-empty topic lists is the first text, a line break, then the second |
| Cli.DescriptionOfText | src/common/cli.ts:84-90 | a single-string description comes back unchanged, and a list of lines is joined with `\n` or `\n\t` |
| Cli.StripFences | src/common/cli.ts:94 | removes every "```json", then every remaining "```"; StripFencesLeavesNoFence and ExtractJsonRoundTrip state its meaning |
| Cli.ExtractJson | src/common/cli.ts:92-100 | succeeds exactly when the parser accepts the reply with every fence marker removed, and then returns that parse; the only failure is InvalidJson |
| Cli.ReplaceFenceHead | src/common/cli.ts:94 | removing the fence markers keeps a first character that is not a backtick |
| Cli.StripFencesLeavesNoFence | src/common/cli.ts:94 | after the two `replaceAll` calls, no three consecutive backticks remain |
| Cli.ExtractedTextHasNoFence | src/common/cli.ts:92-95 | the text `extractJson` hands to the parser never holds a fence |
| Cli.ExtractJsonRoundTrip | src/common/cli.ts:92-100 | a backtick-free body fenced as json is given to the parser exactly, so the result is the body's parse |
| Cli.FencedJson | src/common/cli.ts:103-106 | no capture exactly when no json opening fence is followed by a closing fence; a capture runs from just after the first opening fence to the last closing fence |
| Cli.ExtractJsonV2 | src/common/cli.ts:102-118 | InvalidExtractedJson exactly when there is no fenced block; success exactly when the captured body parses, with the parser's value |
| Cli.FencedJsonRoundTrip | src/common/cli.ts:103-110 | any body, fenced as json, is captured exactly |
| Cli.FencedJsonIsGreedy | src/common/cli.ts:103-106 | with two closing fences the capture runs to the last one, taking in the first closing fence |
| Cli.RunInOrder | src/common/cli.ts:120-136 | running steps in order yields one result per step |
| Cli.RunInOrderAt | src/common/cli.ts:124-133 | the i-th result is what the i-th step gives from the state left by the steps before it |
| Cli.Sequential | src/common/cli.ts:120-136 | the loop's results and final state are those of running the steps in order, and the callback sees every result, in order |
| Token.PerMessage | src/common/token.ts:18-19 | one count per message |
| Token.CountTokensForMessage | src/common/token.ts:10-13 | one message counts its encoded length plus 1 role token and 3 special tokens; CountAppend and CountIsSumOfContributions state its place in the total |
| Token.SumLowerBound | src/common/token.ts:20 | a sum of numbers each at least `lo` is at least `lo` times their number |
| Token.CountTokensForMessages | src/common/token.ts:16-23 | an empty request counts 3; every request counts at least 4 per message plus 3 |
| Token.CountTokens | src/common/token.ts:16-23 | fails exactly when the model has no encoder, with ModelNotSupported; otherwise at least 4 per message plus 3 |
| Token.CountAppend | src/common/token.ts:18-22 | one more message adds its encoded length plus 4 |
| Token.CountConcat | src/common/token.ts:18-22 | the count of two requests joined pays the 3 reply tokens once |
| Token.CountIsSumOfContributions | src/common/token.ts:10-23 | the count is 3 plus, for each message, its encoded length plus 4 |
| Token.CountIgnoresRoles | src/common/token.ts:10-13 | requests with the same contents count the same, whatever the roles |
| Completions.UsageTotalIsSum | src/common/completions.ts:85-94 | the amount added to the total is the sum of the four defaulted usage fields |
| Completions.UsageTotal | src/common/completions.ts:85-94 | the amount added to the running total, read off the usage record; UsageTotalIsSum ties it to the four defaulted fields |
| Completions.DefaultedTokens | src/common/completions.ts:85-90 | each of the four usage fields, 0 when the provider leaves it (or the whole usage record) out |
| Completions.Charge | src/common/completions.ts:92-94 | what one call adds to the running total: its usage sum when the provider replied, nothing when the call failed |
| Completions.Charged | src/common/completions.ts:94 | what a list of calls adds to the running total, call by call; ChargedAppend and SendKeepsTotal state its use |
| Completions.ReplyText | src/common/completions.ts:98 | the first choice's content, "" when it is null (a failed call or a reply without choices, which `create` turns into errors, also reads as "") |
| Completions.Answer | src/common/completions.ts:96-100 | the response for a completion: its model, the first choice's content ("" when null) and the defaulted usage, or MissingChoice when there is no choice |
| Completions.InitialState | src/common/completions.ts:15-28 | the settings given, the 10000 request and 200000 token limits, an empty window closing a minute after `now`, zero usage and no calls |
| Completions.ResetWindow | src/common/completions.ts:103-107 | `resetRateLimit`: no requests, no tokens, and a window closing a minute after now |
| Completions.MustWait | src/common/completions.ts:114-117 | the wait condition: one more request reaches the request limit, or the new tokens reach the token limit (`>=`) |
| Completions.Book | src/common/completions.ts:82-83 | one more request and the counted tokens in the same window |
| Completions.CreateSpec | src/common/completions.ts:56-101 | `create` as a function of the client state: the count and its ModelNotSupported error, the TokenBudgetExceeded check, then SendSpec; CountedCases, CreateLogsAtMostOnce, CreateFailsOnlyForCalls, SuccessBooksOneRequest and CreatePreservesInvariant state its properties |
| Completions.SendSpec | src/common/completions.ts:67-101 | the part of `create` after the check: the rate-limit wait, the remote call, the booking, the usage and the response; SendLogsOnce, FailedCallBooksNothing, RepliedCallIsBooked and SendPreservesInvariant state its properties |
| Completions.AfterWait | src/common/completions.ts:109-125 | the caller never resumes before it started waiting |
| Completions.CountedCases | src/common/completions.ts:59-67 | a count over the ceiling fails with TokenBudgetExceeded and leaves the state unchanged; otherwise the request is sent |
| Completions.SendLogsOnce | src/common/completions.ts:67-83 | a sent request is logged once, with the client's model and temperature; the settings and limits are unchanged |
| Completions.SendUnfolded | src/common/completions.ts:67-100 | sending, case by case: a failed call keeps the waited window; an answered call books the window and adds the usage |
| Completions.FailedCallBooksNothing | src/common/completions.ts:70-83 | a rejected remote call fails with RemoteCallFailed; the total is unchanged and the window is left as the rate-limit check left it |
| Completions.RepliedCallIsBooked | src/common/completions.ts:82-100 | an answered call books one request and its tokens, adds the usage, and succeeds exactly when there is a choice, else fails with MissingChoice |
| Completions.SuccessBooksOneRequest | src/common/completions.ts:56-100 | a successful `create` was within the ceiling and answered; it booked one request of n tokens, added the summed usage and returned the first choice's text |
| Completions.BookAfterWaitBounds | src/common/completions.ts:109-125 | after the rate-limit check and the booking, the window is within its limits; a restarted window holds just this call |
| Completions.WaitKeepsWindowInvariant | src/common/completions.ts:109-125 | the rate-limit check keeps an empty window free of tokens and keeps the limits |
| Completions.WindowBoundsAfterSuccess | src/common/completions.ts:56-125 | after a successful `create`, the window respects the request limit and holds exactly the booked counts |
| Completions.ExpiredWindowRestarts | src/common/completions.ts:110-124 | an expired window restarts with zero counts; it waits a further minute when even an empty window cannot take the call |
| Completions.OpenWindowWaitsOnlyAtLimit | src/common/completions.ts:115-124 | within an open window, a call that reaches a limit sleeps until the window closes and restarts it; any other call goes through at once, unchanged |
| Completions.SleepIsPositive | src/common/completions.ts:115-124 | the caller sleeps exactly when the window must be waited for, and then resumes at the window's reset time |
| Completions.UsageAccumulates | src/common/completions.ts:92-94 | the running total never decreases, and grows exactly by the usage of the call made, if any |
| Completions.TotalIsDoubleCounted | src/common/completions.ts:85-94 | when the provider's total is prompt plus completion, the client adds twice the total plus the reasoning tokens |
| Completions.ChargedAppend | src/common/completions.ts:94 | a logged call adds exactly what it charges |
| Completions.SendKeepsTotal | src/common/completions.ts:67-94 | sending keeps the running total equal to the charges of the logged calls |
| Completions.SendKeepsEmptyWindowEmpty | src/common/completions.ts:82-83 | sending keeps an empty window free of tokens |
| Completions.SendKeepsLimits | src/common/completions.ts:82-83 | sending keeps the window within its limits |
| Completions.SendPreservesInvariant | src/common/completions.ts:67-100 | sending keeps the object invariant |
| Completions.CreateLogsAtMostOnce | src/common/completions.ts:56-101 | `create` logs either nothing or exactly its request with the current model and temperature; success logs it and returns the reply's text; settings are unchanged |
| Completions.CreateFailsOnlyForCalls | src/common/completions.ts:59-98 | `create` fails only for an unknown model, the budget, a failed remote call or a missing choice |
| Completions.CreatePreservesInvariant | src/common/completions.ts:56-101 | `create` keeps the object invariant |
| Completions.Completions.constructor | src/common/completions.ts:22-28 | the new client has the given settings, zero usage, an empty window closing a minute after creation, and no calls |
| Completions.Completions.FromArgs | src/common/completions.ts:30-44 | each setting comes from the arguments when given, else from the command's defaults |
| Completions.Completions.GetUsedTokens | src/common/completions.ts:46-48 | returns the running total, which is what the logged calls charge |
| Completions.Completions.ChangeModel | src/common/completions.ts:52-54 | only the model changes |
| Completions.Completions.ResetRateLimit | src/common/completions.ts:103-107 | only the window changes: zero counts, closing a minute after `now` |
| Completions.Completions.WaitForRateLimit | src/common/completions.ts:109-125 | the new window and the resume time are those of the rate-limit check; nothing else changes |
| Completions.Completions.Create | src/common/completions.ts:56-101 | result and new state are `CreateSpec` of the old state; the invariant is kept; at most one call is logged; success logs it and returns its text |
| Completions.Completions.Send | src/common/completions.ts:67-100 | result and new state are `SendSpec` of the old state |
| Completions.Completions.Record | src/common/completions.ts:82-100 | books the answered call and returns its response, or MissingChoice |
| SearchEngine.RunLength | src/actions/getSearchEngineResults.ts:4 | the longest leading run of `[\w\s]` characters |
| SearchEngine.SearchMatch | src/actions/getSearchEngineResults.ts:4 | the anchored pattern matches exactly when the text starts with the prefix; the match lies within the text |
| SearchEngine.WantsToSearchWeb | src/actions/getSearchEngineResults.ts:6-8 | holds exactly when the trimmed reply starts with "Searching the web for: " |
| SearchEngine.ExtractQuery | src/actions/getSearchEngineResults.ts:4-11 | a reply without the prefix is returned unchanged; the rewrite of every matching reply is stated by ExtractQueryRewrite |
| SearchEngine.SearchUrl | src/actions/getSearchEngineResults.ts:14 | the request goes to the Google search URL |
| SearchEngine.RunLengthOfRun | src/actions/getSearchEngineResults.ts:4 | a run of query characters followed by another character is matched to its end |
| SearchEngine.QuotedQueryExtracted | src/actions/getSearchEngineResults.ts:4-11 | a quoted query after the prefix is extracted without the quotes or prefix; any text after the closing quote stays |
| SearchEngine.UnquotedQueryExtracted | src/actions/getSearchEngineResults.ts:4-11 | an unquoted query of query characters after the prefix is extracted whole |
| SearchEngine.ExtractQueryRewrite | src/actions/getSearchEngineResults.ts:4-11 | every matching reply (prefix, optional opening quote, run, optional closing quote, rest) becomes the run followed by the unchanged rest, whether or not the quotes pair up |
| SearchEngine.OpenQuoteOnly | src/actions/getSearchEngineResults.ts:4-11 | an opening quote without a closing one is dropped and the rest follows the run |
| SearchEngine.CloseQuoteOnly | src/actions/getSearchEngineResults.ts:4-11 | a closing quote without an opening one is dropped too |
| SearchEngine.BareQueryExtracted | src/actions/getSearchEngineResults.ts:4-11 | without quotes, the run ends at the first character outside `[\w\s]` and the rest follows it |
| SearchEngine.TrailingFullStopKept | src/actions/getSearchEngineResults.ts:4-11 | "Searching the web for: best laptops 2024." gives "best laptops 2024.": the full stop is kept |
| SearchEngine.LeadingWhitespaceKeepsWholeReply | src/actions/getSearchEngineResults.ts:6-11 | a reply with leading white space is recognised, since the test trims, but extraction returns it whole, since the replace does not |
| SearchEngine.KeepResults | src/actions/getSearchEngineResults.ts:29-42 | the whole page fails exactly when some present link is rejected by the URL parser; otherwise at most one result per candidate, each with a title, a link and a domain, and exactly the survivors (KeepResultsAreSurvivors) |
| SearchEngine.AsResult | src/actions/getSearchEngineResults.ts:32-38 | a usable candidate becomes its title, its link as URL, the link's hostname as domain, and its description |
| SearchEngine.Parsed | src/actions/getSearchEngineResults.ts:33-34 | a link that is present and non-empty goes to the URL parser; the others are not parsed |
| SearchEngine.Kept | src/actions/getSearchEngineResults.ts:37-39 | a candidate survives when its title, link and hostname are all non-empty |
| SearchEngine.Survivors | src/actions/getSearchEngineResults.ts:30-42 | the reference filter: each candidate with a title, a link and a hostname, as a result, in page order; the others contribute nothing |
| SearchEngine.KeepResultsAreSurvivors | src/actions/getSearchEngineResults.ts:30-42 | unless a link is rejected, the results are exactly the survivors of the reference filter |
| SearchEngine.KeepResultsAppend | src/actions/getSearchEngineResults.ts:29-42 | results keep page order: two stretches of candidates give their results in turn |
| SearchEngine.AllKeptWhenUsable | src/actions/getSearchEngineResults.ts:29-42 | when every candidate is usable, result k is candidate k's title, link, hostname and description |
| SearchEngine.GetSearchEngineResults | src/actions/getSearchEngineResults.ts:10-49 | a failed fetch gives no results; every result has a title, a link and a domain |
| SearchEngine.SearchResultsAreSurvivors | src/actions/getSearchEngineResults.ts:10-49 | a fetched page gives no results when a link is rejected, and otherwise exactly the survivors of the reference filter |
| CreateFile.LineEnd | src/actions/createFile.ts:4 | the first line terminator at or after a position, or the end |
| CreateFile.FenceSplit | src/actions/createFile.ts:4 | a match splits the text into the fence, a non-empty one-line info string, a newline, the body and the closing fence |
| CreateFile.FencedMatches | src/actions/createFile.ts:4 | every text of the fenced shape matches, with that info string and body |
| CreateFile.WantsToCreateFile | src/actions/createFile.ts:6-8 | the trimmed reply matches the fenced-block pattern; WantsToCreateFileShape states it exactly |
| CreateFile.WantsToCreateFileShape | src/actions/createFile.ts:6-8 | holds exactly when the trimmed reply is a single fenced block |
| CreateFile.ExtractContent | src/actions/createFile.ts:31 | a text that does not match is kept as it is |
| CreateFile.ContentIsBody | src/actions/createFile.ts:31 | the content written is exactly the body between the fence lines |
| CreateFile.PathName | src/actions/createFile.ts:30 | the path starts with the directory and ends with a slash and the file name |
| CreateFile.TrailingSlashIrrelevant | src/actions/createFile.ts:30 | a directory with or without a trailing slash gives the same path |
| CreateFile.NoDirectoryIsRoot | src/actions/createFile.ts:30 | no directory and the empty directory both put the file at the root |
| CreateFile.FilenameMessages | src/actions/createFile.ts:16-22 | the filename request: the system tone, the two instructions, the user's query and the trimmed code block |
| CreateFile.FilenameFits | src/actions/createFile.ts:25-28 | a filename of at most 100 characters passes the guard; a longer one is an error |
| CreateFile.CreateFile | src/actions/createFile.ts:10-45 | one call for the file name; failure propagates; a name over 100 characters fails; otherwise the path, the fenced body and whether the write succeeded |
| Scrape.MetaKey | src/actions/scrapeWebPage.ts:30 | `name` wins when present, even when empty; `property` is read only without `name` |
| Scrape.KeepMeta | src/actions/scrapeWebPage.ts:29-44 | a head meta is kept when its key is non-empty and, lowercased, starts with a relevant prefix; EmptyNameIsRemoved, KeyCaseIgnored and MetaExamples state its cases |
| Scrape.EmptyNameIsRemoved | src/actions/scrapeWebPage.ts:30-44 | an empty `name` removes the meta, whatever its `property` |
| Scrape.KeyCaseIgnored | src/actions/scrapeWebPage.ts:42 | two keys that are equal once lowercased get the same verdict, so the prefix test ignores ASCII case |
| Scrape.MetaExamples | src/actions/scrapeWebPage.ts:32-44 | `OG:image` and `titleX` are kept and `viewport` removed |
| Scrape.Selected | src/actions/scrapeWebPage.ts:26-44 | an element is selected by a tag list when its tag is in the list, and by the meta filter when it is a meta whose key is not kept |
| Scrape.Prune | src/actions/scrapeWebPage.ts:26 | a removal never adds top-level nodes |
| Scrape.PruneAppend | src/actions/scrapeWebPage.ts:26 | a removal acts on each part of the document separately |
| Scrape.NoneSelectedAppend | src/actions/scrapeWebPage.ts:26 | two parts without selected elements make a whole without them |
| Scrape.PruneRemovesAll | src/actions/scrapeWebPage.ts:26 | after a removal, no selected element is left at any depth |
| Scrape.PruneClean | src/actions/scrapeWebPage.ts:50 | a removal that finds nothing changes nothing |
| Scrape.PruneTagsCompose | src/actions/scrapeWebPage.ts:50-53 | two tag removals in a row remove the union of their tags |
| Scrape.HeadKeeps | src/actions/scrapeWebPage.ts:47 | a head child stays when it is text (not among `children()`), a meta or a title |
| Scrape.HeadChildren | src/actions/scrapeWebPage.ts:47 | exactly the head children that are `meta`, `title` or text remain: each is from the original head, and every such child of the original head is kept |
| Scrape.HeadChildrenAppend | src/actions/scrapeWebPage.ts:47 | the kept head children stay in document order |
| Scrape.PruneTagsKeepsHeadShape | src/actions/scrapeWebPage.ts:47-53 | later tag removals keep a cleaned head clean |
| Scrape.HeadChildrenAfterMetaFilter | src/actions/scrapeWebPage.ts:29-47 | after the meta filter and the head-children step, the head holds only text, titles and relevant metas |
| Scrape.Sanitize | src/actions/scrapeWebPage.ts:23-55 | the page after the five removal steps, in the source's order; CleanHead, CleanBody and CleanBodyIdempotent state what is left |
| Scrape.CleanHead | src/actions/scrapeWebPage.ts:25-53 | the sanitised head holds only text, titles and relevant metas |
| Scrape.CleanBody | src/actions/scrapeWebPage.ts:25-53 | the sanitised body is the body without the listed elements, at any depth, and none are left |
| Scrape.CleanBodyIdempotent | src/actions/scrapeWebPage.ts:25-53 | sanitising a sanitised body changes nothing |
| Scrape.Dom.constructor | src/actions/scrapeWebPage.ts:23 | the loaded document holds the page's head and body |
| Scrape.Dom.RemoveTags | src/actions/scrapeWebPage.ts:26 | head and body each lose the elements with the given tags |
| Scrape.Dom.RemoveIrrelevantMeta | src/actions/scrapeWebPage.ts:29-45 | the head loses its irrelevant metas; the body is unchanged |
| Scrape.Dom.RemoveOtherHeadChildren | src/actions/scrapeWebPage.ts:47 | the head keeps only metas, titles and text; the body is unchanged |
| Scrape.Scraped | src/actions/scrapeWebPage.ts:19-62 | a page that cannot be fetched gives ""; otherwise the rendering of the page after the five removal steps (Sanitize), which CleanHead and CleanBody describe |
| Scrape.ScrapeWebPage | src/actions/scrapeWebPage.ts:19-61 | the document steps, run in the source's order on the loaded page, give exactly `Scraped`: "" for a failed fetch, otherwise the rendered sanitised page |
| Markdown.EndsSentence | src/commands/file-types/markdown.ts:27 | the last character is ".", "!" or "?"; the empty prompt does not end a sentence |
| Markdown.FormatPrompt | src/commands/file-types/markdown.ts:27 | the formatted prompt ends a sentence, begins with the prompt and is at most one character longer |
| Markdown.FormatPromptCases | src/commands/file-types/markdown.ts:27 | the prompt is kept exactly when it ends with `.`, `!` or `?`; otherwise a full stop is added |
| Markdown.FormatPromptIdempotent | src/commands/file-types/markdown.ts:27 | formatting twice is formatting once |
| Markdown.EmptyPromptIsFullStop | src/commands/file-types/markdown.ts:27 | the empty prompt becomes "." |
| Markdown.MarkdownText | src/commands/file-types/markdown.ts:32 | the user message starts with the formatted prompt and ends with the document in a markdown fence |
| Markdown.MarkdownMessages | src/commands/file-types/markdown.ts:28-34 | the tone, then the user message with the formatted prompt and the document |
| Markdown.FromMarkdown | src/commands/file-types/markdown.ts:26-38 | one `create` with the tone and that message; result and state are `CreateSpec`'s |
| Markdown.Handler | src/commands/file-types/markdown.ts:69-76 | a client from the arguments and defaults; a missing or empty document fails with no call; otherwise one `create` |
| PickFile.Filenames | src/commands/context/pickFileFromAnalysis.ts:48 | one file name per entry, in order |
| PickFile.EntryMessage | src/commands/context/pickFileFromAnalysis.ts:56-59 | a user message "File: <file>. Metadata: <message>" |
| PickFile.EntryMessages | src/commands/context/pickFileFromAnalysis.ts:56-59 | one user message per entry, in order, naming the file and its metadata |
| PickFile.FirstMessages | src/commands/context/pickFileFromAnalysis.ts:50-60 | the tone, the instruction quoting the prompt, then one message per entry |
| PickFile.Instruction | src/commands/context/pickFileFromAnalysis.ts:54 | the instruction quoting the user's prompt |
| PickFile.SecondMessages | src/commands/context/pickFileFromAnalysis.ts:66-70 | the second tone, every file name joined with ", ", and the first reply quoted |
| PickFile.PickSpec | src/commands/context/pickFileFromAnalysis.ts:62-72 | the two calls, the second only after the first succeeded and quoting its text; PickMakesTwoCalls and FirstFailureStops state its properties |
| PickFile.PickMakesTwoCalls | src/commands/context/pickFileFromAnalysis.ts:62-72 | a successful pick made exactly two calls: the first request, then the second quoting the first reply's text |
| PickFile.FirstFailureStops | src/commands/context/pickFileFromAnalysis.ts:62 | a failed first call ends the pick with its error, after at most that one call |
| PickFile.PickFileFromAnalysis | src/commands/context/pickFileFromAnalysis.ts:40-73 | an unreadable or empty analysis fails with ReadFailed, an unparsable one with AnalysisParseFailed, with no call either way; otherwise the two calls of `PickSpec` |
| Metadata.KeptFiles | src/commands/context/extractMetadataFromDirectoryWithMarkdowns.ts:24-26 | every kept file is from the listing and does not contain "README.md" or "index.md" |
| Metadata.KeptFilesAppend | src/commands/context/extractMetadataFromDirectoryWithMarkdowns.ts:24-26 | filtering keeps the listing's order |
| Metadata.KeptFilesComplete | src/commands/context/extractMetadataFromDirectoryWithMarkdowns.ts:24-26 | every file of the listing that is not excluded is kept |
| Metadata.MyIndexIsExcluded | src/commands/context/extractMetadataFromDirectoryWithMarkdowns.ts:25 | a path that merely contains "index.md", such as `docs/myindex.md`, is skipped |
| Metadata.Excluded | src/commands/context/extractMetadataFromDirectoryWithMarkdowns.ts:24-26 | a path is skipped when it contains "README.md" or "index.md" anywhere |
| Metadata.ExtractOne | src/commands/context/extractMetadataFromMarkdown.ts:45-60 | a missing or empty file fails with ReadFailed and no call; otherwise one `create` with the extraction request |
| Metadata.ExtractAll | src/commands/context/extractMetadataFromDirectoryWithMarkdowns.ts:30-40 | the files extracted in order, the first failure ending the run; ExtractAllPairs, FailureEndsRun and ReportedTotalBounded state its properties |
| Metadata.TotalTokens | src/commands/context/extractMetadataFromDirectoryWithMarkdowns.ts:47 | the sum of `tokens.total` over the analyses; ReportedTotalBounded bounds it |
| Metadata.ExtractAllPairs | src/commands/context/extractMetadataFromDirectoryWithMarkdowns.ts:30-40 | a complete run pairs file i with reply i's text, one per file; it logged one call per file, in order, with the client's model and temperature |
| Metadata.FailureEndsRun | src/commands/context/extractMetadataFromDirectoryWithMarkdowns.ts:38-40 | once an extraction fails, the later files change nothing |
| Metadata.ReportedTotalBounded | src/commands/context/extractMetadataFromDirectoryWithMarkdowns.ts:47 | the reported sum of `tokens.total` is at most what the client's running total grew by |
| Metadata.Handler | src/commands/context/extractMetadataFromDirectoryWithMarkdowns.ts:20-48 | the result and the client's final state are those of `ExtractAll` over the kept files, from a client built from the arguments and defaults; success reports the analyses and their token sum |
| Web.DocumentMessages | src/commands/web-search/web.ts:43-46 | one message per document |
| Web.SummaryMessages | src/commands/web-search/web.ts:40-47 | the tone, the user's query, then one user message per document, in order |
| Web.Summarize | src/commands/web-search/web.ts:35-50 | one `create` with the summary request |
| Web.Uniq | src/commands/web-search/web.ts:98 | the same values as the input, without repeats |
| Web.UniqPrefix | src/commands/web-search/web.ts:98 | deduplicating a prefix gives a prefix of the deduplicated whole, so first occurrences set the order |
| Web.UniqOfDistinct | src/commands/web-search/web.ts:98 | a list without repeats is left as it is |
| Web.Pages | src/commands/web-search/web.ts:80-87 | one scraped page per ranked result |
| Web.HtmlRequests | src/commands/web-search/web.ts:89-90 | one distillation request per page |
| Web.Texts | src/commands/web-search/web.ts:92 | one text per response |
| Web.Domains | src/commands/web-search/web.ts:98 | one domain per ranked result |
| Web.Urls | src/commands/web-search/web.ts:99 | one URL per ranked result |
| Web.CreateEachFrame | src/commands/web-search/web.ts:89-92 | the distillation calls keep earlier calls; they add at most one call per request and keep model, temperature and the invariant; they fail only for a call |
| Web.DistillRequests | src/commands/web-search/web.ts:80-90 | request i is the HTML request built from the scraped page of ranked result i |
| Web.Sent | src/commands/web-search/web.ts:89-92 | one exchange per request |
| Web.CreateEachCalls | src/commands/web-search/web.ts:89-92 | when all distillations succeed, the new calls are the requests in order, with the client's model and temperature |
| Web.ReplyTexts | src/commands/web-search/web.ts:92 | one text per reply |
| Web.CreateEachTexts | src/commands/web-search/web.ts:89-92 | when all distillations succeed, the distilled texts are the replies' texts, in order |
| Web.CreateEachStops | src/commands/web-search/web.ts:89-92 | once a distillation fails, the later requests change nothing |
| Web.CreateEach | src/commands/web-search/web.ts:89-92 | the distillation calls one after another, the first failure ending them; CreateEachFrame, CreateEachCalls, CreateEachTexts and CreateEachStops state its properties |
| Web.Results | src/commands/web-search/web.ts:76 | the search engine results for the query reply |
| Web.Ranked | src/commands/web-search/web.ts:77-78 | the rank reply read by `extractJsonV2` |
| Web.Summary | src/commands/web-search/web.ts:94-100 | switch to the summary model, summarise, and answer with the unique domains, the URLs and the running total; SummaryAnswered states it |
| Web.AfterRank | src/commands/web-search/web.ts:80-100 | distil each ranked page in order, then summarise; AfterRankAnswered and AfterRankFailsOnlyForCalls state it |
| Web.AfterSearch | src/commands/web-search/web.ts:76-100 | search, rank, read the ranking, then AfterRank; AfterSearchAnswered, AfterSearchUnfenced and AfterSearchNeverNoSearch state it |
| Web.WebSpec | src/commands/web-search/web.ts:67-107 | the whole run: the query call to the search model, then NoSearch or AfterSearch; NoSearchMakesOneCall, UnfencedRankStops and AnsweredRun state it |
| Web.NoSearchMakesOneCall | src/commands/web-search/web.ts:71-107 | the outcome is NoSearch exactly when the query call succeeded and its reply does not ask for a search; then it is that reply, after one call to the search model |
| Web.AfterSearchNeverNoSearch | src/commands/web-search/web.ts:75-100 | once a search is asked for, a successful run always answers |
| Web.UnfencedRankStops | src/commands/web-search/web.ts:76-78 | InvalidExtractedJson means the rank reply had no json fence; then exactly the query and rank calls were made, and no page was distilled |
| Web.AfterSearchUnfenced | src/commands/web-search/web.ts:76-78 | after the search, InvalidExtractedJson means the rank reply had no json fence and only the rank call was added |
| Web.AfterRankFailsOnlyForCalls | src/commands/web-search/web.ts:80-95 | after ranking, a run fails only for a failed call |
| Web.SummaryAnswered | src/commands/web-search/web.ts:94-100 | the summary goes to the summary model, with the distilled texts; the answer is its reply, with the unique domains, the URLs and the running total |
| Web.AfterRankAnswered | src/commands/web-search/web.ts:80-100 | after ranking, an answering run sends one distillation per ranked page, in ranked order, then the summary |
| Web.AfterSearchAnswered | src/commands/web-search/web.ts:76-100 | after the search, an answering run ranked successfully; it sent the rank call, the distillations and the summary, in that order |
| Web.AnsweredRun | src/commands/web-search/web.ts:67-100 | an answering run: every call but the summary goes to the search model; n ranked results make n+3 calls in order; the sources and URLs are as required; the reported total covers every call |
| Web.ScrapeAll | src/commands/web-search/web.ts:80-87 | the scraped pages, in ranked order |
| Web.DistillAll | src/commands/web-search/web.ts:89-92 | result and state are those of the distillation calls in order |
| Web.Finish | src/commands/web-search/web.ts:80-100 | result and state are those of `AfterRank` |
| Web.SearchAndSummarize | src/commands/web-search/web.ts:76-100 | result and state are those of `AfterSearch` |
| Web.Handler | src/commands/web-search/web.ts:67-108 | the run's outcome and the client's final state are `WebSpec`'s, from a client built from the arguments and defaults |

## Left out

- **The OpenAI SDK call** (`src/common/completions.ts:70-80`) is the `Reply`
  parameter. Its request options other than model, messages and temperature
  are fixed and not modelled.
- **The `responses` and `openai` fields of `Completions`** are not modelled,
  because nothing in the source reads them.
- **Time** is an explicit `now` or `clock(i)`. `setTimeout` and
  `console.log` are left out, and so is the time the `sequential` callback
  measures.
- **tiktoken's encoder** is a parameter, and so is `encoding.free()`.
- **Token counts** are unbounded integers. JavaScript number limits are not
  modelled.
- **Strings** are `seq<char>`. UTF-16 code units, and `toLowerCase` beyond
  ASCII letters, are not modelled.
- **Parameters in place of foreign code:**
  - `JSON.parse` and `JSON.stringify`;
  - `new URL(...).hostname`;
  - `encodeURIComponent`;
  - axios, cheerio's selector engine and puppeteer (pages are modelled as a
    head and a body of element trees).
- **Global regular expressions:** the `lastIndex` state that `test` keeps
  between calls is not modelled. Each call matches from the start.
- **Requests from other files** are parameters. These are the search-query,
  rank, HTML and metadata-extraction requests built in
  `src/commands/web-search/searchQuery.ts`, `src/commands/web-search/rank.ts`,
  `src/commands/file-types/html.ts` and
  `src/commands/context/extractMetadataFromMarkdown.ts`. Today's date in the
  query prompt is part of that parameter.
- **File system:**
  - the Markdown file walk (`src/commands/context/getAllMarkdownFiles.ts`) is
    the `files` parameter;
  - file reads are `Option<string>` parameters;
  - writing the analysis output, and printing each command's output, are
    left out.
- **Command-line parsing** (cmd-ts options and help texts) is not part of
  this model beyond the description builders.
- **Failing promises:** a method returns an `Err` result where the source
  throws or rejects. The `Err` carries the error kind, not its message text.
- Token.PerMessage: the contract states only the length. The value of each
  entry is stated instead by `Token.CountIsSumOfContributions`, because a
  pointwise `ensures` made every proof that uses the count too costly.
- Web.Handler: the model gives `Handler` stage methods (`ScrapeAll`,
  `DistillAll`, `Finish`, `SearchAndSummarize`) that the source writes
  inline. The calls and their order are the same.
