/** The `web` command: ask the model for a search query; when its reply
    asks for a web search, search, have the results ranked, scrape each
    ranked page and have it distilled, then summarise the distilled texts
    with a stronger model and list the sources. The requests of the query,
    rank and distillation steps, the search engine, the page fetches, the
    JSON parse, the clock and the provider's replies are parameters. */
module Web {
  import opened Wrappers
  import opened Cli
  import opened Token
  import opened Completions
  import SearchEngine
  import Scrape

  const TONE := "You are a helpful assistant that combines information from multiple similar texts or articles. Your job is to understand the similarities between the texts and identify the details that might be only found in one of the texts. Therefore, you will use that knowledge to directly address the user's needs. Accuracy is key and long explanations might be useful. Answer with rich and detailed paragraphs."

  const DEFAULTS := Defaults("gpt-4o-mini", 500000, 0.4)

  /** The model of every call but the last one, whatever the arguments say. */
  const SEARCH_MODEL := "gpt-4o-mini"
  /** The model of the summary call. */
  const SUMMARY_MODEL := "gpt-4o"

  // ---------------------------------------------------------------------------
  // summarize

  function DocumentMessages(docs: seq<string>): (ms: seq<Message>)
    ensures |ms| == |docs|
  {
    seq(|docs|, i requires 0 <= i < |docs| => Message(User, docs[i]))
  }

  /** The summary request: the tone, the user's query, then one user message
      per document, in the order given. */
  function SummaryMessages(prompt: string, docs: seq<string>): (ms: seq<Message>)
    ensures |ms| == |docs| + 2
    ensures ms[0] == Message(System, TONE) && ms[1] == Message(User, "User query: " + prompt)
    ensures forall i :: 0 <= i < |docs| ==> ms[2 + i] == Message(User, docs[i])
  {
    [Message(System, TONE), Message(User, "User query: " + prompt)] + DocumentMessages(docs)
  }

  /** `summarize`: one `create` call with the summary request. */
  method Summarize(prompt: string, completions: Completions, docs: seq<string>, now: int, reply: Reply)
    returns (r: Result<Response>)
    requires completions.Valid()
    modifies completions
    ensures completions.Valid()
    ensures (r, completions.State()) ==
      CreateSpec(old(completions.State()), completions.tokenizer, SummaryMessages(prompt, docs), now, reply)
  {
    r := completions.Create(SummaryMessages(prompt, docs), now, reply);
  }

  // ---------------------------------------------------------------------------
  // Sources: `_.uniq`

  /** The distinct values of `xs`, each where it first occurs. */
  function Uniq(xs: seq<string>): (u: seq<string>)
    ensures forall x :: x in u <==> x in xs
    ensures forall i, j :: 0 <= i < j < |u| ==> u[i] != u[j]
    decreases |xs|
  {
    if xs == [] then []
    else
      var n := |xs| - 1;
      var prev := Uniq(xs[..n]);
      assert xs == xs[..n] + [xs[n]];
      if xs[n] in prev then prev else prev + [xs[n]]
  }

  /** Deduplicating a prefix gives a prefix of the deduplicated whole: a
      value keeps the place of its first occurrence. */
  lemma {:induction false} UniqPrefix(xs: seq<string>, k: nat)
    requires k <= |xs|
    ensures Uniq(xs[..k]) <= Uniq(xs)
    decreases |xs|
  {
    if k < |xs| {
      var n := |xs| - 1;
      assert xs[..n][..k] == xs[..k];
      UniqPrefix(xs[..n], k);
    } else {
      assert xs[..k] == xs;
    }
  }

  /** A list without repeats is left as it is. */
  lemma {:induction false} UniqOfDistinct(xs: seq<string>)
    requires forall i, j :: 0 <= i < j < |xs| ==> xs[i] != xs[j]
    ensures Uniq(xs) == xs
    decreases |xs|
  {
    if xs != [] {
      var n := |xs| - 1;
      UniqOfDistinct(xs[..n]);
      assert xs[n] !in xs[..n];
      assert xs == xs[..n] + [xs[n]];
    }
  }

  // ---------------------------------------------------------------------------
  // The run

  /** The command's parameters besides the prompt: the requests built by the
      query, rank and HTML commands (`queryMessages` holds today's date and
      the prompt, `rankMessages` the results as JSON, `htmlMessages` one
      page and the prompt), the search engine (`encode`, `fetchResults`,
      `hostname`), `parse` for the ranked JSON, the page fetch and
      rendering, and the start time and provider's answer of the i-th
      `create` call. */
  datatype Oracles = Oracles(
    queryMessages: seq<Message>,
    rankMessages: seq<SearchEngine.SearchResult> -> seq<Message>,
    htmlMessages: string -> seq<Message>,
    encode: string -> string,
    fetchResults: string -> Option<seq<SearchEngine.Candidate>>,
    hostname: SearchEngine.Hostname,
    parse: string -> Option<seq<SearchEngine.SearchResult>>,
    fetchPage: string -> Option<Scrape.Page>,
    render: Scrape.Page -> string,
    clock: nat -> int,
    replies: nat -> Reply)

  /** What the command prints: the query reply alone when it did not ask for
      a search; otherwise the summary, the sources, the URLs and the tokens
      used. */
  datatype Outcome =
    | NoSearch(answer: string)
    | Answered(answer: string, sources: seq<string>, urls: seq<string>, tokensUsed: nat)

  function Pages(ranked: seq<SearchEngine.SearchResult>, fetch: string -> Option<Scrape.Page>,
                 render: Scrape.Page -> string): (pages: seq<string>)
    ensures |pages| == |ranked|
  {
    seq(|ranked|, i requires 0 <= i < |ranked| => Scrape.Scraped(ranked[i].url, fetch, render))
  }

  function HtmlRequests(pages: seq<string>, htmlMessages: string -> seq<Message>): (requests: seq<seq<Message>>)
    ensures |requests| == |pages|
  {
    seq(|pages|, i requires 0 <= i < |pages| => htmlMessages(pages[i]))
  }

  function Texts(responses: seq<Response>): (texts: seq<string>)
    ensures |texts| == |responses|
  {
    seq(|responses|, i requires 0 <= i < |responses| => responses[i].message)
  }

  function Domains(ranked: seq<SearchEngine.SearchResult>): (domains: seq<string>)
    ensures |domains| == |ranked|
  {
    seq(|ranked|, i requires 0 <= i < |ranked| => ranked[i].domain)
  }

  function Urls(ranked: seq<SearchEngine.SearchResult>): (urls: seq<string>)
    ensures |urls| == |ranked|
  {
    seq(|ranked|, i requires 0 <= i < |ranked| => ranked[i].url)
  }

  /** The `create` calls of `requests`, one after another, the i-th started
      at `clock(first + i)` and answered `replies(first + i)`; the first
      failure ends them with its error. */
  function CreateEach(s: ClientState, tokenizer: Tokenizer, requests: seq<seq<Message>>,
                      clock: nat -> int, replies: nat -> Reply, first: nat)
    : (Result<seq<Response>>, ClientState)
    decreases |requests|
  {
    if requests == [] then (Ok([]), s)
    else
      var i := |requests| - 1;
      var (done, s1) := CreateEach(s, tokenizer, requests[..i], clock, replies, first);
      if done.Err? then (done, s1)
      else
        var (res, s2) := CreateSpec(s1, tokenizer, requests[i], clock(first + i), replies(first + i));
        if res.Err? then (Err(res.error), s2) else (Ok(done.value + [res.value]), s2)
  }

  /** One more request: CreateEach of the first i + 1 requests in terms of
      CreateEach of the first i. */
  lemma CreateEachStep(s: ClientState, tokenizer: Tokenizer, requests: seq<seq<Message>>,
                       clock: nat -> int, replies: nat -> Reply, first: nat, i: nat)
    requires i < |requests|
    ensures var (done, s1) := CreateEach(s, tokenizer, requests[..i], clock, replies, first);
      var (res, s2) := CreateSpec(s1, tokenizer, requests[i], clock(first + i), replies(first + i));
      CreateEach(s, tokenizer, requests[..i + 1], clock, replies, first) ==
        if done.Err? then (done, s1)
        else if res.Err? then (Err(res.error), s2)
        else (Ok(done.value + [res.value]), s2)
  {
    assert requests[..i + 1][..i] == requests[..i];
    assert requests[..i + 1][i] == requests[i];
  }

  /** Whatever happens, earlier exchanges stay, at most one exchange is
      added per request, model and temperature are untouched, the object
      invariant holds, and a failure is a failed call. */
  lemma {:induction false} CreateEachFrame(s: ClientState, tokenizer: Tokenizer, requests: seq<seq<Message>>,
                                           clock: nat -> int, replies: nat -> Reply, first: nat)
    ensures var (r, s') := CreateEach(s, tokenizer, requests, clock, replies, first);
      && s.log <= s'.log && |s'.log| <= |s.log| + |requests|
      && s'.model == s.model && s'.temperature == s.temperature
      && (ClientInvariant(s) ==> ClientInvariant(s'))
      && (r.Err? ==> CallError(r.error))
    decreases |requests|
  {
    if requests != [] {
      var i := |requests| - 1;
      var (done, s1) := CreateEach(s, tokenizer, requests[..i], clock, replies, first);
      CreateEachFrame(s, tokenizer, requests[..i], clock, replies, first);
      if done.Ok? {
        var (res, s2) := CreateSpec(s1, tokenizer, requests[i], clock(first + i), replies(first + i));
        assert CreateEach(s, tokenizer, requests, clock, replies, first).1 == s2;
        CreateLogsAtMostOnce(s1, tokenizer, requests[i], clock(first + i), replies(first + i));
        CreateFailsOnlyForCalls(s1, tokenizer, requests[i], clock(first + i), replies(first + i));
        if ClientInvariant(s) {
          CreatePreservesInvariant(s1, tokenizer, requests[i], clock(first + i), replies(first + i));
        }
      }
    }
  }

  /** The distillation request of each ranked page, in ranked order. */
  function DistillRequests(ranked: seq<SearchEngine.SearchResult>, o: Oracles): (requests: seq<seq<Message>>)
    ensures |requests| == |ranked|
    ensures forall i :: 0 <= i < |ranked| ==>
      requests[i] == o.htmlMessages(Scrape.Scraped(ranked[i].url, o.fetchPage, o.render))
  {
    HtmlRequests(Pages(ranked, o.fetchPage, o.render), o.htmlMessages)
  }

  /** The exchanges of `requests` sent with `model` and `temperature`, the
      i-th answered `replies(first + i)`. */
  function Sent(requests: seq<seq<Message>>, model: string, temperature: real, replies: nat -> Reply, first: nat)
    : (log: seq<Exchange>)
    ensures |log| == |requests|
  {
    seq(|requests|, i requires 0 <= i < |requests| => Exchange(Request(model, requests[i], temperature), replies(first + i)))
  }

  /** Calls in order: when all succeed, the new exchanges are the requests
      in order, sent with the client's model and temperature. */
  lemma {:induction false} CreateEachCalls(s: ClientState, tokenizer: Tokenizer, requests: seq<seq<Message>>,
                                           clock: nat -> int, replies: nat -> Reply, first: nat)
    requires CreateEach(s, tokenizer, requests, clock, replies, first).0.Ok?
    ensures CreateEach(s, tokenizer, requests, clock, replies, first).1.log
         == s.log + Sent(requests, s.model, s.temperature, replies, first)
    decreases |requests|
  {
    if requests == [] {
      assert Sent(requests, s.model, s.temperature, replies, first) == [];
    } else {
      var i := |requests| - 1;
      var (done, s1) := CreateEach(s, tokenizer, requests[..i], clock, replies, first);
      CreateEachCalls(s, tokenizer, requests[..i], clock, replies, first);
      CreateEachFrame(s, tokenizer, requests[..i], clock, replies, first);
      CreateLogsAtMostOnce(s1, tokenizer, requests[i], clock(first + i), replies(first + i));
      assert Sent(requests, s.model, s.temperature, replies, first)
          == Sent(requests[..i], s.model, s.temperature, replies, first)
             + [Exchange(Request(s.model, requests[i], s.temperature), replies(first + i))];
    }
  }

  /** The texts of `n` replies from `replies(first)` on. */
  function ReplyTexts(replies: nat -> Reply, first: nat, n: nat): (texts: seq<string>)
    ensures |texts| == n
  {
    seq(n, i requires 0 <= i < n => ReplyText(replies(first + i)))
  }

  /** When all succeed, the responses' texts are the replies' texts. */
  lemma {:induction false} CreateEachTexts(s: ClientState, tokenizer: Tokenizer, requests: seq<seq<Message>>,
                                           clock: nat -> int, replies: nat -> Reply, first: nat)
    requires CreateEach(s, tokenizer, requests, clock, replies, first).0.Ok?
    ensures Texts(CreateEach(s, tokenizer, requests, clock, replies, first).0.value)
         == ReplyTexts(replies, first, |requests|)
    decreases |requests|
  {
    if requests != [] {
      var i := |requests| - 1;
      var (done, s1) := CreateEach(s, tokenizer, requests[..i], clock, replies, first);
      CreateEachTexts(s, tokenizer, requests[..i], clock, replies, first);
      CreateLogsAtMostOnce(s1, tokenizer, requests[i], clock(first + i), replies(first + i));
      var r := CreateEach(s, tokenizer, requests, clock, replies, first).0;
      assert r.value == done.value + [r.value[i]];
      assert Texts(r.value) == Texts(done.value) + [r.value[i].message];
      assert ReplyTexts(replies, first, i + 1) == ReplyTexts(replies, first, i) + [ReplyText(replies(first + i))];
    }
  }

  /** Once a call has failed, the requests after it change nothing. */
  lemma {:induction false} CreateEachStops(s: ClientState, tokenizer: Tokenizer, requests: seq<seq<Message>>,
                                           clock: nat -> int, replies: nat -> Reply, first: nat, j: nat)
    requires j <= |requests|
    requires CreateEach(s, tokenizer, requests[..j], clock, replies, first).0.Err?
    ensures CreateEach(s, tokenizer, requests, clock, replies, first)
         == CreateEach(s, tokenizer, requests[..j], clock, replies, first)
    decreases |requests|
  {
    if j < |requests| {
      var n := |requests| - 1;
      assert requests[..n][..j] == requests[..j];
      CreateEachStops(s, tokenizer, requests[..n], clock, replies, first, j);
    } else {
      assert requests[..j] == requests;
    }
  }

  /** `getSearchEngineResults` on the query reply. */
  function Results(o: Oracles, query: string): seq<SearchEngine.SearchResult> {
    SearchEngine.GetSearchEngineResults(query, o.encode, o.fetchResults, o.hostname)
  }

  /** The rank reply's results, as `extractJsonV2` reads them. */
  function Ranked(o: Oracles): Result<seq<SearchEngine.SearchResult>> {
    ExtractJsonV2(ReplyText(o.replies(1)), o.parse)
  }

  /** The last step: switch to the summary model and summarise. */
  function Summary(s3: ClientState, tokenizer: Tokenizer, prompt: string, o: Oracles,
                   ranked: seq<SearchEngine.SearchResult>, texts: seq<string>)
    : (Result<Outcome>, ClientState)
  {
    var n := |ranked|;
    var (summary, s4) := CreateSpec(s3.(model := SUMMARY_MODEL), tokenizer, SummaryMessages(prompt, texts),
                                    o.clock(n + 2), o.replies(n + 2));
    if summary.Err? then (Err(summary.error), s4)
    else (Ok(Answered(summary.value.message, Uniq(Domains(ranked)), Urls(ranked), s4.totalTokensUsed)), s4)
  }

  /** After ranking: scrape and distil each ranked page in order, then
      summarise. */
  function AfterRank(s2: ClientState, tokenizer: Tokenizer, prompt: string, o: Oracles,
                     ranked: seq<SearchEngine.SearchResult>)
    : (Result<Outcome>, ClientState)
  {
    var (distilled, s3) := CreateEach(s2, tokenizer, DistillRequests(ranked, o), o.clock, o.replies, 2);
    if distilled.Err? then (Err(distilled.error), s3)
    else Summary(s3, tokenizer, prompt, o, ranked, Texts(distilled.value))
  }

  /** Everything after a query reply that asks for a search: search, rank,
      read the ranked results, then the rest. */
  function AfterSearch(s1: ClientState, tokenizer: Tokenizer, prompt: string, o: Oracles, query: string)
    : (Result<Outcome>, ClientState)
  {
    var (rank, s2) := CreateSpec(s1, tokenizer, o.rankMessages(Results(o, query)), o.clock(1), o.replies(1));
    if rank.Err? then (Err(rank.error), s2)
    else match ExtractJsonV2(rank.value.message, o.parse)
      case Err(e) => (Err(e), s2)
      case Ok(ranked) => AfterRank(s2, tokenizer, prompt, o, ranked)
  }

  /** The whole run from the client `s` the arguments gave. */
  function WebSpec(s: ClientState, tokenizer: Tokenizer, prompt: string, o: Oracles): (Result<Outcome>, ClientState) {
    var (query, s1) := CreateSpec(s.(model := SEARCH_MODEL), tokenizer, o.queryMessages, o.clock(0), o.replies(0));
    if query.Err? then (Err(query.error), s1)
    else if !SearchEngine.WantsToSearchWeb(query.value.message) then (Ok(NoSearch(query.value.message)), s1)
    else AfterSearch(s1, tokenizer, prompt, o, query.value.message)
  }

  /** The search request goes to the search model whatever the client's
      model was; when its reply does not ask for a search, that reply is
      the outcome and no other call is made, and only then is the outcome
      NoSearch. */
  lemma NoSearchMakesOneCall(s: ClientState, tokenizer: Tokenizer, prompt: string, o: Oracles)
    ensures var (r, s') := WebSpec(s, tokenizer, prompt, o);
      && (r.Ok? && r.value.NoSearch? <==>
            CreateSpec(s.(model := SEARCH_MODEL), tokenizer, o.queryMessages, o.clock(0), o.replies(0)).0.Ok?
            && !SearchEngine.WantsToSearchWeb(ReplyText(o.replies(0))))
      && (r.Ok? && r.value.NoSearch? ==>
            && r.value.answer == ReplyText(o.replies(0))
            && s'.log == s.log + [Exchange(Request(SEARCH_MODEL, o.queryMessages, s.temperature), o.replies(0))])
  {
    var s0 := s.(model := SEARCH_MODEL);
    CreateLogsAtMostOnce(s0, tokenizer, o.queryMessages, o.clock(0), o.replies(0));
    var (query, s1) := CreateSpec(s0, tokenizer, o.queryMessages, o.clock(0), o.replies(0));
    if query.Ok? && SearchEngine.WantsToSearchWeb(query.value.message) {
      AfterSearchNeverNoSearch(s1, tokenizer, prompt, o, query.value.message);
    }
  }

  lemma AfterSearchNeverNoSearch(s1: ClientState, tokenizer: Tokenizer, prompt: string, o: Oracles, query: string)
    ensures var r := AfterSearch(s1, tokenizer, prompt, o, query).0;
      r.Ok? ==> r.value.Answered?
  {
  }

  /** After the search, exactly two calls were made (the search request and
      the rank request, both to the search model) and no distillation or summary
      call was made when the rank reply holds no json fence. */
  lemma UnfencedRankStops(s: ClientState, tokenizer: Tokenizer, prompt: string, o: Oracles)
    ensures var (r, s') := WebSpec(s, tokenizer, prompt, o);
      r == Err(InvalidExtractedJson) ==>
        && FencedJson(ReplyText(o.replies(1))).None?
        && s'.log == s.log + [Exchange(Request(SEARCH_MODEL, o.queryMessages, s.temperature), o.replies(0)),
                              Exchange(Request(SEARCH_MODEL, o.rankMessages(Results(o, ReplyText(o.replies(0)))),
                                               s.temperature), o.replies(1))]
  {
    var s0 := s.(model := SEARCH_MODEL);
    var (query, s1) := CreateSpec(s0, tokenizer, o.queryMessages, o.clock(0), o.replies(0));
    if query.Ok? && SearchEngine.WantsToSearchWeb(query.value.message) {
      var message := query.value.message;
      var e0 := Exchange(Request(SEARCH_MODEL, o.queryMessages, s.temperature), o.replies(0));
      var e1 := Exchange(Request(SEARCH_MODEL, o.rankMessages(Results(o, message)), s.temperature), o.replies(1));
      assert s1.log == s.log + [e0] && s1.model == SEARCH_MODEL && s1.temperature == s.temperature
          && message == ReplyText(o.replies(0)) by {
        CreateLogsAtMostOnce(s0, tokenizer, o.queryMessages, o.clock(0), o.replies(0));
      }
      assert WebSpec(s, tokenizer, prompt, o) == AfterSearch(s1, tokenizer, prompt, o, message);
      AfterSearchUnfenced(s1, tokenizer, prompt, o, message);
      AppendTwo(s.log, e0, e1);
    } else if query.Err? {
      assert CallError(query.error) by {
        CreateFailsOnlyForCalls(s0, tokenizer, o.queryMessages, o.clock(0), o.replies(0));
      }
    }
  }

  /** Two single appends are one append of the pair. */
  lemma AppendTwo<T>(xs: seq<T>, x: T, y: T)
    ensures xs + [x] + [y] == xs + [x, y]
  {
  }

  lemma AfterSearchUnfenced(s1: ClientState, tokenizer: Tokenizer, prompt: string, o: Oracles, query: string)
    ensures var (r, s') := AfterSearch(s1, tokenizer, prompt, o, query);
      r == Err(InvalidExtractedJson) ==>
        && FencedJson(ReplyText(o.replies(1))).None?
        && s'.log == s1.log + [Exchange(Request(s1.model, o.rankMessages(Results(o, query)), s1.temperature), o.replies(1))]
  {
    var rankMessages := o.rankMessages(Results(o, query));
    CreateLogsAtMostOnce(s1, tokenizer, rankMessages, o.clock(1), o.replies(1));
    CreateFailsOnlyForCalls(s1, tokenizer, rankMessages, o.clock(1), o.replies(1));
    var (rank, s2) := CreateSpec(s1, tokenizer, rankMessages, o.clock(1), o.replies(1));
    if rank.Ok? && ExtractJsonV2(rank.value.message, o.parse).Ok? {
      AfterRankFailsOnlyForCalls(s2, tokenizer, prompt, o, ExtractJsonV2(rank.value.message, o.parse).value);
    }
  }

  lemma AfterRankFailsOnlyForCalls(s2: ClientState, tokenizer: Tokenizer, prompt: string, o: Oracles,
                                   ranked: seq<SearchEngine.SearchResult>)
    ensures var r := AfterRank(s2, tokenizer, prompt, o, ranked).0;
      r.Err? ==> CallError(r.error)
  {
    CreateEachFrame(s2, tokenizer, DistillRequests(ranked, o), o.clock, o.replies, 2);
    var (distilled, s3) := CreateEach(s2, tokenizer, DistillRequests(ranked, o), o.clock, o.replies, 2);
    if distilled.Ok? {
      CreateFailsOnlyForCalls(s3.(model := SUMMARY_MODEL), tokenizer, SummaryMessages(prompt, Texts(distilled.value)),
                              o.clock(|ranked| + 2), o.replies(|ranked| + 2));
    }
  }

  /** The summary exchange of a run with n ranked results. */
  function SummaryExchange(o: Oracles, prompt: string, n: nat, temperature: real): Exchange {
    Exchange(Request(SUMMARY_MODEL, SummaryMessages(prompt, ReplyTexts(o.replies, 2, n)), temperature), o.replies(n + 2))
  }

  lemma SummaryAnswered(s3: ClientState, tokenizer: Tokenizer, prompt: string, o: Oracles,
                        ranked: seq<SearchEngine.SearchResult>, texts: seq<string>)
    requires Summary(s3, tokenizer, prompt, o, ranked, texts).0.Ok?
    ensures var (r, s') := Summary(s3, tokenizer, prompt, o, ranked, texts);
      var n := |ranked|;
      && r.value == Answered(ReplyText(o.replies(n + 2)), Uniq(Domains(ranked)), Urls(ranked), s'.totalTokensUsed)
      && s'.log == s3.log + [Exchange(Request(SUMMARY_MODEL, SummaryMessages(prompt, texts), s3.temperature), o.replies(n + 2))]
      && (ClientInvariant(s3) ==> ClientInvariant(s'))
  {
    var n := |ranked|;
    var s3m := s3.(model := SUMMARY_MODEL);
    CreateLogsAtMostOnce(s3m, tokenizer, SummaryMessages(prompt, texts), o.clock(n + 2), o.replies(n + 2));
    if ClientInvariant(s3) {
      CreatePreservesInvariant(s3m, tokenizer, SummaryMessages(prompt, texts), o.clock(n + 2), o.replies(n + 2));
    }
  }

  /** After ranking, the run that answers sends one distillation request
      per ranked page, in ranked order, with the client's model, then the
      summary of the distilled texts with the summary model. */
  lemma AfterRankAnswered(s2: ClientState, tokenizer: Tokenizer, prompt: string, o: Oracles,
                          ranked: seq<SearchEngine.SearchResult>)
    requires AfterRank(s2, tokenizer, prompt, o, ranked).0.Ok?
    ensures var (r, s') := AfterRank(s2, tokenizer, prompt, o, ranked);
      var n := |ranked|;
      && r.value == Answered(ReplyText(o.replies(n + 2)), Uniq(Domains(ranked)), Urls(ranked), s'.totalTokensUsed)
      && s'.log == s2.log + Sent(DistillRequests(ranked, o), s2.model, s2.temperature, o.replies, 2)
                          + [SummaryExchange(o, prompt, n, s2.temperature)]
      && (ClientInvariant(s2) ==> ClientInvariant(s'))
  {
    var requests := DistillRequests(ranked, o);
    var (distilled, s3) := CreateEach(s2, tokenizer, requests, o.clock, o.replies, 2);
    var texts := Texts(distilled.value);
    assert texts == ReplyTexts(o.replies, 2, |ranked|) by {
      CreateEachTexts(s2, tokenizer, requests, o.clock, o.replies, 2);
    }
    assert && s3.log == s2.log + Sent(requests, s2.model, s2.temperature, o.replies, 2)
           && s3.temperature == s2.temperature
           && (ClientInvariant(s2) ==> ClientInvariant(s3)) by {
      CreateEachCalls(s2, tokenizer, requests, o.clock, o.replies, 2);
      CreateEachFrame(s2, tokenizer, requests, o.clock, o.replies, 2);
    }
    assert AfterRank(s2, tokenizer, prompt, o, ranked) == Summary(s3, tokenizer, prompt, o, ranked, texts);
    SummaryAnswered(s3, tokenizer, prompt, o, ranked, texts);
  }

  lemma AfterSearchAnswered(s1: ClientState, tokenizer: Tokenizer, prompt: string, o: Oracles, query: string)
    requires AfterSearch(s1, tokenizer, prompt, o, query).0.Ok?
    ensures var (r, s') := AfterSearch(s1, tokenizer, prompt, o, query);
      && Ranked(o).Ok?
      && var ranked := Ranked(o).value;
         var n := |ranked|;
         && r.value == Answered(ReplyText(o.replies(n + 2)), Uniq(Domains(ranked)), Urls(ranked), s'.totalTokensUsed)
         && s'.log == s1.log + [Exchange(Request(s1.model, o.rankMessages(Results(o, query)), s1.temperature), o.replies(1))]
                             + Sent(DistillRequests(ranked, o), s1.model, s1.temperature, o.replies, 2)
                             + [SummaryExchange(o, prompt, n, s1.temperature)]
         && (ClientInvariant(s1) ==> ClientInvariant(s'))
  {
    var rankMessages := o.rankMessages(Results(o, query));
    CreateLogsAtMostOnce(s1, tokenizer, rankMessages, o.clock(1), o.replies(1));
    if ClientInvariant(s1) {
      CreatePreservesInvariant(s1, tokenizer, rankMessages, o.clock(1), o.replies(1));
    }
    var (rank, s2) := CreateSpec(s1, tokenizer, rankMessages, o.clock(1), o.replies(1));
    AfterRankAnswered(s2, tokenizer, prompt, o, Ranked(o).value);
  }

  /** The whole of a run that answers: the search request and every call
      before the summary go to the search model, whatever model the
      arguments chose, and only the summary to the summary model; n ranked
      results make n + 3 calls, the distillations in ranked order; the
      sources are the ranked domains without repeats, the URLs all ranked
      URLs; the reported token count is the client's running total, which
      covers every call. */
  lemma AnsweredRun(s: ClientState, tokenizer: Tokenizer, prompt: string, o: Oracles)
    requires WebSpec(s, tokenizer, prompt, o).0.Ok? && WebSpec(s, tokenizer, prompt, o).0.value.Answered?
    ensures var (r, s') := WebSpec(s, tokenizer, prompt, o);
      var query := ReplyText(o.replies(0));
      && SearchEngine.WantsToSearchWeb(query)
      && Ranked(o).Ok?
      && var ranked := Ranked(o).value;
         var n := |ranked|;
         && r.value.answer == ReplyText(o.replies(n + 2))
         && r.value.sources == Uniq(Domains(ranked))
         && r.value.urls == Urls(ranked)
         && s'.log == s.log + [Exchange(Request(SEARCH_MODEL, o.queryMessages, s.temperature), o.replies(0))]
                            + [Exchange(Request(SEARCH_MODEL, o.rankMessages(Results(o, query)), s.temperature), o.replies(1))]
                            + Sent(DistillRequests(ranked, o), SEARCH_MODEL, s.temperature, o.replies, 2)
                            + [SummaryExchange(o, prompt, n, s.temperature)]
         && |s'.log| == |s.log| + n + 3
         && (ClientInvariant(s) ==> r.value.tokensUsed == Charged(s'.log))
  {
    var s0 := s.(model := SEARCH_MODEL);
    CreateLogsAtMostOnce(s0, tokenizer, o.queryMessages, o.clock(0), o.replies(0));
    if ClientInvariant(s) {
      CreatePreservesInvariant(s0, tokenizer, o.queryMessages, o.clock(0), o.replies(0));
    }
    var (query, s1) := CreateSpec(s0, tokenizer, o.queryMessages, o.clock(0), o.replies(0));
    var text := query.value.message;
    assert WebSpec(s, tokenizer, prompt, o) == AfterSearch(s1, tokenizer, prompt, o, text);
    AfterSearchAnswered(s1, tokenizer, prompt, o, text);
    var (r, s') := WebSpec(s, tokenizer, prompt, o);
    var ranked := Ranked(o).value;
    var sent := Sent(DistillRequests(ranked, o), SEARCH_MODEL, s.temperature, o.replies, 2);
    var queryExchange := Exchange(Request(SEARCH_MODEL, o.queryMessages, s.temperature), o.replies(0));
    var rankExchange := Exchange(Request(SEARCH_MODEL, o.rankMessages(Results(o, text)), s.temperature), o.replies(1));
    var last := [SummaryExchange(o, prompt, |ranked|, s.temperature)];
    assert s'.log == s.log + [queryExchange] + [rankExchange] + sent + last;
  }

  // ---------------------------------------------------------------------------
  // The handler

  /** The scrapes, one page after another, in ranked order. */
  method ScrapeAll(ranked: seq<SearchEngine.SearchResult>, fetch: string -> Option<Scrape.Page>,
                   render: Scrape.Page -> string)
    returns (pages: seq<string>)
    ensures pages == Pages(ranked, fetch, render)
  {
    pages := [];
    for i := 0 to |ranked|
      invariant |pages| == i
      invariant forall k :: 0 <= k < i ==> pages[k] == Scrape.Scraped(ranked[k].url, fetch, render)
    {
      var html := Scrape.ScrapeWebPage(ranked[i].url, fetch, render);
      pages := pages + [html];
    }
  }

  /** The distillations, one `create` after another; the first failure
      ends them. */
  method DistillAll(completions: Completions, requests: seq<seq<Message>>,
                    clock: nat -> int, replies: nat -> Reply, first: nat)
    returns (r: Result<seq<Response>>)
    requires completions.Valid()
    modifies completions
    ensures completions.Valid()
    ensures (r, completions.State()) ==
      CreateEach(old(completions.State()), completions.tokenizer, requests, clock, replies, first)
  {
    ghost var s := completions.State();
    ghost var tokenizer := completions.tokenizer;
    var responses: seq<Response> := [];
    var i := 0;
    while i < |requests|
      invariant 0 <= i <= |requests|
      invariant completions.Valid() && completions.tokenizer == tokenizer
      invariant (Ok(responses), completions.State()) == CreateEach(s, tokenizer, requests[..i], clock, replies, first)
    {
      CreateEachStep(s, tokenizer, requests, clock, replies, first, i);
      var res := completions.Create(requests[i], clock(first + i), replies(first + i));
      if res.Err? {
        CreateEachStops(s, tokenizer, requests, clock, replies, first, i + 1);
        return Err(res.error);
      }
      responses := responses + [res.value];
      i := i + 1;
    }
    assert requests[..i] == requests;
    r := Ok(responses);
  }

  /** After the rank reply was read: scrape and distil each ranked page,
      switch to the summary model, summarise, and report. */
  method Finish(prompt: string, completions: Completions, o: Oracles, ranked: seq<SearchEngine.SearchResult>)
    returns (r: Result<Outcome>)
    requires completions.Valid()
    modifies completions
    ensures completions.Valid()
    ensures (r, completions.State()) == AfterRank(old(completions.State()), completions.tokenizer, prompt, o, ranked)
  {
    ghost var s2 := completions.State();
    var pages := ScrapeAll(ranked, o.fetchPage, o.render);
    var distilled := DistillAll(completions, HtmlRequests(pages, o.htmlMessages), o.clock, o.replies, 2);
    if distilled.Err? {
      return Err(distilled.error);
    }
    ghost var s3 := completions.State();
    assert AfterRank(s2, completions.tokenizer, prompt, o, ranked)
        == Summary(s3, completions.tokenizer, prompt, o, ranked, Texts(distilled.value));
    completions.ChangeModel(SUMMARY_MODEL);
    var summary := Summarize(prompt, completions, Texts(distilled.value), o.clock(|ranked| + 2), o.replies(|ranked| + 2));
    if summary.Err? {
      return Err(summary.error);
    }
    var used := completions.GetUsedTokens();
    r := Ok(Answered(summary.value.message, Uniq(Domains(ranked)), Urls(ranked), used));
  }

  /** After a query reply that asks for a search: search, rank, read the
      ranked results, then the rest. */
  method SearchAndSummarize(prompt: string, completions: Completions, o: Oracles, query: string)
    returns (r: Result<Outcome>)
    requires completions.Valid()
    modifies completions
    ensures completions.Valid()
    ensures (r, completions.State()) == AfterSearch(old(completions.State()), completions.tokenizer, prompt, o, query)
  {
    var results := SearchEngine.GetSearchEngineResults(query, o.encode, o.fetchResults, o.hostname);
    var rank := completions.Create(o.rankMessages(results), o.clock(1), o.replies(1));
    if rank.Err? {
      return Err(rank.error);
    }
    var extracted := ExtractJsonV2(rank.value.message, o.parse);
    if extracted.Err? {
      return Err(extracted.error);
    }
    r := Finish(prompt, completions, o, extracted.value);
  }

  /** The `web` command's run: a client from the arguments and this
      command's defaults created at `start`, then the run `WebSpec`
      describes. */
  method Handler(args: CompletionsArgs, prompt: string, tokenizer: Tokenizer, start: int, o: Oracles)
    returns (r: Result<Outcome>, completions: Completions)
    ensures fresh(completions) && completions.Valid()
    ensures (r, completions.State()) ==
      WebSpec(InitialState(args.maxTokens.GetOr(DEFAULTS.maxTokens), args.model.GetOr(DEFAULTS.model),
                           args.temperature.GetOr(DEFAULTS.temperature), start), tokenizer, prompt, o)
  {
    completions := Completions.FromArgs(args, DEFAULTS, tokenizer, start);
    completions.ChangeModel(SEARCH_MODEL);
    var query := completions.Create(o.queryMessages, o.clock(0), o.replies(0));
    if query.Err? {
      return Err(query.error), completions;
    }
    if !SearchEngine.WantsToSearchWeb(query.value.message) {
      return Ok(NoSearch(query.value.message)), completions;
    }
    r := SearchAndSummarize(prompt, completions, o, query.value.message);
  }
}
