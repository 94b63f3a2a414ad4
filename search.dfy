/** Recognising a model reply that asks for a web search, turning it into a
    query and a search URL, and keeping the usable search results. The
    regular expression is

      ^Searching the web for: ["']{0,1}([\w\s]*)["']{0,1}

    written out below as a function that finds the match. The HTTP fetch,
    the HTML query and URL parsing are parameters. */
module SearchEngine {
  import opened Wrappers
  import opened Strings

  const PREFIX := "Searching the web for: "
  const SEARCH_URL := "https://www.google.com/search?q="

  predicate IsQuote(c: char) {
    c == '"' || c == '\''
  }

  /** A character of the captured group `[\w\s]`. */
  predicate IsQueryChar(c: char) {
    IsWordChar(c) || IsWhitespace(c)
  }

  /** Length of the longest run of query characters at the start of `s`. */
  function RunLength(s: string): (n: nat)
    ensures n <= |s|
    ensures forall i :: 0 <= i < n ==> IsQueryChar(s[i])
    ensures n == |s| || !IsQueryChar(s[n])
  {
    if s != [] && IsQueryChar(s[0]) then 1 + RunLength(s[1..]) else 0
  }

  /** A match of the pattern at the start of a string: the captured run and
      the index just past the match. */
  datatype Match = Match(captured: string, end: nat)

  /** The match of the anchored pattern. Each optional quote is taken when it
      is there (the rest of the pattern can always match empty, so the regex
      never backtracks out of it), and the run is maximal. */
  function SearchMatch(s: string): (r: Option<Match>)
    ensures r.Some? <==> StartsWith(s, PREFIX)
    ensures r.Some? ==> |PREFIX| + |r.value.captured| <= r.value.end <= |s|
  {
    if !StartsWith(s, PREFIX) then None
    else
      var a := |PREFIX| + (if |s| > |PREFIX| && IsQuote(s[|PREFIX|]) then 1 else 0);
      var b := a + RunLength(s[a..]);
      var e := b + (if b < |s| && IsQuote(s[b]) then 1 else 0);
      Some(Match(s[a..b], e))
  }

  /** `wantsToSearchWeb`: the trimmed reply begins with the prefix; nothing
      after it is constrained, since everything else in the pattern is
      optional. */
  predicate WantsToSearchWeb(message: string)
    ensures WantsToSearchWeb(message) <==> StartsWith(Trim(message), PREFIX)
  {
    SearchMatch(Trim(message)).Some?
  }

  /** `query.replace(regex, "$1")`: the matched text is replaced by the
      captured run and the rest is kept; a query that does not match is
      returned as it is. */
  function ExtractQuery(query: string): (q: string)
    ensures !StartsWith(query, PREFIX) ==> q == query
  {
    match SearchMatch(query)
    case None => query
    case Some(m) => m.captured + query[m.end..]
  }

  /** The search request URL; `encode` is `encodeURIComponent`. */
  function SearchUrl(query: string, encode: string -> string): (url: string)
    ensures StartsWith(url, SEARCH_URL)
  {
    SEARCH_URL + encode(Trim(ExtractQuery(query)))
  }

  predicate AllQueryChars(q: string) {
    forall i :: 0 <= i < |q| ==> IsQueryChar(q[i])
  }

  lemma RunLengthOfRun(q: string, rest: string)
    requires AllQueryChars(q)
    requires rest == [] || !IsQueryChar(rest[0])
    ensures RunLength(q + rest) == |q|
    decreases |q|
  {
    if q != [] {
      assert (q + rest)[1..] == q[1..] + rest;
      RunLengthOfRun(q[1..], rest);
    } else {
      assert q + rest == rest;
    }
  }

  /** A reply in the form the search-query prompt asks for — the prefix, a
      quoted run of word and space characters, and anything that does not
      continue the run — becomes the run followed by that remainder. */
  lemma QuotedQueryExtracted(q: string, open: char, close: char, rest: string)
    requires AllQueryChars(q) && IsQuote(open) && IsQuote(close)
    ensures ExtractQuery(PREFIX + [open] + q + [close] + rest) == q + rest
  {
    var s := PREFIX + [open] + q + [close] + rest;
    var a := |PREFIX| + 1;
    assert s[..|PREFIX|] == PREFIX;
    assert s[|PREFIX|] == open;
    assert s[a..] == q + ([close] + rest);
    RunLengthOfRun(q, [close] + rest);
    assert s[a..a + |q|] == q;
    assert s[a + |q|] == close;
    assert s[a + |q| + 1..] == rest;
  }

  /** Without quotes the whole run is the query. */
  lemma UnquotedQueryExtracted(q: string)
    requires AllQueryChars(q)
    requires q == [] || !IsQuote(q[0])
    ensures ExtractQuery(PREFIX + q) == q
  {
    var s := PREFIX + q;
    assert s[|PREFIX|..] == q + [];
    RunLengthOfRun(q, []);
    assert s[|PREFIX|..|PREFIX| + |q|] == q;
  }

  /** Every matching reply in full: the prefix, an optional opening quote, a
      run of word and space characters, an optional closing quote, then any
      rest that does not continue the match. The matched part becomes the
      run; the rest follows unchanged, whether or not the quotes pair up. */
  lemma ExtractQueryRewrite(o: string, q: string, c: string, rest: string)
    requires o == [] || (|o| == 1 && IsQuote(o[0]))
    requires AllQueryChars(q)
    requires c == [] || (|c| == 1 && IsQuote(c[0]))
    requires c == [] ==> rest == [] || (!IsQueryChar(rest[0]) && !IsQuote(rest[0]))
    requires o == [] && q == [] ==> c == []
    ensures ExtractQuery(PREFIX + o + q + c + rest) == q + rest
  {
    if o != [] && c != [] {
      assert o == [o[0]] && c == [c[0]];
      QuotedQueryExtracted(q, o[0], c[0], rest);
    } else if o != [] {
      assert o == [o[0]] && PREFIX + o + q + c + rest == PREFIX + [o[0]] + q + rest;
      OpenQuoteOnly(q, o[0], rest);
    } else if c != [] {
      assert c == [c[0]] && PREFIX + o + q + c + rest == PREFIX + q + [c[0]] + rest;
      CloseQuoteOnly(q, c[0], rest);
    } else {
      assert PREFIX + o + q + c + rest == PREFIX + q + rest;
      BareQueryExtracted(q, rest);
    }
  }

  /** An opening quote with no closing one: the rest starts right after the run. */
  lemma OpenQuoteOnly(q: string, open: char, rest: string)
    requires AllQueryChars(q) && IsQuote(open)
    requires rest == [] || (!IsQueryChar(rest[0]) && !IsQuote(rest[0]))
    ensures ExtractQuery(PREFIX + [open] + q + rest) == q + rest
  {
    var s := PREFIX + [open] + q + rest;
    var a := |PREFIX| + 1;
    assert s[..|PREFIX|] == PREFIX;
    assert s[|PREFIX|] == open;
    assert s[a..] == q + rest;
    RunLengthOfRun(q, rest);
    assert s[a..a + |q|] == q;
    assert a + |q| < |s| ==> s[a + |q|] == rest[0];
    assert s[a + |q|..] == rest;
  }

  /** A closing quote with no opening one is still consumed by the match. */
  lemma CloseQuoteOnly(q: string, close: char, rest: string)
    requires AllQueryChars(q) && q != [] && IsQuote(close)
    ensures ExtractQuery(PREFIX + q + [close] + rest) == q + rest
  {
    var s := PREFIX + q + [close] + rest;
    var a := |PREFIX|;
    assert s[..|PREFIX|] == PREFIX;
    assert s[a] == q[0];
    assert s[a..] == q + ([close] + rest);
    RunLengthOfRun(q, [close] + rest);
    assert s[a..a + |q|] == q;
    assert s[a + |q|] == close;
    assert s[a + |q| + 1..] == rest;
  }

  /** No quotes: the run ends at the first character outside `[\w\s]`. */
  lemma BareQueryExtracted(q: string, rest: string)
    requires AllQueryChars(q)
    requires rest == [] || (!IsQueryChar(rest[0]) && !IsQuote(rest[0]))
    ensures ExtractQuery(PREFIX + q + rest) == q + rest
  {
    var s := PREFIX + q + rest;
    var a := |PREFIX|;
    assert s[..|PREFIX|] == PREFIX;
    assert a < |s| ==> s[a] == (q + rest)[0];
    assert s[a..] == q + rest;
    RunLengthOfRun(q, rest);
    assert s[a..a + |q|] == q;
    assert a + |q| < |s| ==> s[a + |q|] == rest[0];
    assert s[a + |q|..] == rest;
  }

  /** The reply the search-query prompt usually produces: no quotes, and a
      full stop that ends the run and stays in the query. */
  lemma TrailingFullStopKept()
    ensures ExtractQuery(PREFIX + "best laptops 2024.") == "best laptops 2024."
  {
    var q := "best laptops 2024";
    assert AllQueryChars(q) by {
      forall i | 0 <= i < |q| ensures IsQueryChar(q[i]) {
        assert q[i] in "abceloprst 024";
      }
    }
    ExtractQueryRewrite([], q, [], ".");
    assert q + "." == "best laptops 2024.";
    assert PREFIX + [] + q + [] + "." == PREFIX + (q + ".");
  }

  /** The recognition test trims the reply but the extraction does not, and
      the pattern is anchored: a reply with leading white space is accepted
      and then used whole as the query. */
  lemma LeadingWhitespaceKeepsWholeReply(message: string)
    requires message != [] && IsWhitespace(message[0])
    requires StartsWith(Trim(message), PREFIX)
    ensures WantsToSearchWeb(message)
    ensures ExtractQuery(message) == message
  {
    assert !StartsWith(message, PREFIX) by {
      assert PREFIX[0] == 'S';
    }
  }

  // ---------------------------------------------------------------------------
  // Search results

  /** One `div#search div[jscontroller][lang]` element: the text of its `h3`,
      the `href` of its first link (absent when there is no link or no
      attribute), and the text of its description block. */
  datatype Candidate = Candidate(title: string, href: Option<string>, description: string)

  datatype SearchResult = SearchResult(title: string, url: string, domain: string, description: string)

  /** `new URL(link).hostname`; None when the constructor throws. */
  type Hostname = string -> Option<string>

  /** A link that is present and non-empty is parsed; the rest are not. */
  predicate Parsed(c: Candidate) {
    c.href.Some? && c.href.value != ""
  }

  /** A candidate is kept when its title, link and hostname are all
      non-empty. */
  predicate Kept(c: Candidate, hostname: Hostname) {
    Parsed(c) && c.title != "" && hostname(c.href.value).Some? && hostname(c.href.value).value != ""
  }

  /** The result a usable candidate becomes: its link as URL, the link's
      hostname as domain. */
  function AsResult(c: Candidate, hostname: Hostname): SearchResult {
    var link := c.href.GetOr("");
    SearchResult(c.title, link, hostname(link).GetOr(""), c.description)
  }

  predicate WellFormed(r: SearchResult) {
    r.title != "" && r.url != "" && r.domain != ""
  }

  /** The map and filter over the candidates, in page order. A link the URL
      constructor rejects throws inside the map, which the surrounding
      `catch` turns into no results at all: None here. */
  function KeepResults(cands: seq<Candidate>, hostname: Hostname): (r: Option<seq<SearchResult>>)
    ensures r.None? <==> exists i :: 0 <= i < |cands| && Parsed(cands[i]) && hostname(cands[i].href.value).None?
    ensures r.Some? ==> |r.value| <= |cands| && forall k :: 0 <= k < |r.value| ==> WellFormed(r.value[k])
  {
    if cands == [] then Some([])
    else
      var c := cands[0];
      var rest := KeepResults(cands[1..], hostname);
      assert forall i :: 1 <= i < |cands| ==> cands[i] == cands[1..][i - 1];
      if !Parsed(c) then rest
      else match hostname(c.href.value)
        case None => None
        case Some(domain) =>
          if rest.Some? && c.title != "" && domain != "" then
            Some([AsResult(c, hostname)] + rest.value)
          else rest
  }

  /** The reference filter: each kept candidate as a result, in page order;
      a candidate that is not kept contributes nothing. */
  function Survivors(cands: seq<Candidate>, hostname: Hostname): (r: seq<SearchResult>)
    ensures |r| <= |cands|
  {
    if cands == [] then []
    else (if Kept(cands[0], hostname) then [AsResult(cands[0], hostname)] else []) + Survivors(cands[1..], hostname)
  }

  /** Unless a link is rejected, the results are exactly the survivors of
      the reference filter. */
  lemma {:induction false} KeepResultsAreSurvivors(cands: seq<Candidate>, hostname: Hostname)
    ensures KeepResults(cands, hostname).Some? ==> KeepResults(cands, hostname).value == Survivors(cands, hostname)
    decreases |cands|
  {
    if cands != [] {
      KeepResultsAreSurvivors(cands[1..], hostname);
      if KeepResults(cands, hostname).Some? {
        assert KeepResults(cands[1..], hostname).Some? by {
          assert forall i :: 0 <= i < |cands| - 1 ==> cands[1..][i] == cands[i + 1];
        }
      }
    }
  }

  /** Results keep page order: the results of two consecutive stretches of
      the page are those of the first followed by those of the second. */
  lemma {:induction false} KeepResultsAppend(a: seq<Candidate>, b: seq<Candidate>, hostname: Hostname)
    requires KeepResults(a, hostname).Some? && KeepResults(b, hostname).Some?
    ensures KeepResults(a + b, hostname) == Some(KeepResults(a, hostname).value + KeepResults(b, hostname).value)
    decreases |a|
  {
    if a == [] {
      assert a + b == b;
      assert [] + KeepResults(b, hostname).value == KeepResults(b, hostname).value;
    } else {
      assert (a + b)[1..] == a[1..] + b;
      assert (a + b)[0] == a[0];
      assert KeepResults(a[1..], hostname).Some? by {
        assert forall i :: 0 <= i < |a| - 1 ==> a[1..][i] == a[i + 1];
      }
      KeepResultsAppend(a[1..], b, hostname);
      var x := AsResult(a[0], hostname);
      var a' := KeepResults(a[1..], hostname).value;
      assert ([x] + a') + KeepResults(b, hostname).value == [x] + (a' + KeepResults(b, hostname).value);
    }
  }

  /** A page whose every candidate is usable loses none of them: result `k`
      is candidate `k`, with its link as URL and its hostname as domain. */
  lemma {:induction false} AllKeptWhenUsable(cands: seq<Candidate>, hostname: Hostname)
    requires forall i :: 0 <= i < |cands| ==> Kept(cands[i], hostname)
    ensures KeepResults(cands, hostname).Some?
    ensures var r := KeepResults(cands, hostname).value;
      && |r| == |cands|
      && forall k :: 0 <= k < |r| ==> r[k] == AsResult(cands[k], hostname)
    decreases |cands|
  {
    if cands != [] {
      assert forall i :: 0 <= i < |cands| - 1 ==> cands[1..][i] == cands[i + 1];
      AllKeptWhenUsable(cands[1..], hostname);
    }
  }

  /** `getSearchEngineResults(query)`: build the URL, fetch and parse the
      page (`fetch` gives the candidates, None when the request fails), and
      keep the usable results; any failure gives the empty list. */
  function GetSearchEngineResults(query: string, encode: string -> string,
                                  fetch: string -> Option<seq<Candidate>>, hostname: Hostname)
    : (r: seq<SearchResult>)
    ensures fetch(SearchUrl(query, encode)).None? ==> r == []
    ensures forall k :: 0 <= k < |r| ==> WellFormed(r[k])
  {
    match fetch(SearchUrl(query, encode))
    case None => []
    case Some(cands) => KeepResults(cands, hostname).GetOr([])
  }

  /** The results of a fetched page: none when some link is rejected,
      otherwise exactly the survivors of the reference filter. */
  lemma SearchResultsAreSurvivors(query: string, encode: string -> string,
                                  fetch: string -> Option<seq<Candidate>>, hostname: Hostname, cands: seq<Candidate>)
    requires fetch(SearchUrl(query, encode)) == Some(cands)
    ensures (exists i :: 0 <= i < |cands| && Parsed(cands[i]) && hostname(cands[i].href.value).None?) ==>
      GetSearchEngineResults(query, encode, fetch, hostname) == []
    ensures (forall i :: 0 <= i < |cands| && Parsed(cands[i]) ==> hostname(cands[i].href.value).Some?) ==>
      GetSearchEngineResults(query, encode, fetch, hostname) == Survivors(cands, hostname)
  {
    KeepResultsAreSurvivors(cands, hostname);
  }
}
