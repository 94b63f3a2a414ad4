/** The shared helpers of the CLI: the message type, the help-text builders,
    the two extractors of JSON from a model reply, and `sequential`. */
module Cli {
  import opened Wrappers
  import opened Strings

  datatype Role = System | User | Assistant

  /** One chat message; a request is an ordered list of them. */
  datatype Message = Message(role: Role, content: string)

  /** A description is either a list of lines or a single string. */
  datatype Description = Lines(lines: seq<string>) | Text(text: string)

  datatype Topic = Topic(title: string, description: Description)

  // ---------------------------------------------------------------------------
  // Help-text builders

  function GetDescriptionLines(d: Description): seq<string> {
    match d
    case Lines(ls) => ls
    case Text(t) => [t]
  }

  /** The lines of one topic: its title with a colon, one bulleted line per
      description line, and a final blank line. */
  function MapTopic(t: Topic): (r: seq<string>)
    ensures |r| == |GetDescriptionLines(t.description)| + 2
    ensures r[0] == t.title + ":" && r[|r| - 1] == ""
    ensures forall i :: 0 <= i < |GetDescriptionLines(t.description)| ==>
              r[i + 1] == "  - " + GetDescriptionLines(t.description)[i]
  {
    var lines := GetDescriptionLines(t.description);
    [t.title + ":"] + seq(|lines|, i requires 0 <= i < |lines| => "  - " + lines[i]) + [""]
  }

  /** `topics.map(mapTopic).flat()`. */
  function TopicLines(topics: seq<Topic>): (r: seq<string>)
    ensures topics != [] ==> |r| >= 2 * |topics|
  {
    if topics == [] then [] else MapTopic(topics[0]) + TopicLines(topics[1..])
  }

  function TopicsDescription(topics: seq<Topic>): string {
    "  " + Join(TopicLines(topics), "\n  ")
  }

  function IndentedDescription(description: Description, topics: seq<Topic>): string {
    Join(GetDescriptionLines(description) + TopicLines(topics), "\n\t")
  }

  function MultilineDescription(description: Description): string {
    Join(GetDescriptionLines(description), "\n")
  }

  lemma {:induction false} TopicLinesAppend(a: seq<Topic>, b: seq<Topic>)
    ensures TopicLines(a + b) == TopicLines(a) + TopicLines(b)
    decreases |a|
  {
    if a == [] {
      assert a + b == b;
    } else {
      assert (a + b)[0] == a[0] && (a + b)[1..] == a[1..] + b;
      TopicLinesAppend(a[1..], b);
    }
  }

  /** The topics help text of two non-empty topic lists is the two texts on
      consecutive lines: every topic line starts a new indented line. */
  lemma TopicsDescriptionAppend(a: seq<Topic>, b: seq<Topic>)
    requires a != [] && b != []
    ensures TopicsDescription(a + b) == TopicsDescription(a) + "\n" + TopicsDescription(b)
  {
    TopicLinesAppend(a, b);
    JoinAppend(TopicLines(a), TopicLines(b), "\n  ");
  }

  /** A single-string description without topics comes back unchanged from
      both description builders, and a list of lines is joined as it is. */
  lemma DescriptionOfText(t: string, ls: seq<string>)
    ensures MultilineDescription(Text(t)) == t
    ensures IndentedDescription(Text(t), []) == t
    ensures MultilineDescription(Lines(ls)) == Join(ls, "\n")
    ensures IndentedDescription(Lines(ls), []) == Join(ls, "\n\t")
  {
    assert GetDescriptionLines(Text(t)) + TopicLines([]) == [t];
    assert GetDescriptionLines(Lines(ls)) + TopicLines([]) == ls;
  }

  // ---------------------------------------------------------------------------
  // extractJson: drop every "```json", then every "```", then parse.

  const FENCE := "```"
  const JSON_FENCE := "```json"

  /** No three consecutive backticks anywhere in `s`. */
  ghost predicate NoFence(s: string) {
    forall k: nat :: !OccursAt(s, FENCE, k)
  }

  function StripFences(s: string): string {
    ReplaceAll(ReplaceAll(s, JSON_FENCE, ""), FENCE, "")
  }

  /** `extractJson`: the text handed to the parser is the reply with the
      fences removed; `parse` is JSON.parse, None when it throws. */
  function ExtractJson<T>(s: string, parse: string -> Option<T>): (r: Result<T>)
    ensures r.Err? ==> r.error == InvalidJson
    ensures r.Ok? <==> parse(StripFences(s)).Some?
    ensures r.Ok? ==> r.value == parse(StripFences(s)).value
  {
    match parse(StripFences(s))
    case None => Err(InvalidJson)
    case Some(v) => Ok(v)
  }

  lemma ReplaceFenceHead(t: string)
    requires t != [] && t[0] != '`'
    ensures ReplaceAll(t, FENCE, "") != [] && ReplaceAll(t, FENCE, "")[0] == t[0]
  {
    if |t| >= 3 {
      assert t[..3] != FENCE by { assert t[..3][0] != '`'; }
    }
  }

  /** Removing every "```" leaves no "```": removal never joins two runs of
      backticks, because only backticks are removed. */
  lemma {:induction false} StripFencesLeavesNoFence(s: string)
    ensures NoFence(ReplaceAll(s, FENCE, ""))
    decreases |s|
  {
    var r := ReplaceAll(s, FENCE, "");
    if |s| < 3 {
      assert r == s;
    } else if s[..3] == FENCE {
      StripFencesLeavesNoFence(s[3..]);
      assert r == ReplaceAll(s[3..], FENCE, "");
    } else {
      var rest := ReplaceAll(s[1..], FENCE, "");
      StripFencesLeavesNoFence(s[1..]);
      assert r == [s[0]] + rest;
      forall k: nat ensures !OccursAt(r, FENCE, k) {
        if k > 0 {
          if k + 3 <= |r| {
            assert r[k..k + 3] == rest[k - 1..k + 2];
            assert !OccursAt(rest, FENCE, k - 1);
          }
        } else if |r| >= 3 {
          if s[0] != '`' {
            assert r[..3][0] != FENCE[0];
          } else if s[1] != '`' {
            ReplaceFenceHead(s[1..]);
            assert r[..3][1] == s[1] != FENCE[1];
          } else {
            assert s[2] != '`' by { assert s[..3] != FENCE && s[..3] == [s[0], s[1], s[2]]; }
            var t := s[1..];
            if |t| >= 3 {
              assert t[..3] != FENCE by { assert t[..3][1] == s[2]; }
              assert rest == [t[0]] + ReplaceAll(t[1..], FENCE, "");
              assert t[1..] == s[2..];
              ReplaceFenceHead(s[2..]);
            } else {
              assert rest == t;
            }
            assert r[..3][2] == s[2] != FENCE[2];
          }
        }
      }
    }
  }

  /** Whatever the reply, the text `extractJson` parses holds no "```". */
  lemma ExtractedTextHasNoFence(s: string)
    ensures NoFence(StripFences(s))
  {
    StripFencesLeavesNoFence(ReplaceAll(s, JSON_FENCE, ""));
  }

  /** A body without backticks, fenced as "```json" ... "```", is parsed as
      it was before fencing. */
  lemma ExtractJsonRoundTrip<T>(body: string, parse: string -> Option<T>)
    requires forall i :: 0 <= i < |body| ==> body[i] != '`'
    ensures StripFences(JSON_FENCE + body + FENCE) == body
    ensures ExtractJson(JSON_FENCE + body + FENCE, parse) ==
            (if parse(body).Some? then Ok(parse(body).value) else Err(InvalidJson))
  {
    var s := JSON_FENCE + body + FENCE;
    assert s[..|JSON_FENCE|] == JSON_FENCE;
    assert s[|JSON_FENCE|..] == body + FENCE;
    assert ReplaceAll(s, JSON_FENCE, "") == ReplaceAll(body + FENCE, JSON_FENCE, "");
    ReplaceAllSkip(body, FENCE, JSON_FENCE, "");
    assert ReplaceAll(FENCE, JSON_FENCE, "") == FENCE;
    ReplaceAllSkip(body, FENCE, FENCE, "");
    assert ReplaceAll(FENCE, FENCE, "") == "" by {
      assert FENCE[..3] == FENCE && FENCE[3..] == "";
    }
    assert body + "" == body;
  }

  // ---------------------------------------------------------------------------
  // extractJsonV2: /```json\n([\s\S]*)\n```/ with a greedy body.

  const OPEN := "```json\n"
  const CLOSE := "\n```"

  /** The text the regular expression captures: from just after the first
      "```json\n" to just before the last "\n```" that follows it; None when
      the expression does not match. */
  function FencedJson(s: string): (r: Option<string>)
    ensures r.None? <==>
      !exists i: nat, j: nat :: OccursAt(s, OPEN, i) && OccursAt(s, CLOSE, j) && i + |OPEN| <= j
    ensures r.Some? ==>
      exists i: nat, j: nat ::
        && OccursAt(s, OPEN, i) && OccursAt(s, CLOSE, j) && i + |OPEN| <= j
        && (forall k: nat :: k < i ==> !OccursAt(s, OPEN, k))
        && (forall k: nat :: j < k ==> !OccursAt(s, CLOSE, k))
        && r.value == s[i + |OPEN|..j]
  {
    match IndexOfFrom(s, OPEN, 0)
    case None => None
    case Some(i) =>
      match LastIndexOf(s, CLOSE)
      case None => None
      case Some(j) => if j < i + |OPEN| then None else Some(s[i + |OPEN|..j])
  }

  /** `extractJsonV2`: no fenced block is InvalidExtractedJson; a block that
      does not parse is ExtractedJsonParseFailed. */
  function ExtractJsonV2<T>(s: string, parse: string -> Option<T>): (r: Result<T>)
    ensures r.Err? && r.error == InvalidExtractedJson <==> FencedJson(s).None?
    ensures r.Ok? <==> FencedJson(s).Some? && parse(FencedJson(s).value).Some?
    ensures r.Ok? ==> r.value == parse(FencedJson(s).value).value
  {
    match FencedJson(s)
    case None => Err(InvalidExtractedJson)
    case Some(text) =>
      match parse(text)
      case None => Err(ExtractedJsonParseFailed)
      case Some(v) => Ok(v)
  }

  /** Any body, fenced as "```json\n" ... "\n```", is extracted exactly. */
  lemma FencedJsonRoundTrip(body: string)
    ensures FencedJson(OPEN + body + CLOSE) == Some(body)
  {
    var s := OPEN + body + CLOSE;
    var j := |OPEN| + |body|;
    assert OccursAt(s, OPEN, 0) by { assert s[..|OPEN|] == OPEN; }
    assert OccursAt(s, CLOSE, j) by { assert s[j..j + |CLOSE|] == CLOSE; }
    assert IndexOfFrom(s, OPEN, 0) == Some(0);
    assert LastIndexOf(s, CLOSE) == Some(j);
    assert s[|OPEN|..j] == body;
  }

  /** The body is greedy: with two closing fences the capture runs to the
      second one and keeps the first inside it. */
  lemma FencedJsonIsGreedy(a: string, b: string)
    ensures FencedJson(OPEN + a + CLOSE + b + CLOSE) == Some(a + CLOSE + b)
  {
    assert OPEN + a + CLOSE + b + CLOSE == OPEN + (a + CLOSE + b) + CLOSE;
    FencedJsonRoundTrip(a + CLOSE + b);
  }

  // ---------------------------------------------------------------------------
  // sequential: run the factories one after another, collecting results.

  /** The results and the final state of running `steps` in order, each step
      starting from the state the previous one left. */
  function RunInOrder<S, T>(steps: seq<S -> (T, S)>, start: S): (r: (seq<T>, S))
    ensures |r.0| == |steps|
  {
    if steps == [] then ([], start)
    else
      var (results, state) := RunInOrder(steps[..|steps| - 1], start);
      var (result, next) := steps[|steps| - 1](state);
      (results + [result], next)
  }

  /** The i-th result is what the i-th step produces from the state left by
      the steps before it. */
  lemma {:induction false} RunInOrderAt<S, T>(steps: seq<S -> (T, S)>, start: S, i: nat)
    requires i < |steps|
    ensures RunInOrder(steps, start).0[i] == steps[i](RunInOrder(steps[..i], start).1).0
    decreases |steps|
  {
    var init := steps[..|steps| - 1];
    if i < |steps| - 1 {
      RunInOrderAt(init, start, i);
      assert init[..i] == steps[..i];
    } else {
      assert init == steps[..i];
    }
  }

  /** `sequential`: awaits each factory in turn; `notified` lists the values
      handed to the callback, one per result, in order. */
  method Sequential<S, T>(factories: seq<S -> (T, S)>, start: S)
    returns (results: seq<T>, final: S, notified: seq<T>)
    ensures (results, final) == RunInOrder(factories, start)
    ensures notified == results
  {
    results, final, notified := [], start, [];
    for i := 0 to |factories|
      invariant (results, final) == RunInOrder(factories[..i], start)
      invariant notified == results
    {
      assert factories[..i + 1][..i] == factories[..i];
      var result, next := factories[i](final).0, factories[i](final).1;
      results := results + [result];
      final := next;
      notified := notified + [result];
    }
    assert factories[..|factories|] == factories;
  }
}
