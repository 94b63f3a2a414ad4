/** Choosing the files that answer a query from a saved analysis: a first
    request lists every analysed file with its metadata and asks which fit;
    a second asks to name, among the file names, the ones the first reply
    refers to. Reading the analysis file and parsing its JSON are
    parameters. */
module PickFile {
  import opened Wrappers
  import opened Strings
  import opened Cli
  import opened Token
  import opened Completions

  const TONE := "You are an assistant that selects the most relevant document from a list of pre-analyzed files based on a user's query. You have access to metadata for each document, including its purpose, key topics, relevant entities, structure, summary, thematic classification, and relevance scores for specific answers, background research, and technical references. Your task is to compare the user's query with this metadata and identify the document or documents that best match the user's needs, explaining why they are the most relevant."

  const SECOND_TONE := "You are an assistant that finds the exact pathname of a file from a text referencing from it. You have a list of filenames. You answer in JSON format following this structure ```json\n{relevantFile: string, otherFiles: [...]}\n```"

  const DEFAULTS := Defaults("gpt-4o-mini", 50000, 0.2)

  /** One analysed file: its path and the metadata reply saved for it. */
  datatype Entry = Entry(file: string, message: string)

  /** `analysis.map(({ file }) => file)`. */
  function Filenames(entries: seq<Entry>): (names: seq<string>)
    ensures |names| == |entries|
    ensures forall i :: 0 <= i < |entries| ==> names[i] == entries[i].file
  {
    if entries == [] then [] else [entries[0].file] + Filenames(entries[1..])
  }

  const INSTRUCTION_TAIL := "\", please pick the documents (can be one or more) from the next list of messages that will fit best to answer or follow the user's query"

  /** The instruction, quoting the user's query. */
  function Instruction(prompt: string): string {
    "Following the user's query: \"" + prompt + INSTRUCTION_TAIL
  }

  function EntryMessage(e: Entry): Message {
    Message(User, "File: " + e.file + ". Metadata: " + e.message)
  }

  /** One user message per entry, in the order of the analysis. */
  function EntryMessages(entries: seq<Entry>): (ms: seq<Message>)
    ensures |ms| == |entries|
    ensures forall i :: 0 <= i < |entries| ==> ms[i] == EntryMessage(entries[i])
  {
    if entries == [] then [] else [EntryMessage(entries[0])] + EntryMessages(entries[1..])
  }

  /** The first request: the tone, the instruction quoting the prompt, and
      the entries. */
  function FirstMessages(prompt: string, entries: seq<Entry>): (ms: seq<Message>)
    ensures |ms| == 2 + |entries|
    ensures ms[0] == Message(System, TONE) && ms[1] == Message(User, Instruction(prompt))
    ensures forall i :: 0 <= i < |entries| ==> ms[2 + i] == EntryMessage(entries[i])
  {
    [Message(System, TONE), Message(User, Instruction(prompt))] + EntryMessages(entries)
  }

  /** The second request: the tone, every file name, and the first reply
      quoted as it came. */
  function SecondMessages(filenames: seq<string>, firstReply: string): seq<Message> {
    [ Message(System, SECOND_TONE),
      Message(User, "List of filenames: " + Join(filenames, ", ")),
      Message(User, "Text referencing a file: \"" + firstReply + "\"") ]
  }

  /** The two calls, the second made only when the first succeeded, with
      the first one's text. */
  function PickSpec(s: ClientState, tokenizer: Tokenizer, prompt: string, entries: seq<Entry>,
                    now1: int, reply1: Reply, now2: int, reply2: Reply)
    : (Result<Response>, ClientState)
  {
    var (first, s1) := CreateSpec(s, tokenizer, FirstMessages(prompt, entries), now1, reply1);
    if first.Err? then (first, s1)
    else CreateSpec(s1, tokenizer, SecondMessages(Filenames(entries), first.value.message), now2, reply2)
  }

  /** A successful pick made exactly two calls, in order: the first request,
      then the second quoting the first reply's text. */
  lemma PickMakesTwoCalls(s: ClientState, tokenizer: Tokenizer, prompt: string, entries: seq<Entry>,
                          now1: int, reply1: Reply, now2: int, reply2: Reply)
    requires PickSpec(s, tokenizer, prompt, entries, now1, reply1, now2, reply2).0.Ok?
    ensures PickSpec(s, tokenizer, prompt, entries, now1, reply1, now2, reply2).1.log == s.log + [
      Exchange(Request(s.model, FirstMessages(prompt, entries), s.temperature), reply1),
      Exchange(Request(s.model, SecondMessages(Filenames(entries), ReplyText(reply1)), s.temperature), reply2)]
  {
    var (first, s1) := CreateSpec(s, tokenizer, FirstMessages(prompt, entries), now1, reply1);
    CreateLogsAtMostOnce(s, tokenizer, FirstMessages(prompt, entries), now1, reply1);
    CreateLogsAtMostOnce(s1, tokenizer, SecondMessages(Filenames(entries), first.value.message), now2, reply2);
  }

  /** A failed first call ends the pick with its error; at most that call
      was made. */
  lemma FirstFailureStops(s: ClientState, tokenizer: Tokenizer, prompt: string, entries: seq<Entry>,
                          now1: int, reply1: Reply, now2: int, reply2: Reply)
    requires CreateSpec(s, tokenizer, FirstMessages(prompt, entries), now1, reply1).0.Err?
    ensures var (r, s') := PickSpec(s, tokenizer, prompt, entries, now1, reply1, now2, reply2);
      && r == CreateSpec(s, tokenizer, FirstMessages(prompt, entries), now1, reply1).0
      && |s'.log| <= |s.log| + 1
  {
    CreateLogsAtMostOnce(s, tokenizer, FirstMessages(prompt, entries), now1, reply1);
  }

  /** `pickFileFromAnalysis`: `analysis` is what reading the analysis file
      gave (None when it failed), `parse` the JSON parse and the mapping to
      entries (None when either throws). `now1`, `reply1` and `now2`,
      `reply2` are the times and provider answers of the two calls. */
  method PickFileFromAnalysis(prompt: string, path: string, analysis: Option<string>,
                              parse: string -> Option<seq<Entry>>, completions: Completions,
                              now1: int, reply1: Reply, now2: int, reply2: Reply)
    returns (r: Result<Response>)
    requires completions.Valid()
    modifies completions
    ensures completions.Valid()
    ensures analysis.None? || analysis.value == "" ==>
      r == Err(ReadFailed(path)) && completions.State() == old(completions.State())
    ensures analysis.Some? && analysis.value != "" && parse(analysis.value).None? ==>
      r == Err(AnalysisParseFailed) && completions.State() == old(completions.State())
    ensures analysis.Some? && analysis.value != "" && parse(analysis.value).Some? ==>
      (r, completions.State()) == PickSpec(old(completions.State()), completions.tokenizer, prompt,
                                           parse(analysis.value).value, now1, reply1, now2, reply2)
  {
    if analysis.None? || analysis.value == "" {
      return Err(ReadFailed(path));
    }
    var parsed := parse(analysis.value);
    if parsed.None? {
      return Err(AnalysisParseFailed);
    }
    var entries := parsed.value;
    var filenames := Filenames(entries);
    var first := completions.Create(FirstMessages(prompt, entries), now1, reply1);
    if first.Err? {
      return first;
    }
    r := completions.Create(SecondMessages(filenames, first.value.message), now2, reply2);
  }
}
