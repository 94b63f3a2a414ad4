/** Asking a question about a Markdown document: the prompt is given a
    closing punctuation mark and sent with the document in one request. */
module Markdown {
  import opened Wrappers
  import opened Strings
  import opened Cli
  import opened Token
  import opened Completions

  const TONE := "You are a helpful assistant that specializes in processing Markdown files. You excel at tasks such as summarizing, answering questions, generating structured outputs, converting formats, and improving content. Respond clearly, concisely, and with step-by-step instructions when necessary. Adopt a neutral and professional tone unless instructed otherwise."

  const DEFAULTS := Defaults("gpt-4o-mini", 10000, 0.1)

  predicate IsSentenceEnd(c: char) {
    c == '.' || c == '!' || c == '?'
  }

  predicate EndsSentence(s: string) {
    s != [] && IsSentenceEnd(s[|s| - 1])
  }

  /** `prompt.slice(-1).match(/[.!?]/) ? prompt : prompt + "."`. */
  function FormatPrompt(prompt: string): (f: string)
    ensures EndsSentence(f)
    ensures StartsWith(f, prompt) && |f| <= |prompt| + 1
  {
    if EndsSentence(prompt) then prompt else prompt + "."
  }

  /** A prompt is left alone exactly when it already ends a sentence;
      otherwise one full stop is added. */
  lemma FormatPromptCases(prompt: string)
    ensures FormatPrompt(prompt) == prompt <==> EndsSentence(prompt)
    ensures !EndsSentence(prompt) ==> FormatPrompt(prompt) == prompt + "."
  {
  }

  /** Formatting twice is formatting once. */
  lemma FormatPromptIdempotent(prompt: string)
    ensures FormatPrompt(FormatPrompt(prompt)) == FormatPrompt(prompt)
  {
  }

  lemma EmptyPromptIsFullStop()
    ensures FormatPrompt("") == "."
  {
  }

  /** The user message: the formatted prompt, then the document in a
      markdown fence. */
  function MarkdownText(prompt: string, markdown: string): (text: string)
    ensures StartsWith(text, FormatPrompt(prompt))
    ensures EndsWith(text, "\n```markdown\n" + markdown + "\n```")
  {
    FormatPrompt(prompt) + " Markdown content: " + ("\n```markdown\n" + markdown + "\n```")
  }

  /** The request: the tone and the user message. */
  function MarkdownMessages(prompt: string, markdown: string): seq<Message> {
    [Message(System, TONE), Message(User, MarkdownText(prompt, markdown))]
  }

  /** `fromMarkdown`: one `create` call, whose result is returned as it is. */
  method FromMarkdown(prompt: string, completions: Completions, markdown: string, now: int, reply: Reply)
    returns (r: Result<Response>)
    requires completions.Valid()
    modifies completions
    ensures completions.Valid()
    ensures (r, completions.State()) ==
      CreateSpec(old(completions.State()), completions.tokenizer, MarkdownMessages(prompt, markdown), now, reply)
  {
    r := completions.Create(MarkdownMessages(prompt, markdown), now, reply);
  }

  /** The command: a client from the arguments and this command's defaults,
      the document read from `path` (`file`, None when the read fails), and
      the request. A missing or empty document is an error and no request is
      made. */
  method Handler(args: CompletionsArgs, prompt: string, path: string, file: Option<string>,
                 tokenizer: Tokenizer, now: int, reply: Reply)
    returns (r: Result<Response>, completions: Completions)
    ensures fresh(completions) && completions.Valid()
    ensures var s := InitialState(args.maxTokens.GetOr(DEFAULTS.maxTokens), args.model.GetOr(DEFAULTS.model),
                                  args.temperature.GetOr(DEFAULTS.temperature), now);
      if file.None? || file.value == "" then r == Err(ReadFailed(path)) && completions.State() == s
      else (r, completions.State()) == CreateSpec(s, tokenizer, MarkdownMessages(prompt, file.value), now, reply)
  {
    completions := Completions.FromArgs(args, DEFAULTS, tokenizer, now);
    if file.None? || file.value == "" {
      return Err(ReadFailed(path)), completions;
    }
    r := FromMarkdown(prompt, completions, file.value, now, reply);
  }
}
