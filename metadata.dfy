/** Building the analysis of a documentation tree: every Markdown file other
    than README and index files is read and sent, one after the other, for
    metadata extraction through one shared client, and the token totals of
    the replies are added up. Walking the directory, reading files, the
    extraction prompt template and writing the result are parameters or
    left out. */
module Metadata {
  import opened Wrappers
  import opened Strings
  import opened Cli
  import opened Token
  import opened Completions

  const DEFAULTS := Defaults("gpt-4o-mini", 50000, 0.2)

  // ---------------------------------------------------------------------------
  // Which files are analysed

  /** A path is skipped when it contains "README.md" or "index.md" anywhere,
      not only as its file name. */
  predicate Excluded(path: string) {
    Contains(path, "README.md") || Contains(path, "index.md")
  }

  /** `files.filter(...)`. */
  function KeptFiles(files: seq<string>): (kept: seq<string>)
    ensures |kept| <= |files|
    ensures forall k :: 0 <= k < |kept| ==> !Excluded(kept[k]) && kept[k] in files
  {
    if files == [] then []
    else (if Excluded(files[0]) then [] else [files[0]]) + KeptFiles(files[1..])
  }

  /** Filtering keeps the order of the listing: the kept files of two parts
      of a listing are those of the first part, then those of the second. */
  lemma {:induction false} KeptFilesAppend(a: seq<string>, b: seq<string>)
    ensures KeptFiles(a + b) == KeptFiles(a) + KeptFiles(b)
    decreases |a|
  {
    if a == [] {
      assert a + b == b;
    } else {
      assert (a + b)[0] == a[0];
      assert (a + b)[1..] == a[1..] + b;
      KeptFilesAppend(a[1..], b);
    }
  }

  /** Every file of the listing that is not excluded is analysed. */
  lemma {:induction false} KeptFilesComplete(files: seq<string>, f: string)
    requires f in files && !Excluded(f)
    ensures f in KeptFiles(files)
    decreases |files|
  {
    if files[0] != f {
      assert f in files[1..];
      KeptFilesComplete(files[1..], f);
    }
  }

  /** A name that merely ends in "index.md" is skipped too. */
  lemma MyIndexIsExcluded(path: string)
    requires path == "docs/myindex.md"
    ensures Excluded(path)
  {
    assert OccursAt(path, "index.md", 7) by {
      assert path[7..15] == "index.md";
    }
  }

  // ---------------------------------------------------------------------------
  // The extraction run

  /** One analysed file and the reply for it. */
  datatype Analysis = Analysis(file: string, res: Response)

  /** `extractMetadataFromMarkdown` for one file: `contents` is what reading
      it gave (None when the read failed); a missing or empty file is an
      error, otherwise one `create` with the request built from the text. */
  function ExtractOne(s: ClientState, tokenizer: Tokenizer, file: string, contents: Option<string>,
                      messagesFor: string -> seq<Message>, now: int, reply: Reply)
    : (Result<Response>, ClientState)
  {
    if contents.None? || contents.value == "" then (Err(ReadFailed(file)), s)
    else CreateSpec(s, tokenizer, messagesFor(contents.value), now, reply)
  }

  /** The files extracted in order, each one starting after the previous
      one finished; the first failure ends the run with its error. The i-th
      extraction starts at `clock(i)` and gets `replies(i)`. */
  function ExtractAll(s: ClientState, tokenizer: Tokenizer, files: seq<string>, read: string -> Option<string>,
                      messagesFor: string -> seq<Message>, clock: nat -> int, replies: nat -> Reply)
    : (Result<seq<Analysis>>, ClientState)
    decreases |files|
  {
    if files == [] then (Ok([]), s)
    else
      var i := |files| - 1;
      var (done, s1) := ExtractAll(s, tokenizer, files[..i], read, messagesFor, clock, replies);
      if done.Err? then (done, s1)
      else
        var (res, s2) := ExtractOne(s1, tokenizer, files[i], read(files[i]), messagesFor, clock(i), replies(i));
        if res.Err? then (Err(res.error), s2) else (Ok(done.value + [Analysis(files[i], res.value)]), s2)
  }

  /** The request sent for the i-th file. */
  function RequestFor(s: ClientState, file: string, read: string -> Option<string>,
                      messagesFor: string -> seq<Message>): Request {
    Request(s.model, messagesFor(read(file).GetOr("")), s.temperature)
  }

  /** A complete run pairs file i with its reply, one per kept file, and made
      exactly one call per file, in order, with the client's model and
      temperature. */
  lemma {:induction false} ExtractAllPairs(s: ClientState, tokenizer: Tokenizer, files: seq<string>,
                                           read: string -> Option<string>, messagesFor: string -> seq<Message>,
                                           clock: nat -> int, replies: nat -> Reply)
    requires ExtractAll(s, tokenizer, files, read, messagesFor, clock, replies).0.Ok?
    ensures var (r, s') := ExtractAll(s, tokenizer, files, read, messagesFor, clock, replies);
      && |r.value| == |files| && |s'.log| == |s.log| + |files|
      && s'.model == s.model && s'.temperature == s.temperature
      && forall i :: 0 <= i < |files| ==>
           && r.value[i].file == files[i]
           && r.value[i].res.message == ReplyText(replies(i))
           && s'.log[|s.log| + i] == Exchange(RequestFor(s, files[i], read, messagesFor), replies(i))
    decreases |files|
  {
    if files != [] {
      var i := |files| - 1;
      var (done, s1) := ExtractAll(s, tokenizer, files[..i], read, messagesFor, clock, replies);
      ExtractAllPairs(s, tokenizer, files[..i], read, messagesFor, clock, replies);
      var contents := read(files[i]).value;
      CreateLogsAtMostOnce(s1, tokenizer, messagesFor(contents), clock(i), replies(i));
      var (r, s') := ExtractAll(s, tokenizer, files, read, messagesFor, clock, replies);
      assert r.value == done.value + [r.value[i]];
      assert s'.log == s1.log + [Exchange(RequestFor(s, files[i], read, messagesFor), replies(i))];
      forall j | 0 <= j < |files|
        ensures r.value[j].file == files[j] && r.value[j].res.message == ReplyText(replies(j))
        ensures s'.log[|s.log| + j] == Exchange(RequestFor(s, files[j], read, messagesFor), replies(j))
      {
        if j < i {
          assert r.value[j] == done.value[j];
          assert s'.log[|s.log| + j] == s1.log[|s.log| + j];
          assert files[..i][j] == files[j];
        }
      }
    }
  }

  /** Once a run has failed, the files after the failing one change
      nothing: no further call is made. */
  lemma {:induction false} FailureEndsRun(s: ClientState, tokenizer: Tokenizer, files: seq<string>, j: nat,
                                          read: string -> Option<string>, messagesFor: string -> seq<Message>,
                                          clock: nat -> int, replies: nat -> Reply)
    requires j <= |files|
    requires ExtractAll(s, tokenizer, files[..j], read, messagesFor, clock, replies).0.Err?
    ensures ExtractAll(s, tokenizer, files, read, messagesFor, clock, replies)
         == ExtractAll(s, tokenizer, files[..j], read, messagesFor, clock, replies)
    decreases |files|
  {
    if j < |files| {
      var n := |files| - 1;
      assert files[..n][..j] == files[..j];
      FailureEndsRun(s, tokenizer, files[..n], j, read, messagesFor, clock, replies);
    } else {
      assert files[..j] == files;
    }
  }

  /** `data.map(d => d.res.tokens.total).reduce((a, b) => a + b, 0)`. */
  function TotalTokens(data: seq<Analysis>): nat {
    if data == [] then 0 else TotalTokens(data[..|data| - 1]) + data[|data| - 1].res.tokens.total
  }

  /** The reported total is what the client's running total grew by, at
      most: the client also adds the prompt, completion and reasoning
      counts. */
  lemma {:induction false} ReportedTotalBounded(s: ClientState, tokenizer: Tokenizer, files: seq<string>,
                                                read: string -> Option<string>, messagesFor: string -> seq<Message>,
                                                clock: nat -> int, replies: nat -> Reply)
    requires ExtractAll(s, tokenizer, files, read, messagesFor, clock, replies).0.Ok?
    ensures var (r, s') := ExtractAll(s, tokenizer, files, read, messagesFor, clock, replies);
      s'.totalTokensUsed >= s.totalTokensUsed + TotalTokens(r.value)
    decreases |files|
  {
    if files != [] {
      var i := |files| - 1;
      var (done, s1) := ExtractAll(s, tokenizer, files[..i], read, messagesFor, clock, replies);
      ReportedTotalBounded(s, tokenizer, files[..i], read, messagesFor, clock, replies);
      var messages := messagesFor(read(files[i]).value);
      match CountTokens(tokenizer, s1.model, messages)
      case Err(_) =>
      case Ok(n) =>
        SuccessBooksOneRequest(s1, tokenizer, messages, clock(i), replies(i), n);
        var (r, s') := ExtractAll(s, tokenizer, files, read, messagesFor, clock, replies);
        assert r.value[..|r.value| - 1] == done.value;
    }
  }

  /** The command's run: the kept files of the listing, a client from the
      arguments and defaults created at `start`, the extractions in order,
      and the reported total. */
  method Handler(args: CompletionsArgs, files: seq<string>, read: string -> Option<string>,
                 messagesFor: string -> seq<Message>, tokenizer: Tokenizer, start: int,
                 clock: nat -> int, replies: nat -> Reply)
    returns (r: Result<(seq<Analysis>, nat)>, completions: Completions)
    ensures fresh(completions) && completions.Valid()
    ensures var s := InitialState(args.maxTokens.GetOr(DEFAULTS.maxTokens), args.model.GetOr(DEFAULTS.model),
                                  args.temperature.GetOr(DEFAULTS.temperature), start);
      var (expected, after) := ExtractAll(s, tokenizer, KeptFiles(files), read, messagesFor, clock, replies);
      && completions.State() == after
      && (expected.Err? ==> r == Err(expected.error))
      && (expected.Ok? ==> r == Ok((expected.value, TotalTokens(expected.value))))
  {
    var kept := KeptFiles(files);
    completions := Completions.FromArgs(args, DEFAULTS, tokenizer, start);
    ghost var s := completions.State();
    var data: seq<Analysis> := [];
    var i := 0;
    while i < |kept|
      invariant 0 <= i <= |kept|
      invariant completions.Valid() && completions.tokenizer == tokenizer
      invariant (Ok(data), completions.State()) == ExtractAll(s, tokenizer, kept[..i], read, messagesFor, clock, replies)
      modifies completions
    {
      assert kept[..i + 1][..i] == kept[..i];
      ghost var before := completions.State();
      var contents := read(kept[i]);
      ghost var step := ExtractOne(before, tokenizer, kept[i], contents, messagesFor, clock(i), replies(i));
      assert step.0.Err? ==> ExtractAll(s, tokenizer, kept[..i + 1], read, messagesFor, clock, replies) == (Err(step.0.error), step.1);
      if contents.None? || contents.value == "" {
        FailureEndsRun(s, tokenizer, kept, i + 1, read, messagesFor, clock, replies);
        return Err(ReadFailed(kept[i])), completions;
      }
      var res := completions.Create(messagesFor(contents.value), clock(i), replies(i));
      assert step == (res, completions.State());
      if res.Err? {
        FailureEndsRun(s, tokenizer, kept, i + 1, read, messagesFor, clock, replies);
        return Err(res.error), completions;
      }
      data := data + [Analysis(kept[i], res.value)];
      i := i + 1;
    }
    assert kept[..i] == kept;
    r := Ok((data, TotalTokens(data)));
  }
}
