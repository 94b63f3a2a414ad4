/** Saving a fenced code block from a model reply to a file whose name a
    second model call chooses. The regular expression is

      ^```.+\n([\s\S]*)\n```$

    written out below: an opening fence, a non-empty info string on one
    line, a newline, the body, and a closing newline and fence at the very
    end. The file write is reduced to whether it succeeds. */
module CreateFile {
  import opened Wrappers
  import opened Strings
  import opened Cli
  import opened Completions

  const FENCE := "```"
  const CLOSE := "\n```"
  const MAX_FILENAME := 100

  /** The characters `.` does not match. */
  predicate IsLineTerminator(c: char) {
    c == '\n' || c == '\r' || c == '\U{2028}' || c == '\U{2029}'
  }

  predicate OneLine(s: string) {
    forall i :: 0 <= i < |s| ==> !IsLineTerminator(s[i])
  }

  /** The first line terminator at or after `from`, or `|s|`. */
  function LineEnd(s: string, from: nat): (p: nat)
    requires from <= |s|
    decreases |s| - from
    ensures from <= p <= |s|
    ensures forall i :: from <= i < p ==> !IsLineTerminator(s[i])
    ensures p < |s| ==> IsLineTerminator(s[p])
  {
    if from == |s| || IsLineTerminator(s[from]) then from else LineEnd(s, from + 1)
  }

  /** A fenced block split into its info string and its body. */
  datatype Fenced = Fenced(info: string, body: string)

  /** The match of the pattern against the whole of `s`. `.+` cannot cross a
      line terminator, so the info string ends at the first one, which must
      be a newline; the greedy body then runs up to the closing fence. */
  function FenceSplit(s: string): (r: Option<Fenced>)
    ensures r.Some? ==> r.value.info != [] && OneLine(r.value.info)
    ensures r.Some? ==> s == FENCE + r.value.info + "\n" + r.value.body + CLOSE
  {
    if !StartsWith(s, FENCE) then None
    else
      var p := LineEnd(s, |FENCE|);
      if p > |FENCE| && p + 1 + |CLOSE| <= |s| && s[p] == '\n' && EndsWith(s, CLOSE) then
        var f := Fenced(s[|FENCE|..p], s[p + 1..|s| - |CLOSE|]);
        assert s == FENCE + f.info + "\n" + f.body + CLOSE by {
          assert s == s[..|FENCE|] + s[|FENCE|..p] + [s[p]] + s[p + 1..|s| - |CLOSE|] + s[|s| - |CLOSE|..];
        }
        Some(f)
      else None
  }

  /** The converse: every text of the fenced shape matches, and the match
      gives back its info string and body. */
  lemma FencedMatches(info: string, body: string)
    requires info != [] && OneLine(info)
    ensures FenceSplit(FENCE + info + "\n" + body + CLOSE) == Some(Fenced(info, body))
  {
    var s := FENCE + info + "\n" + body + CLOSE;
    var p := |FENCE| + |info|;
    assert s[..|FENCE|] == FENCE;
    assert s[|FENCE|..p] == info;
    assert s[p] == '\n';
    assert forall i :: |FENCE| <= i < p ==> s[i] == info[i - |FENCE|];
    assert LineEnd(s, |FENCE|) == p;
    assert s[|s| - |CLOSE|..] == CLOSE;
    assert s[p + 1..|s| - |CLOSE|] == body;
  }

  /** `wantsToCreateFile`: the trimmed reply is one fenced block. */
  predicate WantsToCreateFile(message: string) {
    FenceSplit(Trim(message)).Some?
  }

  lemma WantsToCreateFileShape(message: string)
    ensures WantsToCreateFile(message) <==>
      exists info, body :: info != [] && OneLine(info) && Trim(message) == FENCE + info + "\n" + body + CLOSE
  {
    if !WantsToCreateFile(message) {
      forall info, body | info != [] && OneLine(info)
        ensures Trim(message) != FENCE + info + "\n" + body + CLOSE
      {
        FencedMatches(info, body);
      }
    }
  }

  /** `message.replace(regex, "$1")`: the body of a fenced block, or the text
      unchanged when it is not one. */
  function ExtractContent(message: string): (content: string)
    ensures FenceSplit(message).None? ==> content == message
  {
    match FenceSplit(message)
    case None => message
    case Some(f) => f.body
  }

  /** What is written is exactly the body between the fence lines. */
  lemma ContentIsBody(info: string, body: string)
    requires info != [] && OneLine(info)
    ensures ExtractContent(FENCE + info + "\n" + body + CLOSE) == body
  {
    FencedMatches(info, body);
  }

  // ---------------------------------------------------------------------------
  // The output path

  /** `${dir ?? ""}${dir?.endsWith("/") ? "" : "/"}${filename}`. */
  function PathName(dir: Option<string>, filename: string): (path: string)
    ensures StartsWith(path, dir.GetOr(""))
    ensures EndsWith(path, "/" + filename)
  {
    var d := dir.GetOr("");
    var sep := if dir.Some? && EndsWith(dir.value, "/") then "" else "/";
    assert sep == "" ==> d == d[..|d| - 1] + "/";
    d + sep + filename
  }

  /** A directory with or without its trailing slash gives the same path. */
  lemma TrailingSlashIrrelevant(dir: string, filename: string)
    requires !EndsWith(dir, "/")
    ensures PathName(Some(dir + "/"), filename) == PathName(Some(dir), filename) == dir + "/" + filename
  {
    assert EndsWith(dir + "/", "/");
  }

  /** No directory, and the empty directory, both put the file at the root. */
  lemma NoDirectoryIsRoot(filename: string)
    ensures PathName(None, filename) == PathName(Some(""), filename) == "/" + filename
  {
  }

  predicate FilenameFits(filename: string) {
    |filename| <= MAX_FILENAME
  }

  // ---------------------------------------------------------------------------
  // createFile

  const FILENAME_TONE := "You are a helpful assistant that comes out with a filename from a given code block that was generated using a user query."
  const FILENAME_ASK := "Output only the name of the file you think fits best for the following code block and the user query."
  const FILENAME_RULE := "If the code contains a class, a variable, or a function that fits 'the main purpose' of the code block, the filename will be that name."

  /** The request asking for a filename: the tone, the two instructions, the
      user's query and the code block. */
  function FilenameMessages(previousPrompt: string, message: string): seq<Message> {
    [ Message(System, FILENAME_TONE),
      Message(User, FILENAME_ASK),
      Message(User, FILENAME_RULE),
      Message(User, "User query: " + previousPrompt),
      Message(User, "Code block: " + message) ]
  }

  /** Where the content went: written to the path, or printed after the write
      failed. Either way `createFile` completes normally. */
  datatype Outcome = Written(path: string, content: string) | WriteFailed(path: string, content: string)

  /** `createFile`: one `create` call for the filename (its reply used as it
      is), the length guard, then the write. `now` and `reply` are the time
      and the provider's answer for that call; `writeSucceeds` whether the
      file system accepts the write. */
  method CreateFile(previousPrompt: string, answer: string, completions: Completions,
                    outputDirectory: Option<string>, now: int, reply: Reply, writeSucceeds: bool)
    returns (r: Result<Outcome>)
    requires completions.Valid()
    modifies completions
    ensures completions.Valid()
    ensures var (created, after) := CreateSpec(old(completions.State()), completions.tokenizer,
                                               FilenameMessages(previousPrompt, Trim(answer)), now, reply);
      && completions.State() == after
      && (created.Err? ==> r == Err(created.error))
      && (created.Ok? && !FilenameFits(created.value.message) ==> r == Err(FilenameTooLong))
      && (r.Ok? <==> created.Ok? && FilenameFits(created.value.message))
    ensures r.Ok? ==> r.value.path == PathName(outputDirectory, ReplyText(reply))
    ensures r.Ok? ==> r.value.content == ExtractContent(Trim(answer))
    ensures r.Ok? ==> (r.value.Written? <==> writeSucceeds)
    ensures r.Ok? ==> completions.log == old(completions.log) + [Exchange(Request(
      completions.model, FilenameMessages(previousPrompt, Trim(answer)), completions.temperature), reply)]
  {
    var message := Trim(answer);
    var created := completions.Create(FilenameMessages(previousPrompt, message), now, reply);
    if created.Err? {
      return Err(created.error);
    }
    var filename := created.value.message;
    if |filename| > MAX_FILENAME {
      return Err(FilenameTooLong);
    }
    var pathname := PathName(outputDirectory, filename);
    var content := ExtractContent(message);
    if writeSucceeds {
      r := Ok(Written(pathname, content));
    } else {
      r := Ok(WriteFailed(pathname, content));
    }
  }
}
