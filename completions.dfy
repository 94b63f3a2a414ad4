/** The completion client: a per-call input-token ceiling, a one-minute
    request/token rate window, and a running usage total. Time is an explicit
    `now`; the remote call is the `Reply` the provider gives. */
module Completions {
  import opened Wrappers
  import opened Cli
  import opened Token

  const WINDOW_MS: int := 60 * 1000
  const DEFAULT_LIMIT_REQUESTS: int := 10000
  const DEFAULT_LIMIT_TOKENS: int := 200000

  /** What is sent to the provider: model, conversation and temperature
      (n = 1, no streaming, no output cap, no response format). */
  datatype Request = Request(model: string, messages: seq<Message>, temperature: real)

  /** The provider's usage record; every field may be missing. */
  datatype Details = Details(reasoningTokens: Option<nat>)
  datatype Usage = Usage(promptTokens: Option<nat>, completionTokens: Option<nat>,
                         totalTokens: Option<nat>, details: Option<Details>)
  datatype Choice = Choice(content: Option<string>)
  datatype Completion = Completion(model: string, choices: seq<Choice>, usage: Option<Usage>)

  /** The outcome of the remote call: a completion, or a rejection. */
  datatype Reply = Replied(completion: Completion) | Failed(reason: string)

  /** One remote call as it happened. */
  datatype Exchange = Exchange(request: Request, reply: Reply)

  datatype Tokens = Tokens(prompt: nat, completion: nat, total: nat, reasoning: nat)
  datatype Response = Response(model: string, message: string, tokens: Tokens)

  /** The rate window: requests and tokens booked since the window opened,
      and the time at which it closes. */
  datatype Window = Window(requests: nat, tokens: nat, resetTime: int)

  /** Everything a `Completions` object holds, with the calls it has made. */
  datatype ClientState = ClientState(
    model: string, maxTokens: int, temperature: real,
    limitRequests: int, limitTokens: int,
    window: Window, totalTokensUsed: nat, log: seq<Exchange>)

  datatype CompletionsArgs = CompletionsArgs(model: Option<string>, maxTokens: Option<int>, temperature: Option<real>)
  datatype Defaults = Defaults(model: string, maxTokens: int, temperature: real)

  // ---------------------------------------------------------------------------
  // Usage accounting

  /** Every usage field, 0 when the provider leaves it out. */
  function DefaultedTokens(u: Option<Usage>): Tokens {
    match u
    case None => Tokens(0, 0, 0, 0)
    case Some(usage) =>
      Tokens(usage.promptTokens.GetOr(0), usage.completionTokens.GetOr(0), usage.totalTokens.GetOr(0),
             match usage.details case None => 0 case Some(d) => d.reasoningTokens.GetOr(0))
  }

  /** The amount added to the running total: all four fields. */
  function UsageSum(t: Tokens): nat {
    t.prompt + t.completion + t.total + t.reasoning
  }

  /** The same amount read straight off the provider's usage record. */
  function UsageTotal(u: Option<Usage>): nat {
    match u
    case None => 0
    case Some(x) =>
      x.promptTokens.GetOr(0) + x.completionTokens.GetOr(0) + x.totalTokens.GetOr(0) +
      (match x.details case None => 0 case Some(d) => d.reasoningTokens.GetOr(0))
  }

  /** Reading the usage record directly agrees with summing the defaulted
      fields. */
  lemma UsageTotalIsSum(u: Option<Usage>)
    ensures UsageTotal(u) == UsageSum(DefaultedTokens(u))
  {
  }

  function Charge(reply: Reply): nat {
    match reply
    case Failed(_) => 0
    case Replied(c) => UsageTotal(c.usage)
  }

  /** What a list of calls adds to the running total. */
  function Charged(log: seq<Exchange>): nat {
    if log == [] then 0 else Charged(log[..|log| - 1]) + Charge(log[|log| - 1].reply)
  }

  /** The first choice's content, "" when it is null or there is no choice. */
  function ReplyText(reply: Reply): string {
    if reply.Replied? && reply.completion.choices != [] then
      reply.completion.choices[0].content.GetOr("")
    else ""
  }

  // ---------------------------------------------------------------------------
  // The rate window

  function ResetWindow(now: int): Window {
    Window(0, 0, now + WINDOW_MS)
  }

  predicate MustWait(w: Window, newTokens: nat, limitRequests: int, limitTokens: int) {
    w.requests + 1 >= limitRequests || w.tokens + newTokens >= limitTokens
  }

  /** `waitForRateLimit`: the window after the check, and the time at which
      the caller resumes. An expired window is reset first; if the next call
      would reach a limit, the caller sleeps until the window closes and the
      window is reset from that moment. */
  function AfterWait(w: Window, now: int, newTokens: nat, limitRequests: int, limitTokens: int): (r: (Window, int))
    ensures r.1 >= now
  {
    var current := if now >= w.resetTime then ResetWindow(now) else w;
    if MustWait(current, newTokens, limitRequests, limitTokens) then
      (ResetWindow(current.resetTime), current.resetTime)
    else (current, now)
  }

  /** The window was restarted during this check. */
  predicate Restarted(w: Window, now: int, newTokens: nat, limitRequests: int, limitTokens: int) {
    now >= w.resetTime || MustWait(w, newTokens, limitRequests, limitTokens)
  }

  /** One more request and `tokens` more tokens in the same window. */
  function Book(w: Window, tokens: nat): Window {
    Window(w.requests + 1, w.tokens + tokens, w.resetTime)
  }

  predicate WithinLimits(w: Window, limitRequests: int, limitTokens: int) {
    w.requests < limitRequests && (w.requests <= 1 || w.tokens < limitTokens)
  }

  /** The object invariant: the running total is the sum of every call's
      usage; an empty window holds no tokens; with room for at least two
      requests a minute, the window stays within its limits, except that a
      single request may be larger than the token limit. */
  predicate ClientInvariant(s: ClientState) {
    && s.totalTokensUsed == Charged(s.log)
    && (s.window.requests == 0 ==> s.window.tokens == 0)
    && (s.limitRequests >= 2 ==> WithinLimits(s.window, s.limitRequests, s.limitTokens))
  }

  function InitialState(maxTokens: int, model: string, temperature: real, now: int): ClientState {
    ClientState(model, maxTokens, temperature, DEFAULT_LIMIT_REQUESTS, DEFAULT_LIMIT_TOKENS,
                ResetWindow(now), 0, [])
  }

  // ---------------------------------------------------------------------------
  // create

  /** `create(messages)` started at time `now`, the provider answering
      `reply`: the response or the error, and the client state afterwards. */
  function CreateSpec(s: ClientState, tokenizer: Tokenizer, messages: seq<Message>, now: int, reply: Reply)
    : (Result<Response>, ClientState)
  {
    match CountTokens(tokenizer, s.model, messages)
    case Err(e) => (Err(e), s)
    case Ok(count) =>
      if count > s.maxTokens then (Err(TokenBudgetExceeded(count, s.maxTokens)), s)
      else SendSpec(s, messages, count, now, reply)
  }

  /** The part of `create` after the budget check: wait for the rate limit,
      call the provider, then book the call. */
  function SendSpec(s: ClientState, messages: seq<Message>, count: nat, now: int, reply: Reply)
    : (Result<Response>, ClientState)
  {
    var waited := AfterWait(s.window, now, count, s.limitRequests, s.limitTokens).0;
    var log := s.log + [Exchange(Request(s.model, messages, s.temperature), reply)];
    match reply
    case Failed(reason) => (Err(RemoteCallFailed(reason)), s.(window := waited, log := log))
    case Replied(c) => (Answer(c), Booked(s, Book(waited, count), UsageTotal(c.usage), log))
  }

  /** The state after a successful call: the window booked, the usage added,
      the exchange logged; model, budget, temperature and limits untouched. */
  function Booked(s: ClientState, w: Window, used: nat, log: seq<Exchange>): ClientState
  {
    ClientState(s.model, s.maxTokens, s.temperature, s.limitRequests, s.limitTokens, w, s.totalTokensUsed + used, log)
  }

  /** What `create` returns for a completion the provider sent back: its first
      choice's content (the empty string when it has none), or an error when
      there is no choice at all. */
  function Answer(c: Completion): Result<Response>
  {
    if c.choices == [] then Err(MissingChoice)
    else Ok(Response(c.model, c.choices[0].content.GetOr(""), DefaultedTokens(c.usage)))
  }

  /** Once counted, `create` either rejects the request for the budget, with
      nothing sent and nothing changed, or sends it; a count equal to
      `maxTokens` is sent. */
  lemma CountedCases(s: ClientState, tokenizer: Tokenizer, messages: seq<Message>, now: int, reply: Reply, n: nat)
    requires CountTokens(tokenizer, s.model, messages) == Ok(n)
    ensures n > s.maxTokens ==>
      CreateSpec(s, tokenizer, messages, now, reply) == (Err(TokenBudgetExceeded(n, s.maxTokens)), s)
    ensures n <= s.maxTokens ==>
      CreateSpec(s, tokenizer, messages, now, reply) == SendSpec(s, messages, n, now, reply)
  {
  }

  /** A sent request is logged exactly once, with the client's current model
      and temperature, whatever the provider answers; model, budget,
      temperature and limits are untouched. */
  lemma SendLogsOnce(s: ClientState, messages: seq<Message>, n: nat, now: int, reply: Reply)
    ensures var s' := SendSpec(s, messages, n, now, reply).1;
      && s'.log == s.log + [Exchange(Request(s.model, messages, s.temperature), reply)]
      && s'.model == s.model && s'.maxTokens == s.maxTokens && s'.temperature == s.temperature
      && s'.limitRequests == s.limitRequests && s'.limitTokens == s.limitTokens
  {
  }

  /** `SendSpec` case by case, with the window and the log named. */
  lemma SendUnfolded(s: ClientState, messages: seq<Message>, n: nat, now: int, reply: Reply)
    ensures var waited := AfterWait(s.window, now, n, s.limitRequests, s.limitTokens).0;
      var logged := s.log + [Exchange(Request(s.model, messages, s.temperature), reply)];
      && (reply.Failed? ==>
            SendSpec(s, messages, n, now, reply) == (Err(RemoteCallFailed(reply.reason)), s.(window := waited, log := logged)))
      && (reply.Replied? ==>
            SendSpec(s, messages, n, now, reply) ==
            (Answer(reply.completion), Booked(s, Book(waited, n), UsageTotal(reply.completion.usage), logged)))
  {
  }

  /** A failed remote call books nothing: the window is as the rate-limit
      check left it and the running total is unchanged. */
  lemma FailedCallBooksNothing(s: ClientState, messages: seq<Message>, n: nat, now: int, reason: string)
    ensures var (r, s') := SendSpec(s, messages, n, now, Failed(reason));
      && r == Err(RemoteCallFailed(reason))
      && s'.window == AfterWait(s.window, now, n, s.limitRequests, s.limitTokens).0
      && s'.totalTokensUsed == s.totalTokensUsed
  {
  }

  /** A call the provider answered is booked whether or not it holds a choice:
      one more request and exactly the counted tokens more in the window the
      rate-limit check left, and the four usage fields added to the total.
      It succeeds exactly when there is a choice, with the first choice's
      content (or "") and the reply's own model. */
  lemma RepliedCallIsBooked(s: ClientState, messages: seq<Message>, n: nat, now: int, c: Completion)
    ensures var (r, s') := SendSpec(s, messages, n, now, Replied(c));
      var w := AfterWait(s.window, now, n, s.limitRequests, s.limitTokens).0;
      && s'.window == Book(w, n)
      && s'.totalTokensUsed == s.totalTokensUsed + UsageTotal(c.usage)
      && (r.Ok? <==> c.choices != [])
      && (r.Err? ==> r.error == MissingChoice)
      && (r.Ok? ==> r.value == Response(c.model, ReplyText(Replied(c)), DefaultedTokens(c.usage)))
  {
  }

  /** A successful `create` was within budget and answered by the provider,
      and booked as above. */
  lemma SuccessBooksOneRequest(s: ClientState, tokenizer: Tokenizer, messages: seq<Message>, now: int, reply: Reply, n: nat)
    requires CountTokens(tokenizer, s.model, messages) == Ok(n)
    requires CreateSpec(s, tokenizer, messages, now, reply).0.Ok?
    ensures reply.Replied? && n <= s.maxTokens
    ensures var (r, s') := CreateSpec(s, tokenizer, messages, now, reply);
      var w := AfterWait(s.window, now, n, s.limitRequests, s.limitTokens).0;
      && s'.window == Book(w, n)
      && r.value.tokens == DefaultedTokens(reply.completion.usage)
      && s'.totalTokensUsed == s.totalTokensUsed + UsageSum(r.value.tokens)
      && r.value.message == ReplyText(reply)
      && r.value.model == reply.completion.model
  {
    CountedCases(s, tokenizer, messages, now, reply, n);
    if reply.Replied? {
      RepliedCallIsBooked(s, messages, n, now, reply.completion);
      UsageTotalIsSum(reply.completion.usage);
    }
  }

  /** Booking a call of `n` tokens after the rate-limit check, given room for
      two requests a minute: at most limitRequests - 1 requests; if the
      window restarted during the check it holds just this call, otherwise
      the old window plus this call, below the token limit. */
  lemma BookAfterWaitBounds(w: Window, now: int, n: nat, limitRequests: int, limitTokens: int)
    requires limitRequests >= 2
    ensures var b := Book(AfterWait(w, now, n, limitRequests, limitTokens).0, n);
      && b.requests <= limitRequests - 1
      && (Restarted(w, now, n, limitRequests, limitTokens) ==> b.requests == 1 && b.tokens == n)
      && (!Restarted(w, now, n, limitRequests, limitTokens) ==>
            b.requests == w.requests + 1 && b.tokens == w.tokens + n && b.tokens < limitTokens)
      && WithinLimits(b, limitRequests, limitTokens)
  {
    var (waited, _) := AfterWait(w, now, n, limitRequests, limitTokens);
    if Restarted(w, now, n, limitRequests, limitTokens) {
      assert waited.requests == 0 && waited.tokens == 0;
    } else {
      assert waited == w;
    }
  }

  /** The rate-limit check keeps the window invariant: an empty window holds
      no tokens, and (with room for two requests) the limits hold. */
  lemma WaitKeepsWindowInvariant(w: Window, now: int, n: nat, limitRequests: int, limitTokens: int)
    requires w.requests == 0 ==> w.tokens == 0
    requires limitRequests >= 2 ==> WithinLimits(w, limitRequests, limitTokens)
    ensures var w' := AfterWait(w, now, n, limitRequests, limitTokens).0;
      && (w'.requests == 0 ==> w'.tokens == 0)
      && (limitRequests >= 2 ==> WithinLimits(w', limitRequests, limitTokens))
  {
  }

  /** Bounds of the window at the end of a successful `create`. */
  lemma WindowBoundsAfterSuccess(s: ClientState, tokenizer: Tokenizer, messages: seq<Message>, now: int, reply: Reply, n: nat)
    requires CountTokens(tokenizer, s.model, messages) == Ok(n)
    requires CreateSpec(s, tokenizer, messages, now, reply).0.Ok?
    requires s.limitRequests >= 2
    ensures var w' := CreateSpec(s, tokenizer, messages, now, reply).1.window;
      && w'.requests <= s.limitRequests - 1
      && (Restarted(s.window, now, n, s.limitRequests, s.limitTokens) ==> w'.requests == 1 && w'.tokens == n)
      && (!Restarted(s.window, now, n, s.limitRequests, s.limitTokens) ==>
            w'.requests == s.window.requests + 1 && w'.tokens == s.window.tokens + n && w'.tokens < s.limitTokens)
  {
    SuccessBooksOneRequest(s, tokenizer, messages, now, reply, n);
    BookAfterWaitBounds(s.window, now, n, s.limitRequests, s.limitTokens);
  }

  /** An expired window restarts at `now` with both counters at zero; if even
      an empty window cannot take the call, the caller sleeps one more
      minute. */
  lemma ExpiredWindowRestarts(w: Window, now: int, n: nat, limitRequests: int, limitTokens: int)
    requires now >= w.resetTime
    ensures var (w', t) := AfterWait(w, now, n, limitRequests, limitTokens);
      && w'.requests == 0 && w'.tokens == 0
      && (1 < limitRequests && n < limitTokens ==> w'.resetTime == now + WINDOW_MS && t == now)
      && (1 >= limitRequests || n >= limitTokens ==> w'.resetTime == now + 2 * WINDOW_MS && t == now + WINDOW_MS)
  {
  }

  /** Within an open window, a call that would reach a limit sleeps until the
      window closes, then restarts the window from that moment; a call that
      would not leaves the window and the time untouched. */
  lemma OpenWindowWaitsOnlyAtLimit(w: Window, now: int, n: nat, limitRequests: int, limitTokens: int)
    requires now < w.resetTime
    ensures MustWait(w, n, limitRequests, limitTokens) ==>
      AfterWait(w, now, n, limitRequests, limitTokens) == (ResetWindow(w.resetTime), w.resetTime)
    ensures !MustWait(w, n, limitRequests, limitTokens) ==>
      AfterWait(w, now, n, limitRequests, limitTokens) == (w, now)
  {
  }

  /** The caller sleeps exactly when the window restarted for lack of room,
      and then for a positive time. */
  lemma SleepIsPositive(w: Window, now: int, n: nat, limitRequests: int, limitTokens: int)
    ensures var (w', t) := AfterWait(w, now, n, limitRequests, limitTokens);
      var current := if now >= w.resetTime then ResetWindow(now) else w;
      (t > now <==> MustWait(current, n, limitRequests, limitTokens)) && (t == now || t == current.resetTime)
  {
  }

  /** The running total never decreases; it grows by exactly what this call
      charges when the call reached the provider, and not at all otherwise. */
  lemma UsageAccumulates(s: ClientState, tokenizer: Tokenizer, messages: seq<Message>, now: int, reply: Reply)
    ensures var s' := CreateSpec(s, tokenizer, messages, now, reply).1;
      && s'.totalTokensUsed >= s.totalTokensUsed
      && (s'.log == s.log ==> s'.totalTokensUsed == s.totalTokensUsed)
      && (s'.log != s.log ==> s'.totalTokensUsed == s.totalTokensUsed + Charge(reply))
  {
  }

  /** The provider's total already covers prompt and completion, so when it
      does, the running total charges it twice. */
  lemma TotalIsDoubleCounted(t: Tokens)
    requires t.total == t.prompt + t.completion
    ensures UsageSum(t) == 2 * t.total + t.reasoning
  {
  }

  /** Appending a call adds what it charges. */
  lemma ChargedAppend(log: seq<Exchange>, e: Exchange)
    ensures Charged(log + [e]) == Charged(log) + Charge(e.reply)
  {
    assert (log + [e])[..|log|] == log;
  }

  /** Sending keeps the running total equal to what the log charges. */
  lemma SendKeepsTotal(s: ClientState, messages: seq<Message>, n: nat, now: int, reply: Reply)
    requires s.totalTokensUsed == Charged(s.log)
    ensures var s' := SendSpec(s, messages, n, now, reply).1; s'.totalTokensUsed == Charged(s'.log)
  {
    SendLogsOnce(s, messages, n, now, reply);
    ChargedAppend(s.log, Exchange(Request(s.model, messages, s.temperature), reply));
    match reply
    case Failed(reason) =>
      FailedCallBooksNothing(s, messages, n, now, reason);
    case Replied(c) =>
      RepliedCallIsBooked(s, messages, n, now, c);
  }

  /** Sending keeps an empty window free of tokens. */
  lemma SendKeepsEmptyWindowEmpty(s: ClientState, messages: seq<Message>, n: nat, now: int, reply: Reply)
    requires s.window.requests == 0 ==> s.window.tokens == 0
    requires s.limitRequests >= 2 ==> WithinLimits(s.window, s.limitRequests, s.limitTokens)
    ensures var w := SendSpec(s, messages, n, now, reply).1.window; w.requests == 0 ==> w.tokens == 0
  {
    match reply
    case Failed(reason) =>
      FailedCallBooksNothing(s, messages, n, now, reason);
      WaitKeepsWindowInvariant(s.window, now, n, s.limitRequests, s.limitTokens);
    case Replied(c) =>
      RepliedCallIsBooked(s, messages, n, now, c);
  }

  /** Sending keeps the window within its limits, given room for two
      requests a minute. */
  lemma SendKeepsLimits(s: ClientState, messages: seq<Message>, n: nat, now: int, reply: Reply)
    requires s.window.requests == 0 ==> s.window.tokens == 0
    requires s.limitRequests >= 2 && WithinLimits(s.window, s.limitRequests, s.limitTokens)
    ensures WithinLimits(SendSpec(s, messages, n, now, reply).1.window, s.limitRequests, s.limitTokens)
  {
    match reply
    case Failed(reason) =>
      FailedCallBooksNothing(s, messages, n, now, reason);
      WaitKeepsWindowInvariant(s.window, now, n, s.limitRequests, s.limitTokens);
    case Replied(c) =>
      RepliedCallIsBooked(s, messages, n, now, c);
      BookAfterWaitBounds(s.window, now, n, s.limitRequests, s.limitTokens);
  }

  /** Sending keeps the object invariant. */
  lemma SendPreservesInvariant(s: ClientState, messages: seq<Message>, n: nat, now: int, reply: Reply)
    requires ClientInvariant(s)
    ensures ClientInvariant(SendSpec(s, messages, n, now, reply).1)
  {
    SendLogsOnce(s, messages, n, now, reply);
    SendKeepsTotal(s, messages, n, now, reply);
    SendKeepsEmptyWindowEmpty(s, messages, n, now, reply);
    if s.limitRequests >= 2 {
      SendKeepsLimits(s, messages, n, now, reply);
    }
  }

  /** `create` sends at most the request it was given, logged with the
      client's model and temperature, and always sends it when it succeeds,
      returning the reply's text; model, budget, temperature and limits are
      untouched. */
  lemma CreateLogsAtMostOnce(s: ClientState, tokenizer: Tokenizer, messages: seq<Message>, now: int, reply: Reply)
    ensures var (r, s') := CreateSpec(s, tokenizer, messages, now, reply);
      var sent := s.log + [Exchange(Request(s.model, messages, s.temperature), reply)];
      && (s'.log == s.log || s'.log == sent)
      && (r.Ok? ==> s'.log == sent && r.value.message == ReplyText(reply))
      && s'.model == s.model && s'.maxTokens == s.maxTokens && s'.temperature == s.temperature
      && s'.limitRequests == s.limitRequests && s'.limitTokens == s.limitTokens
  {
    match CountTokens(tokenizer, s.model, messages)
    case Err(_) =>
    case Ok(n) =>
      CountedCases(s, tokenizer, messages, now, reply, n);
      SendLogsOnce(s, messages, n, now, reply);
      if reply.Replied? {
        RepliedCallIsBooked(s, messages, n, now, reply.completion);
      }
  }

  /** The reasons `create` fails for: an unknown model, the budget, the
      remote call, or a completion without a choice. */
  predicate CallError(e: Error) {
    e.ModelNotSupported? || e.TokenBudgetExceeded? || e.RemoteCallFailed? || e.MissingChoice?
  }

  lemma CreateFailsOnlyForCalls(s: ClientState, tokenizer: Tokenizer, messages: seq<Message>, now: int, reply: Reply)
    ensures var r := CreateSpec(s, tokenizer, messages, now, reply).0;
      r.Err? ==> CallError(r.error)
  {
    match CountTokens(tokenizer, s.model, messages)
    case Err(_) =>
    case Ok(n) =>
      CountedCases(s, tokenizer, messages, now, reply, n);
      if n <= s.maxTokens && reply.Replied? {
        RepliedCallIsBooked(s, messages, n, now, reply.completion);
      }
  }

  /** `create` keeps the object invariant. */
  lemma CreatePreservesInvariant(s: ClientState, tokenizer: Tokenizer, messages: seq<Message>, now: int, reply: Reply)
    requires ClientInvariant(s)
    ensures ClientInvariant(CreateSpec(s, tokenizer, messages, now, reply).1)
  {
    match CountTokens(tokenizer, s.model, messages)
    case Err(_) =>
    case Ok(n) =>
      CountedCases(s, tokenizer, messages, now, reply, n);
      if n <= s.maxTokens {
        SendPreservesInvariant(s, messages, n, now, reply);
      }
  }

  // ---------------------------------------------------------------------------
  // The client object

  class Completions {
    var totalTokensUsed: nat
    var maxTokens: int
    var model: string
    var temperature: real
    var limitRequests: int
    var limitTokens: int
    var requestsCount: nat
    var tokensCount: nat
    var resetTime: int
    const tokenizer: Tokenizer
    /** Every remote call made through this object, in order. */
    ghost var log: seq<Exchange>

    ghost function State(): ClientState
      reads this
    {
      ClientState(model, maxTokens, temperature, limitRequests, limitTokens,
                  Window(requestsCount, tokensCount, resetTime), totalTokensUsed, log)
    }

    ghost predicate Valid()
      reads this
    {
      ClientInvariant(State())
    }

    constructor (maxTokens: int, model: string, temperature: real, tokenizer: Tokenizer, now: int)
      ensures State() == InitialState(maxTokens, model, temperature, now)
      ensures this.tokenizer == tokenizer
      ensures Valid()
    {
      this.maxTokens := maxTokens;
      this.model := model;
      this.temperature := temperature;
      this.tokenizer := tokenizer;
      totalTokensUsed := 0;
      limitRequests := DEFAULT_LIMIT_REQUESTS;
      limitTokens := DEFAULT_LIMIT_TOKENS;
      requestsCount := 0;
      tokensCount := 0;
      resetTime := now + WINDOW_MS;
      log := [];
    }

    /** `fromArgs`: each setting from the arguments when given, else from the
        command's defaults. */
    static method FromArgs(args: CompletionsArgs, defaults: Defaults, tokenizer: Tokenizer, now: int)
      returns (c: Completions)
      ensures fresh(c) && c.Valid() && c.tokenizer == tokenizer
      ensures c.State() == InitialState(args.maxTokens.GetOr(defaults.maxTokens), args.model.GetOr(defaults.model),
                                        args.temperature.GetOr(defaults.temperature), now)
    {
      c := new Completions(args.maxTokens.GetOr(defaults.maxTokens), args.model.GetOr(defaults.model),
                           args.temperature.GetOr(defaults.temperature), tokenizer, now);
    }

    method GetUsedTokens() returns (n: nat)
      requires Valid()
      ensures n == totalTokensUsed == Charged(log)
    {
      n := totalTokensUsed;
    }

    /** `changeModel`: only the model changes. */
    method ChangeModel(newModel: string)
      modifies this
      ensures State() == old(State()).(model := newModel)
      ensures old(Valid()) ==> Valid()
    {
      model := newModel;
    }

    method ResetRateLimit(now: int)
      modifies this
      ensures State() == old(State()).(window := ResetWindow(now))
    {
      requestsCount := 0;
      tokensCount := 0;
      resetTime := now + WINDOW_MS;
    }

    /** `waitForRateLimit`; returns the time at which the caller resumes. */
    method WaitForRateLimit(newTokens: nat, now: int) returns (resumed: int)
      modifies this
      ensures (State().window, resumed) == AfterWait(old(State().window), now, newTokens, limitRequests, limitTokens)
      ensures State() == old(State()).(window := State().window)
    {
      if now >= resetTime {
        ResetRateLimit(now);
      }
      resumed := now;
      if requestsCount + 1 >= limitRequests || tokensCount + newTokens >= limitTokens {
        var waitTime := resetTime - now;
        resumed := now + waitTime;
        ResetRateLimit(resumed);
      }
    }

    /** `create(messages)` at time `now`, the provider answering `reply`. */
    method Create(messages: seq<Message>, now: int, reply: Reply) returns (r: Result<Response>)
      requires Valid()
      modifies this
      ensures Valid()
      ensures (r, State()) == CreateSpec(old(State()), tokenizer, messages, now, reply)
      ensures model == old(model) && temperature == old(temperature) && maxTokens == old(maxTokens)
      ensures log == old(log) || log == old(log) + [Exchange(Request(model, messages, temperature), reply)]
      ensures r.Ok? ==> log == old(log) + [Exchange(Request(model, messages, temperature), reply)]
      ensures r.Ok? ==> r.value.message == ReplyText(reply)
    {
      ghost var s := State();
      var counted := CountTokens(tokenizer, model, messages);
      if counted.Err? {
        return Err(counted.error);
      }
      var totalTokens := counted.value;
      CountedCases(s, tokenizer, messages, now, reply, totalTokens);
      if totalTokens > maxTokens {
        return Err(TokenBudgetExceeded(totalTokens, maxTokens));
      }
      SendLogsOnce(s, messages, totalTokens, now, reply);
      SendPreservesInvariant(s, messages, totalTokens, now, reply);
      if reply.Replied? {
        RepliedCallIsBooked(s, messages, totalTokens, now, reply.completion);
      }
      r := Send(messages, totalTokens, now, reply);
    }

    /** The part of `create` after the budget check. */
    method Send(messages: seq<Message>, totalTokens: nat, now: int, reply: Reply) returns (r: Result<Response>)
      modifies this
      ensures (r, State()) == SendSpec(old(State()), messages, totalTokens, now, reply)
    {
      ghost var s := State();
      var _ := WaitForRateLimit(totalTokens, now);
      log := log + [Exchange(Request(model, messages, temperature), reply)];
      SendUnfolded(s, messages, totalTokens, now, reply);
      match reply {
        case Failed(reason) =>
          r := Err(RemoteCallFailed(reason));
        case Replied(completion) =>
          r := Record(completion, totalTokens);
      }
    }

    /** Books a call the provider answered and returns what `create` returns
        for it. */
    method Record(completion: Completion, totalTokens: nat) returns (r: Result<Response>)
      modifies this
      ensures r == Answer(completion)
      ensures State() == Booked(old(State()), Book(old(State().window), totalTokens),
                                UsageTotal(completion.usage), old(log))
    {
      requestsCount := requestsCount + 1;
      tokensCount := tokensCount + totalTokens;
      var tokens := DefaultedTokens(completion.usage);
      totalTokensUsed := totalTokensUsed + UsageSum(tokens);
      UsageTotalIsSum(completion.usage);
      if completion.choices == [] {
        return Err(MissingChoice);
      }
      r := Ok(Response(completion.model, completion.choices[0].content.GetOr(""), tokens));
    }
  }
}
