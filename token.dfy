/** Token arithmetic of a prospective request: the encoded length of every
    message plus fixed per-message and trailing overheads. */
module Token {
  import opened Wrappers
  import opened Cli

  /** A model's tokenizer: the token ids of a text. */
  type Encoder = string -> seq<nat>

  /** `encoding_for_model`: the encoder of a model, None when the model has
      no known encoding (the library throws). */
  type Tokenizer = string -> Option<Encoder>

  const ROLE_TOKENS: nat := 1              // role and structure
  const SPECIAL_TOKENS: nat := 3           // <|im_start|>, <|im_sep|>, <|im_end|>
  const FINAL_ASSISTANT_TOKENS: nat := 3   // the assistant reply preamble

  function CountTokensForMessage(enc: Encoder, m: Message): nat {
    |enc(m.content)| + ROLE_TOKENS + SPECIAL_TOKENS
  }

  /** `reduce((total, current) => total + current, 0)`: a left fold. */
  function Sum(xs: seq<nat>): nat {
    if xs == [] then 0 else Sum(xs[..|xs| - 1]) + xs[|xs| - 1]
  }

  function PerMessage(enc: Encoder, messages: seq<Message>): (r: seq<nat>)
    ensures |r| == |messages|
  {
    seq(|messages|, i requires 0 <= i < |messages| => CountTokensForMessage(enc, messages[i]))
  }

  lemma {:induction false} SumLowerBound(xs: seq<nat>, lo: nat)
    requires forall i :: 0 <= i < |xs| ==> xs[i] >= lo
    ensures Sum(xs) >= lo * |xs|
    decreases |xs|
  {
    if xs != [] {
      SumLowerBound(xs[..|xs| - 1], lo);
    }
  }

  /** `countTokensForMessages` with an encoder in hand. An empty request
      counts 3, and every message costs at least its 4 overhead tokens. */
  function CountTokensForMessages(enc: Encoder, messages: seq<Message>): (n: nat)
    ensures messages == [] ==> n == 3
    ensures n >= 4 * |messages| + 3
  {
    SumLowerBound(PerMessage(enc, messages), 4);
    Sum(PerMessage(enc, messages)) + FINAL_ASSISTANT_TOKENS
  }

  /** `countTokens(model, messages)`: fails when the model has no encoder. */
  function CountTokens(tokenizer: Tokenizer, model: string, messages: seq<Message>): (r: Result<nat>)
    ensures r.Err? <==> tokenizer(model).None?
    ensures r.Err? ==> r.error == ModelNotSupported(model)
    ensures r.Ok? ==> r.value >= 4 * |messages| + 3
  {
    match tokenizer(model)
    case None => Err(ModelNotSupported(model))
    case Some(enc) => Ok(CountTokensForMessages(enc, messages))
  }

  /** Appending one message adds its encoded length plus 4. */
  lemma CountAppend(enc: Encoder, messages: seq<Message>, m: Message)
    ensures CountTokensForMessages(enc, messages + [m]) ==
            CountTokensForMessages(enc, messages) + |enc(m.content)| + 4
  {
    var all := PerMessage(enc, messages + [m]);
    assert all[..|all| - 1] == PerMessage(enc, messages);
  }

  /** The count of a concatenation: the trailing overhead is paid once. */
  lemma {:induction false} CountConcat(enc: Encoder, a: seq<Message>, b: seq<Message>)
    ensures CountTokensForMessages(enc, a + b) ==
            CountTokensForMessages(enc, a) + CountTokensForMessages(enc, b) - 3
    decreases |b|
  {
    if b == [] {
      assert a + b == a;
    } else {
      var init, last := b[..|b| - 1], b[|b| - 1];
      assert a + b == (a + init) + [last];
      assert b == init + [last];
      CountConcat(enc, a, init);
      CountAppend(enc, a + init, last);
      CountAppend(enc, init, last);
    }
  }

  /** The count is the trailing overhead plus, per message, its encoded
      length and 4. */
  lemma {:induction false} CountIsSumOfContributions(enc: Encoder, messages: seq<Message>)
    ensures CountTokensForMessages(enc, messages) ==
            Sum(seq(|messages|, i requires 0 <= i < |messages| => |enc(messages[i].content)| + 4)) + 3
    decreases |messages|
  {
    var f := seq(|messages|, i requires 0 <= i < |messages| => |enc(messages[i].content)| + 4);
    if messages != [] {
      var init := messages[..|messages| - 1];
      CountIsSumOfContributions(enc, init);
      CountAppend(enc, init, messages[|messages| - 1]);
      assert messages == init + [messages[|messages| - 1]];
      assert f[..|f| - 1] == seq(|init|, i requires 0 <= i < |init| => |enc(init[i].content)| + 4);
    }
  }

  /** Only contents count: two requests with the same contents, whatever
      their roles, have the same count. */
  lemma {:induction false} CountIgnoresRoles(enc: Encoder, a: seq<Message>, b: seq<Message>)
    requires |a| == |b|
    requires forall i :: 0 <= i < |a| ==> a[i].content == b[i].content
    ensures CountTokensForMessages(enc, a) == CountTokensForMessages(enc, b)
    decreases |a|
  {
    if a != [] {
      var n := |a| - 1;
      CountIgnoresRoles(enc, a[..n], b[..n]);
      assert a == a[..n] + [a[n]] && b == b[..n] + [b[n]];
      CountAppend(enc, a[..n], a[n]);
      CountAppend(enc, b[..n], b[n]);
    }
  }
}
