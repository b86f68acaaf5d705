/** The OpenAI completions client of `src/open_ai_api/open_ai/mod.rs`:
    the newline escape and request payload of `generate_prompt`, the model
    ids, the client defaults, the response simplification and the request
    pipeline with the network call as a parameter. */
module OpenAi {
  import opened Wrappers

  /** Rust's `u64`. */
  type U64 = x: int | 0 <= x < 0x1_0000_0000_0000_0000

  // ---------------------------------------------------------------------
  // Response envelope and its simplification
  // ---------------------------------------------------------------------

  datatype Message = Message(role: string, content: string)

  datatype Choice = Choice(index: U64, message: Message)

  /** The completions reply as parsed field for field (`object` is a
      reserved word in Dafny, hence `objectKind`). */
  datatype CompletionsResponseBody = CompletionsResponseBody(
    id: string,
    objectKind: string,
    created: U64,
    model: string,
    choices: seq<Choice>)

  datatype SimplifiedResponse = SimplifiedResponse(
    answer: Option<string>,
    followUpQuery: Option<string>)

  const NoChoiceError: string := "failed to get the choice from response"

  /** `TryFrom<OpenAiCompletionsResponseBody> for OpenAiSimplifiedResponse`:
      the first choice's content becomes the answer; no choice at all is an
      error, never an empty answer. */
  function TryFromResponseBody(body: CompletionsResponseBody): (r: Result<SimplifiedResponse, string>)
    ensures r.Failure? <==> |body.choices| == 0
    ensures r.Failure? ==> r.error == NoChoiceError
    ensures r.Success? ==> r.value.answer == Some(body.choices[0].message.content)
    ensures r.Success? ==> r.value.followUpQuery.None?
  {
    if |body.choices| == 0 then Failure(NoChoiceError)
    else Success(SimplifiedResponse(Some(body.choices[0].message.content), None))
  }

  /** The metadata fields, the first choice's index and role, and every
      later choice have no effect on the simplified response. */
  lemma TryFromDependsOnlyOnFirstContent(a: CompletionsResponseBody, b: CompletionsResponseBody)
    requires (|a.choices| == 0) == (|b.choices| == 0)
    requires |a.choices| > 0 ==> a.choices[0].message.content == b.choices[0].message.content
    ensures TryFromResponseBody(a) == TryFromResponseBody(b)
  {
  }

  // ---------------------------------------------------------------------
  // Models
  // ---------------------------------------------------------------------

  datatype OpenAiModel = Gpt35_16k | Gpt40_32k

  const Gpt35_16kId: string := "gpt-3.5-turbo-16k"
  const Gpt40UnavailableMessage: string :=
    "gpt 4.0 is not available yet through the API even thought it was announced in the first week of July"

  /** `OpenAiModel::value`: the wire id of a model. GPT-4 was announced but
      has no id yet, and asking for it panics. */
  function Value(m: OpenAiModel): (r: Outcome<string>)
    ensures r.Returned? <==> m == Gpt35_16k
    ensures r.Returned? ==> r.value == "gpt-3.5-turbo-16k"
    ensures r.Panicked? ==> r.message == Gpt40UnavailableMessage
  {
    match m
    case Gpt35_16k => Returned(Gpt35_16kId)
    case Gpt40_32k => Panicked(Gpt40UnavailableMessage)
  }

  // ---------------------------------------------------------------------
  // Client construction
  // ---------------------------------------------------------------------

  datatype OpenAiClient = OpenAiClient(model: OpenAiModel, token: string)

  /** `std::env::VarError`: the variable is unset, or its value is not
      valid Unicode (`debugText` is the `Debug` rendering of that raw
      value). */
  datatype VarError = NotPresent | NotUnicode(debugText: string)

  /** The derived `Debug` rendering of a `VarError`. */
  function VarErrorDebug(e: VarError): string
  {
    match e
    case NotPresent => "NotPresent"
    case NotUnicode(d) => "NotUnicode(" + d + ")"
  }

  const MissingTokenExpectation: string := "could not find OPEN_AI_TOKEN environment variable"

  /** The panic message of `Result::expect`: the expectation, a colon and
      the error's `Debug` rendering. */
  function ExpectMessage(expectation: string, e: VarError): string
  {
    expectation + ": " + VarErrorDebug(e)
  }

  /** `OpenAiClient::new`. `envToken` is what reading the `OPEN_AI_TOKEN`
      environment variable gives once the `.env` file has been loaded; it is
      consulted only when no token override is given, and an error there
      panics through `expect`. */
  function New(modelOverride: Option<OpenAiModel>, tokenOverride: Option<string>,
               envToken: Result<string, VarError>): (r: Outcome<OpenAiClient>)
    ensures r.Panicked? <==> tokenOverride.None? && envToken.Failure?
    ensures r.Panicked? ==> r.message == ExpectMessage(MissingTokenExpectation, envToken.error)
    ensures r.Returned? && modelOverride.None? ==> r.value.model == Gpt35_16k
    ensures r.Returned? && modelOverride.Some? ==> r.value.model == modelOverride.value
    ensures r.Returned? && tokenOverride.Some? ==> r.value.token == tokenOverride.value
    ensures r.Returned? && tokenOverride.None? ==> r.value.token == envToken.value
  {
    var model := if modelOverride.Some? then modelOverride.value else Gpt35_16k;
    if tokenOverride.Some? then Returned(OpenAiClient(model, tokenOverride.value))
    else match envToken
      case Success(t) => Returned(OpenAiClient(model, t))
      case Failure(e) => Panicked(ExpectMessage(MissingTokenExpectation, e))
  }

  /** With neither an override nor the variable set, the panic names the
      missing variable and `NotPresent`. */
  lemma NewWithoutAnyToken(m: Option<OpenAiModel>)
    ensures New(m, None, Failure(NotPresent))
            == Panicked("could not find OPEN_AI_TOKEN environment variable: NotPresent")
  {
  }

  /** With a token override the environment is never consulted. */
  lemma NewWithTokenIgnoresEnvironment(m: Option<OpenAiModel>, t: string,
                                       e1: Result<string, VarError>, e2: Result<string, VarError>)
    ensures New(m, Some(t), e1) == New(m, Some(t), e2) == Returned(OpenAiClient(if m.Some? then m.value else Gpt35_16k, t))
  {
  }

  // ---------------------------------------------------------------------
  // Newline escape of `generate_prompt`
  // ---------------------------------------------------------------------

  /** What one character of the prompt becomes. */
  function EscapeChar(c: char): string
  {
    if c == '\n' then "\\n" else [c]
  }

  /** `prompt.replace("\n", "\\n")`: every newline becomes a backslash
      followed by `n`; every other character is copied in order. */
  function EscapeNewlines(s: string): (r: string)
    ensures |r| == |s| + multiset(s)['\n']
    ensures '\n' !in r
  {
    if s == [] then []
    else
      assert s == [s[0]] + s[1..];
      EscapeChar(s[0]) + EscapeNewlines(s[1..])
  }

  /** Escaping works character by character, so it distributes over
      concatenation. */
  lemma {:induction false} EscapeAppend(a: string, b: string)
    ensures EscapeNewlines(a + b) == EscapeNewlines(a) + EscapeNewlines(b)
  {
    if a == [] {
      assert a + b == b;
    } else {
      var ab := a + b;
      assert ab[0] == a[0];
      assert ab[1..] == a[1..] + b;
      EscapeAppend(a[1..], b);
      calc {
        EscapeNewlines(ab);
        EscapeChar(a[0]) + EscapeNewlines(a[1..] + b);
        EscapeChar(a[0]) + (EscapeNewlines(a[1..]) + EscapeNewlines(b));
        (EscapeChar(a[0]) + EscapeNewlines(a[1..])) + EscapeNewlines(b);
      }
    }
  }

  /** Where character `i` of the input lands in the output: after the
      `i` characters before it and one extra per newline among them. A
      newline becomes `\` then `n`; any other character is copied. */
  lemma EscapeAt(s: string, i: int)
    requires 0 <= i < |s|
    ensures var pos := i + multiset(s[..i])['\n'];
            var r := EscapeNewlines(s);
            && (s[i] == '\n' ==> pos + 1 < |r| && r[pos] == '\\' && r[pos + 1] == 'n')
            && (s[i] != '\n' ==> pos < |r| && r[pos] == s[i])
  {
    assert s == s[..i] + s[i..];
    EscapeAppend(s[..i], s[i..]);
    var t := s[i..];
    assert t[0] == s[i];
  }

  /** A string without newlines is left unchanged. */
  lemma {:induction false} EscapeNewlineFree(s: string)
    requires '\n' !in s
    ensures EscapeNewlines(s) == s
  {
    if s != [] {
      assert s[0] != '\n';
      assert '\n' !in s[1..];
      EscapeNewlineFree(s[1..]);
      assert s == [s[0]] + s[1..];
    }
  }

  /** Escaping twice is escaping once. */
  lemma EscapeIdempotent(s: string)
    ensures EscapeNewlines(EscapeNewlines(s)) == EscapeNewlines(s)
  {
    EscapeNewlineFree(EscapeNewlines(s));
  }

  /** The escape is not injective: a literal backslash-n and a newline
      produce the same text. */
  lemma EscapeNotInjective()
    ensures "\\n" != "\n" && EscapeNewlines("\\n") == EscapeNewlines("\n")
  {
    assert EscapeNewlines("n") == "n";
    assert EscapeNewlines("\\n") == "\\" + EscapeNewlines("n");
  }

  /** The inverse of the escape on inputs that contain no literal
      backslash-n pair: a backslash-n pair becomes a newline again. */
  function UnescapeNewlines(s: string): string
  {
    if |s| >= 2 && s[0] == '\\' && s[1] == 'n' then "\n" + UnescapeNewlines(s[2..])
    else if s == [] then []
    else [s[0]] + UnescapeNewlines(s[1..])
  }

  predicate NoLiteralBackslashN(s: string)
  {
    forall i :: 0 <= i < |s| - 1 ==> !(s[i] == '\\' && s[i + 1] == 'n')
  }

  /** The escape keeps the first character unless it is a newline. */
  lemma EscapeHead(s: string)
    requires s != []
    ensures EscapeNewlines(s) != []
    ensures EscapeNewlines(s)[0] == (if s[0] == '\n' then '\\' else s[0])
  {
  }

  /** Unescaping a lone character copies it, unless it opens a
      backslash-n pair. */
  lemma UnescapeCons(c: char, t: string)
    requires !(c == '\\' && t != [] && t[0] == 'n')
    ensures UnescapeNewlines([c] + t) == [c] + UnescapeNewlines(t)
  {
    assert ([c] + t)[1..] == t;
  }

  /** Unescaping an escaped newline gives the newline back. */
  lemma UnescapePair(t: string)
    ensures UnescapeNewlines("\\n" + t) == "\n" + UnescapeNewlines(t)
  {
    assert ("\\n" + t)[2..] == t;
  }

  lemma NoLiteralBackslashNTail(s: string)
    requires s != [] && NoLiteralBackslashN(s)
    ensures NoLiteralBackslashN(s[1..])
  {
    var rest := s[1..];
    forall i | 0 <= i < |rest| - 1 ensures !(rest[i] == '\\' && rest[i + 1] == 'n') {
      assert rest[i] == s[i + 1] && rest[i + 1] == s[i + 2];
    }
  }

  /** Unescaping recovers the prompt, provided the prompt has no literal
      backslash-n pair (the only source of collisions). */
  lemma {:induction false} UnescapeEscape(s: string)
    requires NoLiteralBackslashN(s)
    ensures UnescapeNewlines(EscapeNewlines(s)) == s
  {
    if s != [] {
      var rest := s[1..];
      NoLiteralBackslashNTail(s);
      UnescapeEscape(rest);
      var er := EscapeNewlines(rest);
      assert EscapeNewlines(s) == EscapeChar(s[0]) + er;
      if s[0] == '\n' {
        UnescapePair(er);
      } else {
        if rest != [] {
          EscapeHead(rest);
          assert s[0] == '\\' ==> rest[0] != 'n';
        }
        UnescapeCons(s[0], er);
      }
      assert s == [s[0]] + rest;
    }
  }

  // ---------------------------------------------------------------------
  // Request payload
  // ---------------------------------------------------------------------

  const UserRole: string := "user"

  /** The fixed sampling temperature, `0.01` in the source's `f32`. */
  const Temperature: real := 0.01

  /** The `Prompt` struct that `generate_prompt` serialises. */
  datatype Prompt = Prompt(model: OpenAiModel, messages: seq<Message>, temperature: real)

  /** `OpenAiClient::generate_prompt`, before JSON text: a single user
      message holding the escaped prompt, the client's model and the fixed
      temperature. Serialising the model calls `Value`, so a client set to
      an unavailable model panics here, before any network call. */
  function GeneratePrompt(client: OpenAiClient, prompt: string): (r: Outcome<Prompt>)
    ensures r.Panicked? <==> Value(client.model).Panicked?
    ensures r.Panicked? ==> r.message == Gpt40UnavailableMessage
    ensures r.Returned? ==>
      && |r.value.messages| == 1
      && r.value.messages[0].role == "user"
      && r.value.messages[0].content == EscapeNewlines(prompt)
      && r.value.model == client.model
      && r.value.temperature == Temperature
  {
    var payload := Prompt(client.model, [Message(UserRole, EscapeNewlines(prompt))], Temperature);
    match Value(client.model)
    case Panicked(msg) => Panicked(msg)
    case Returned(_) => Returned(payload)
  }

  /** What the payload carries: no raw newline, one extra character per
      newline of the prompt, and the prompt itself when it has no literal
      backslash-n pair. */
  lemma GeneratePromptContent(client: OpenAiClient, prompt: string)
    requires client.model == Gpt35_16k
    ensures GeneratePrompt(client, prompt).Returned?
    ensures var content := GeneratePrompt(client, prompt).value.messages[0].content;
            && '\n' !in content
            && |content| == |prompt| + multiset(prompt)['\n']
            && (NoLiteralBackslashN(prompt) ==> UnescapeNewlines(content) == prompt)
  {
    if NoLiteralBackslashN(prompt) {
      UnescapeEscape(prompt);
    }
  }

  // ---------------------------------------------------------------------
  // Request pipeline
  // ---------------------------------------------------------------------

  const CallErrorPrefix: string := "error while calling OpenAI: "

  /** `OpenAiClient::perform_request`, with `callOpenAi` standing for the
      HTTPS exchange of `call_open_ai`: it is given the client's token (sent
      as the bearer credential) and the payload, and may return an error
      string or panic on its `unwrap`s. */
  function PerformRequest(client: OpenAiClient, prompt: string,
                          callOpenAi: (string, Prompt) -> Outcome<Result<CompletionsResponseBody, string>>)
    : (r: Outcome<Result<SimplifiedResponse, string>>)
    ensures Value(client.model).Panicked? ==> r == Panicked(Gpt40UnavailableMessage)
    ensures Value(client.model).Returned? ==>
      var payload := GeneratePrompt(client, prompt).value;
      match callOpenAi(client.token, payload)
      case Panicked(msg) => r == Panicked(msg)
      case Returned(Failure(e)) => r == Returned(Failure(CallErrorPrefix + e))
      case Returned(Success(body)) => r == Returned(TryFromResponseBody(body))
  {
    match GeneratePrompt(client, prompt)
    case Panicked(msg) => Panicked(msg)
    case Returned(payload) =>
      match callOpenAi(client.token, payload)
      case Panicked(msg) => Panicked(msg)
      case Returned(Failure(e)) => Returned(Failure(CallErrorPrefix + e))
      case Returned(Success(body)) => Returned(TryFromResponseBody(body))
  }

  /** A successful request always carries an answer, and a reply without
      choices is reported as the missing-choice error. */
  lemma PerformRequestNeverEmptyAnswer(client: OpenAiClient, prompt: string,
                                       callOpenAi: (string, Prompt) -> Outcome<Result<CompletionsResponseBody, string>>)
    ensures var r := PerformRequest(client, prompt, callOpenAi);
            r.Returned? && r.value.Success? ==> r.value.value.answer.Some? && r.value.value.followUpQuery.None?
    ensures client.model == Gpt35_16k ==>
            var payload := GeneratePrompt(client, prompt).value;
            callOpenAi(client.token, payload).Returned? && callOpenAi(client.token, payload).value.Success? &&
            |callOpenAi(client.token, payload).value.value.choices| == 0 ==>
            PerformRequest(client, prompt, callOpenAi) == Returned(Failure(NoChoiceError))
  {
  }

  /** A client set to the unavailable model fails the same way whatever the
      network would have answered: the call is never made. */
  lemma UnavailableModelFailsBeforeCall(client: OpenAiClient, prompt: string,
                                        c1: (string, Prompt) -> Outcome<Result<CompletionsResponseBody, string>>,
                                        c2: (string, Prompt) -> Outcome<Result<CompletionsResponseBody, string>>)
    requires client.model == Gpt40_32k
    ensures PerformRequest(client, prompt, c1) == PerformRequest(client, prompt, c2)
    ensures PerformRequest(client, prompt, c1).Panicked?
  {
  }
}
