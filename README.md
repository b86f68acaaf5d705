# rust-llm-utils in Dafny

A model of the pure core of `rust-llm-utils`, a small Rust client for the
OpenAI chat-completions API, with proofs of what each operation promises.

- `open_ai.dfy` (module `OpenAi`, from `src/open_ai_api/open_ai/mod.rs`):
  the newline escape and the `Prompt` payload built by
  `OpenAiClient::generate_prompt`; the model ids of `OpenAiModel::value`;
  the defaults chosen by `OpenAiClient::new`; the simplification of a
  completions reply (`TryFrom<OpenAiCompletionsResponseBody>`); and
  `perform_request` with the network exchange passed in as a function.
- `zero_shot_prompt.dfy` (`ZeroShotPrompts`) and `multi_shot_prompt.dfy`
  (`MultiShotPrompts`): the identity prompt wrappers, the
  `MultiShotExampleCount` discriminants and the five-entry shape of an
  example source (`[String; 5]`, the subset type `FiveExamples`).
- `test_prompts.dfy` (`TestPrompts`): the `WeatherInTwoLanguages` topic
  prompt and its five worked weather examples.
- `fix_code.dfy` (`FixCode`): the `FixRustCode` topic prompt.
- `templates.dfy` (`Templates`): `format!` with one placeholder between two
  fixed texts, shared by both topic prompts.
- `wrappers.dfy` (`Wrappers`): `Option`, `Result`, and `Outcome`, which
  tells a returned value from a panic.

Almost every operation of the core is a pure function in the source
(struct literals, `match`, `if let`, `replace`, `format!`, `clone`), and
each is a Dafny function over datatypes. Two are not pure:
`OpenAiClient::new`'s token fallback loads the `.env` file into the process
environment and reads a process-wide lazily initialised variable, and
`perform_request` is asynchronous and makes a network call. The model keeps
their pure logic as functions and passes the effectful part in as a
parameter (`envToken` and `callOpenAi`). A Rust panic is the `Panicked` case of
`Outcome`, kept apart from `Result` errors, which the caller handles.

Decisions that shape the model:

- `generate_prompt` returns JSON text. The model returns the `Prompt`
  datatype before serialisation. Serialising the model field calls
  `OpenAiModel::value`, so `GeneratePrompt` panics exactly when the client's
  model is `Gpt40_32k`.
- What reading the `OPEN_AI_TOKEN` environment variable gives (after the
  `.env` file is loaded) is the parameter `envToken` of `OpenAi.New`: the
  token, or a `VarError` (`NotPresent` or `NotUnicode`). An error panics
  through `expect`, whose message is the expectation, `": "` and the
  error's `Debug` rendering.
- In `PerformRequest` the HTTPS exchange of `call_open_ai` is the
  parameter `callOpenAi`. It receives the client's token (which the source
  sends as the `Authorization: Bearer` header) and the payload. It may
  return a reply, an error string, or panic.
- The temperature is the `f32` literal `0.01`. Here it is the `real`
  constant `0.01`.
- The weather examples are kept code point for code point as the source
  file holds them. In that file the emoji are stored in a mis-decoded form
  (for example U+00E2 U+02DC U+20AC U+00EF U+00B8 where a sun emoji was
  meant), and the Rust compiler would embed those characters.
- A topic prompt's constructor is `new_from_prompt_template` in both
  implementations, although the `TopicPrompt` trait declares `new`. The
  model follows the implementations.
- The escape is not injective (lemma `OpenAi.EscapeNotInjective`): a
  literal backslash-n in a prompt escapes to the same text as a newline.
  Unescaping recovers the prompt only when it holds no literal
  backslash-n, which is what `OpenAi.UnescapeEscape` requires.
- A multi-shot prompt that puts the first N examples before a
  `question:` line appears only in a doc comment of
  `src/prompt_types/multi_shot_prompt/mod.rs`; no function in the code
  builds it, so the model leaves that composer out.

## Model

| member | source | states |
|---|---|---|
| `OpenAi.TryFromResponseBody` | src/open_ai_api/open_ai/mod.rs:32-47 | fails if and only if there are no choices, with the message "failed to get the choice from response"; otherwise the answer is the first choice's content and there is no follow-up query |
| `OpenAi.TryFromDependsOnlyOnFirstContent` | src/open_ai_api/open_ai/mod.rs:35-45 | id, object, created, model, the first choice's index and role, and every later choice do not affect the result |
| `OpenAi.Value` | src/open_ai_api/open_ai/mod.rs:80-87 | returns a value if and only if the model is `Gpt35_16k`, and that value is "gpt-3.5-turbo-16k"; `Gpt40_32k` panics with the not-available message |
| `OpenAi.New` | src/open_ai_api/open_ai/mod.rs:115-135 | the model is the override, or `Gpt35_16k` when there is none; the token is the override, else the environment token; it panics if and only if there is no override and reading the variable fails, with the `expect` message followed by ": " and the `VarError`'s `Debug` text |
| `OpenAi.NewWithoutAnyToken` | src/open_ai_api/open_ai/mod.rs:12-15 | with no override and the variable unset, the panic message is "could not find OPEN_AI_TOKEN environment variable: NotPresent" |
| `OpenAi.NewWithTokenIgnoresEnvironment` | src/open_ai_api/open_ai/mod.rs:126-132 | with a token override, the environment has no effect and the override is stored unchanged |
| `OpenAi.EscapeNewlines` | src/open_ai_api/open_ai/mod.rs:192 | no newline is left in the output; its length is the input's length plus the number of newlines in the input |
| `OpenAi.EscapeAppend` | src/open_ai_api/open_ai/mod.rs:192 | escaping distributes over concatenation (the replacement works character by character) |
| `OpenAi.EscapeAt` | src/open_ai_api/open_ai/mod.rs:192 | input character i lands at position i plus the number of newlines before it; a newline becomes a backslash then `n`, any other character is copied there |
| `OpenAi.EscapeNewlineFree` | src/open_ai_api/open_ai/mod.rs:192 | a prompt without newlines is left unchanged |
| `OpenAi.EscapeIdempotent` | src/open_ai_api/open_ai/mod.rs:192 | escaping twice gives the same text as escaping once |
| `OpenAi.EscapeNotInjective` | src/open_ai_api/open_ai/mod.rs:192 | a literal backslash-n and a newline escape to the same text |
| `OpenAi.UnescapeEscape` | src/open_ai_api/open_ai/mod.rs:192 | for a prompt with no literal backslash-n pair, unescaping the escaped text gives the prompt back |
| `OpenAi.GeneratePrompt` | src/open_ai_api/open_ai/mod.rs:189-204 | panics if and only if the client's model has no id; otherwise exactly one message, with role "user" and the escaped prompt as content, the client's model and the fixed temperature |
| `OpenAi.GeneratePromptContent` | src/open_ai_api/open_ai/mod.rs:192-201 | the payload's content holds no newline, is longer than the prompt by its number of newlines, and unescapes to the prompt when the prompt has no literal backslash-n |
| `OpenAi.PerformRequest` | src/open_ai_api/open_ai/mod.rs:138-158 | an unavailable model panics before the call; a call error is returned with the prefix "error while calling OpenAI: "; a reply is simplified by `TryFromResponseBody`; a panic in the call propagates |
| `OpenAi.PerformRequestNeverEmptyAnswer` | src/open_ai_api/open_ai/mod.rs:144-157 | a successful request always has an answer and no follow-up query; a reply without choices gives the missing-choice error |
| `OpenAi.UnavailableModelFailsBeforeCall` | src/open_ai_api/open_ai/mod.rs:138-158 | with `Gpt40_32k` the request panics, and the result does not depend on the network exchange |
| `ZeroShotPrompts.ZeroShotPrompt.New` | src/prompt_types/zero_shot_prompt/mod.rs:6-12 | any text, the empty text included, is accepted, and `Prompt()` returns it unchanged |
| `ZeroShotPrompts.NewIsBijective` | src/prompt_types/zero_shot_prompt/mod.rs:1-12 | the wrapper holds only the prompt: wrapping is injective, and every wrapper is the wrapping of its `Prompt()` |
| `MultiShotPrompts.Discriminant` | src/prompt_types/multi_shot_prompt/mod.rs:69-75 | every example count lies between 1 and 5 |
| `MultiShotPrompts.DiscriminantIsBijection` | src/prompt_types/multi_shot_prompt/mod.rs:69-75 | `One`, `Two`, `Tree`, `Four`, `Five` stand for 1, 2, 3, 4, 5; distinct variants have distinct discriminants, and each of 1 to 5 is the discriminant of some variant |
| `MultiShotPrompts.MultiShotPrompt.New` | src/prompt_types/multi_shot_prompt/mod.rs:82-88 | `Prompt()` of a new multi-shot prompt returns the given text unchanged |
| `MultiShotPrompts.NewIsBijective` | src/prompt_types/multi_shot_prompt/mod.rs:77-89 | the wrapper holds only the prompt: wrapping is injective, and every wrapper is the wrapping of its `Prompt()` |
| `TestPrompts.WeatherInTwoLanguages.NewFromPromptTemplate` | src/topic_prompts/test_prompts/mod.rs:46-60 | the query is the instruction sentence, a newline, the statement verbatim, and a newline; its length is the statement's plus a fixed amount, and the statement can be read back at a fixed offset |
| `TestPrompts.WeatherTemplateInjective` | src/topic_prompts/test_prompts/mod.rs:50-60 | different weather statements give different queries |
| `TestPrompts.ExampleEntryWellFormed` | src/topic_prompts/test_prompts/mod.rs:67-81 | an example built from a one-line situation and reply is one line that starts with "prompt: ", holds ", answer: " right after the situation, and ends with a newline |
| `TestPrompts.MultiShotQuestionsAndAnswers` | src/topic_prompts/test_prompts/mod.rs:66-83 | exactly five entries, qa_1 to qa_5 in that order, each of them a well-formed example line |
| `FixCode.FixRustCode.NewFromPromptTemplate` | tests/topic_prompts/programming/rust/fix_code/mod.rs:45-60 | the query is the request line and an opening rust fence, the code verbatim, then the closing fence and a newline; its length is the code's plus 54; the code stands verbatim at offset 49 |
| `FixCode.FixCodeTemplateInjective` | tests/topic_prompts/programming/rust/fix_code/mod.rs:49-60 | different code gives different queries |

## Left out

- `call_open_ai` (the HTTPS POST through hyper and TLS, the body read and
  its `unwrap`s, and parsing the reply): network I/O and a foreign JSON
  library. It appears only as the `callOpenAi` parameter of
  `PerformRequest`.
- JSON serialisation of the payload and parsing of the reply: a foreign
  library. Payload and reply are datatypes, and the JSON layer's own
  string escaping (on top of the newline escape) is not modelled.
- The lazily read, process-wide `OPEN_AI_TOKEN` and the `.env` loading:
  environment I/O. The model takes the resulting value as a parameter.
- `OpenAi.GeneratePrompt`: the temperature is the real number 0.01, not
  the nearest `f32`, and nothing is proved about its value beyond it being
  the fixed constant.
- `OpenAi.New`: the `Debug` rendering of a non-Unicode value inside
  `NotUnicode(..)` is taken as given (`debugText`), not computed from the
  raw bytes; the lazily initialised variable is read once per process,
  which the model does not track.
- `OpenAi.PerformRequest`: the async suspension and the single outbound
  call are not modelled; the call is a pure function of the token and
  the payload, and the request headers and endpoint are not modelled.
- The test `tests/open_ai_test.rs`: a live network test that prints a
  banner, with "NA" for missing fields. That is test output, not library
  behaviour.
- `src/topic_prompts/mod.rs`, `src/lib.rs` and `src/prompt_types/mod.rs`
  are not part of this model. They declare the `TopicPrompt` trait and
  re-export items (`InnerPrompt`, `PromptType`, `MultiShot`, `ZeroShot`)
  whose source is not part of this model either.
- Multi-shot prompt assembly (the first N examples, then a `question:`
  line): no function in the code implements it.
- `prompt()` and `query()` returning a clone that leaves the wrapper
  unchanged needs no lemma: in a model of values, reading a field cannot
  change it.
