# Regulation-analysis pipeline, modelled in Dafny

This project models the analysis pipeline of a small chat service. A user
submits a passage about an Indonesian regulation or event and gets back a
structured analysis of it in the light of the Pancasila principles. The
pipeline works in two stages:

1. **Research.** The Perplexity search model is asked about the text. Its
   answer is free-form. The pipeline extracts the JSON object in it by a
   greedy first-`{`-to-last-`}` match, trims it, runs `JSON.parse` on it, and
   validates the result with the research schema.
2. **Analysis.** One OpenAI chat completion is asked about the research and
   the original text. The JSON object in its answer is extracted and parsed
   the same way and then normalised: a falsy `analysis` or `recommendation`
   becomes `""`, a list field that is not an array becomes `[]`, and
   `research` is set to the research-stage value. The result is validated
   against the AI-response schema, which keeps exactly the four declared
   fields.

Every failure reaches the caller as one `Error` whose message reads
`Failed to analyze text: ` followed by `Research gathering failed: ` or
`Analysis failed: ` and then the inner message. Failures inside a stage's
parse block are replaced by one fixed message.

Modules:

- `Wrappers`: `Option` (for `undefined`/`null`) and `Result` (for thrown
  errors).
- `Json`: parsed JSON values and the JavaScript semantics the pipeline uses.
  These are truthiness, `Array.isArray` and property reads.
- `Schema`: the AI-response schema and the message insert contract.
- `Extraction`: the regular-expression match and `String.prototype.trim`.
- `Ai`: the two stages and the entry point `AnalyzeRegulation`.
- `AiProperties`: lemmas about the pipeline.

The providers, `JSON.parse` and the research schema are inputs, gathered in
the `Services` datatype. A thrown exception is an `Err`, and a
`try`/`catch` is a `match` on the result of its block.

## Behaviour worth knowing

- The analysis provider is asked exactly once. There is no fallback
  provider and no retry (server/lib/ai.ts:207-212).
- List elements must already be strings. An object or any other non-string
  element in `pancasilaPrinciples` or `constitutionalReferences` makes
  validation fail; nothing is converted to a string (shared/schema.ts:18-19,
  server/lib/ai.ts:181-186).
- The research attached to the normalised object does not reach the caller.
  `aiResponseSchema.parse` drops every undeclared key, `research` included
  (server/lib/ai.ts:188-191).
- The insert contract accepts an empty `content` string. Only a non-string
  or missing `content` is refused (shared/schema.ts:7, 12-14).
- Research references are not checked against the four `type` literals in
  this model. That check would belong to the research schema, whose
  definition is not available (see below).

## Model

| member | source | states |
|---|---|---|
| `Schema.Strings` | shared/schema.ts:18-19 | An element list is accepted iff every element is a string. Nothing is coerced. The accepted list has the same length, and its strings are the elements in order. |
| `Schema.ValidateAIResponse` | shared/schema.ts:16-21 | `aiResponseSchema` accepts exactly the objects whose `analysis` and `recommendation` are strings and whose two list fields are arrays of strings. The result's four fields hold exactly the input's values under those keys. |
| `Schema.ValidationRoundTrip` | shared/schema.ts:16-21 | A validated analysis, written back as JSON, validates to itself. |
| `Schema.ValidationIdempotent` | shared/schema.ts:16-21 | A value that passed validation passes again and comes back unchanged. |
| `Schema.OnlyDeclaredKeysMatter` | shared/schema.ts:16-21 | Two objects that agree on the four declared keys validate to the same result. Extra keys such as `research` are not part of the result. |
| `Schema.NonStringElementRejected` | shared/schema.ts:18-19 | A list field holding any non-string element, such as an object or a number, makes validation fail. |
| `Schema.ValidateInsertMessage` | shared/schema.ts:5-14 | The insert contract accepts exactly an object whose `content` is a string, and returns that string. |
| `Schema.InsertReadsOnlyContent` | shared/schema.ts:12-14 | Only `content` is taken from the caller. `id`, `response`, `timestamp` and any other key do not affect the outcome. |
| `Extraction.BraceSpan` | server/lib/ai.ts:80-83 | The regex match runs from the first `{` to the last `}`. There is no match exactly when no `}` follows some `{`, which includes text without any `{`. |
| `Extraction.MatchBraces` | server/lib/ai.ts:170-173 | There is no match iff no `}` follows a `{`. A match starts with `{`, ends with `}`, and is the content's slice between the first `{` and the last `}`. |
| `Extraction.MatchSplitsContent` | server/lib/ai.ts:80 | The content is the prose before the match, which holds no `{`, then the match, then the prose after it, which holds no `}`. |
| `Extraction.EmbeddedObjectRecovered` | server/lib/ai.ts:170-175 | A braced text embedded in prose with no `{` before it and no `}` after it is extracted exactly. |
| `Extraction.TrailingBraceExtendsMatch` | server/lib/ai.ts:80 | A stray `}` after the object makes the match longer than the object. The match is not a balanced-brace scan. |
| `Extraction.TrimKeepsBracedText` | server/lib/ai.ts:84 | `trim` leaves a text unchanged when it starts with `{` and ends with `}`. |
| `Extraction.TrimmingMatchIsIdentity` | server/lib/ai.ts:80-84 | Trimming the matched text is the identity, so both stages parse the same text. |
| `Ai.GatherResearch` | server/lib/ai.ts:36-97 | Research succeeds iff the reply has non-empty content whose matched object parses and passes the research schema. The result is the schema's output. Every failure is an `Error` that starts with `Research gathering failed: `. |
| `Ai.Normalise` | server/lib/ai.ts:179-189 | The normalised object has the four declared keys plus `research`. A falsy text field becomes `""`, and any other value is kept as it is. A list field is kept if it is an array, whatever it holds, and becomes `[]` otherwise. `research` is the research-stage value. |
| `Ai.PerplexityRequest` | server/lib/ai.ts:28-33 | The request yields the message content iff the provider answered. A non-OK status becomes an `Error` whose message is `Perplexity API error: ` followed by the response body. A thrown value passes through unchanged. |
| `Ai.ParseResearch` | server/lib/ai.ts:78-86 | The research parse block fails with `No valid JSON found in response` when there is no match. It succeeds iff the matched object itself, untouched by `trim`, parses and passes the research schema. The value is the schema's output. |
| `Ai.OpenAIAnalysis` | server/lib/ai.ts:99-202 | Analysis succeeds iff the one reply about (research, text) has non-empty content that extracts, parses, normalises and validates. On success the value is the format block's result for that content. Every failure is an `Error` that starts with `Analysis failed: `. |
| `AiProperties.FormatAIResponseOfMatch` | server/lib/ai.ts:168-191 | Once the match parses to a value other than `null`, the format block succeeds iff the normalised object validates. It then returns exactly that validated analysis. |
| `AiProperties.FormatAIResponseFailures` | server/lib/ai.ts:170-180 | The format block fails with `Invalid response format from OpenAI` when there is no match. It fails with the parser's error on invalid JSON. It fails when the parsed value is `null`, whose `analysis` cannot be read. |
| `Ai.AnalyzeRegulation` | server/lib/ai.ts:204-219 | Every error the caller sees is an `Error` that starts with `Failed to analyze text: ` plus one of the two stage prefixes. Success implies that research succeeded. After research succeeds, the outcome is the analysis stage's result, with its error behind the outer prefix. |
| `AiProperties.NormalisedAnswerAccepted` | server/lib/ai.ts:179-191 | Normalise-then-validate succeeds iff each text field is falsy or a string and each list field is a non-array or an array of strings. The result holds the model's strings, with `""` for falsy text and `[]` for non-arrays. |
| `AiProperties.ConformingAnswerUnchanged` | server/lib/ai.ts:179-191 | An answer that already has the declared shape comes through normalisation and validation unchanged. |
| `AiProperties.ModelResearchIgnored` | server/lib/ai.ts:179-189 | Whatever the model returned under `research`, or under any other undeclared key, does not affect the normalised object. |
| `AiProperties.AttachedResearchDropped` | server/lib/ai.ts:188-191 | The research attached at normalisation does not reach the validated analysis. |
| `AiProperties.NonStringPrincipleFailsAnalysis` | server/lib/ai.ts:181-191 | A `pancasilaPrinciples` array holding a non-string element, such as an object, is rejected, not converted. |
| `AiProperties.ResearchFailureSkipsAnalysis` | server/lib/ai.ts:204-218 | If research fails, replacing the analysis provider by any other changes nothing, so it is never called. The caller gets the research error behind the outer prefix. |
| `AiProperties.AnalysisUsesOneReply` | server/lib/ai.ts:207-212 | After research succeeds, only the analysis provider's reply to (research, text) matters. There is one call, with no retry and no fallback. |
| `AiProperties.ErrorNamesFailedStage` | server/lib/ai.ts:213-218 | An error message carries `Research gathering failed: ` iff research failed, and `Analysis failed: ` iff research succeeded. |
| `AiProperties.ResearchStageMessages` | server/lib/ai.ts:28-96 | Exact messages for the research stage. A non-OK status gives `Perplexity API error: <body>`. A thrown `Error` keeps its message, and any other thrown value gives `Unknown error`. Empty content gives `No response content from Perplexity`. Every parse-block failure gives `Failed to parse research response`. |
| `AiProperties.AnalysisStageMessages` | server/lib/ai.ts:163-201 | Exact messages for the analysis stage. A thrown `Error` keeps its message, and any other thrown value gives `Unknown error`. Empty content gives `No response content from OpenAI`. Every format-block failure gives `Failed to format AI response`. |
| `AiProperties.ParseResearchOfMatch` | server/lib/ai.ts:80-86 | The research parse block hands the matched object itself to `JSON.parse` and returns the schema's output. |
| `AiProperties.ResearchRecoveredFromProse` | server/lib/ai.ts:73-86 | A research answer that wraps a JSON object in brace-free prose yields what the research schema makes of that object. |
| `AiProperties.AnalysisRecoveredFromProse` | server/lib/ai.ts:163-191 | End to end: if research succeeds and the analysis answer wraps a conforming JSON object in brace-free prose, the caller receives exactly that object's four fields. |

## Left out

- The HTTP request in `perplexityRequest` and the OpenAI SDK call are not
  modelled; these are network I/O. Only their outcomes are modelled, as
  `PerplexityReply` and `OpenAIReply`. Reading a non-OK response's body is
  modelled as producing the body text.
- A throw while reading the reply envelope (`response.json()`,
  `choices[0].message.content`) is folded into `FetchFailed` /
  `RequestFailed`.
- `JSON.parse` and `JSON.stringify` are not modelled; `parse` is an input
  function.
- The definition of `researchResponseSchema` is not part of this model: it
  is referenced but not defined in the shared schema file. It is an input
  function, so the research reference type literals are not checked here.
- A message content that is neither a string nor `null` is not modelled.
  The content is `Option<string>`.
- The prompt texts, the model names, the temperatures and the token limits
  are not modelled. They are constants with no behaviour. The analysis
  provider is modelled as a function of the research and the text the
  prompt embeds.
- `console.error` logging is not modelled.
- `server/lib/openai.ts` is not modelled; it is an earlier revision that is
  not used.
- The Express routes, the database storage, the `messages` table
  declaration and the React client are not modelled.
- `async`/`await` is not modelled. Each request runs strictly in sequence.
- Strings are sequences of Unicode scalar values, not UTF-16 code units.
- JSON numbers are reals, so NaN and the infinities are not representable.
  `JSON.parse` never yields NaN. An overflowing literal such as `1e999`
  yields an infinity, which the model cannot express. Nothing is lost by
  this: an infinity is truthy like every non-zero number, and every number
  fails `z.string()`.
- `Json.Get` models property reads for the keys the pipeline reads. On a
  string or an array such a key is `undefined`. Built-in properties such as
  `length` are not modelled.
- The zod error messages are not modelled. The catch blocks discard them.
