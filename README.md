# AI service gateway — a Dafny model

The service exposes five POST endpoints of an AI-assisted IDE back end:
`/analyze-code`, `/generate-tests`, `/security-scan`, `/chat` and
`/optimize-code`. Each one reads a JSON body and refuses it with 400 when the
required field (`code`, or `message` for chat) is absent or empty. Otherwise
it wraps the input in a task-specific prompt and makes one completion request
to a language-model provider. It then turns the model's text reply into a JSON
envelope:

- chat returns the reply verbatim;
- the four code tasks search the reply for a JSON object with the regular
  expression `\{.*\}` (DOTALL) and return the decoded object when there is one;
- failing that, they return a fixed fallback envelope that carries an excerpt
  of the reply.

Any exception becomes a 500 whose message names the task's action.

The four code handlers differ only in constants; chat also adds an optional
context block to its prompt and returns the reply without extraction. The
model therefore has one gateway function, `AiService.Handle`, driven by a
per-task table, `AiService.Describe`. Two collaborators the service cannot see are parameters
of the gateway:

- the completion provider is a function from a `Call` (model, system
  instruction, prompt, temperature, token limit) to a `Completion`, which is
  either `Replied(text)` or `Raised(message)`;
- `json.loads` is a partial function from text to `Option<Json>`.

`Handle` returns the response together with the list of provider calls it
made, so "refused before any provider call" is the statement `calls == []`.

Files:

- `json.dfy` — module `JsonValue`: JSON values and object member lookup.
- `ai_service.dfy` — module `AiService`: the task table, requests, prompt
  assembly, JSON-candidate extraction, fallback envelopes, the gateway and its
  properties.

The regular-expression search is given an independent reference definition.
`IsSearchMatch(s, i, j)` says that `s[i..j]` matches `\{.*\}`, that no match
starts further left, and that no longer match starts at `i`. That is the
leftmost, greedy match `re.search` reports. `MatchSpanIsSearchMatch` proves
that the first-`{`-to-last-`}` span is exactly that match.

Only the fallback path builds the task's structured response from the text
(the comment at `src/routes/ai_service.py:86`). A successful response is
therefore not guaranteed to hold the task's expected keys; only the fallback
envelope does (`FallbackShape`). A reply that decodes is returned as it is, whatever keys it
has (`ParsedCandidateReturnedVerbatim`, `ParsedEnvelopeNotShapeChecked`).

## Model

| member | source | states |
|---|---|---|
| `AiService.Handle` | src/routes/ai_service.py:17-441 | At most one provider call; the status is 200, 400 or 500; it is 400 exactly when the body is readable and the required field is absent or empty; no call is made exactly when the body is unreadable or the request is refused |
| `AiService.MissingInputRejectedBeforeCall` | src/routes/ai_service.py:22-26 | An absent or empty `code` (`message` for chat) gives 400 with `{"error": "No code provided"}` (`"No message provided"`) and no provider call |
| `AiService.MalformedBodyReported` | src/routes/ai_service.py:20-21 | A body whose reading raises gives 500 with "<action> failed: <error>" and no provider call |
| `AiService.AcceptedRequestMakesOneCall` | src/routes/ai_service.py:62-73 | An accepted request makes exactly one call, the one built from the task and the body, whose outcome the response is computed from: model "gpt-4" with the task's system instruction, temperature and token limit. A code task's prompt holds the code fenced with the language, which is "javascript" only when the field is absent. Chat's prompt is the question prompt |
| `AiService.Fence` | src/routes/ai_service.py:44-46 | The fenced block opens with three backticks, the language and a newline, holds the code verbatim on its own indented line, and closes with a newline, indentation and three backticks |
| `AiService.PromptEmbedsFence` | src/routes/ai_service.py:43-46 | The fenced code block occurs verbatim in every code task's prompt |
| `AiService.ChatQuotesMessage` | src/routes/ai_service.py:338-341 | The chat prompt always contains "User question: " followed by the message |
| `AiService.ChatContextOnlyWhenNonEmpty` | src/routes/ai_service.py:334-341 | The prompt without a context is the question followed directly by the closing advice; a non-empty context inserts exactly the context block right after the question and leaves the rest unchanged, so the context occurs verbatim; an empty one inserts nothing |
| `AiService.FirstIndex` | src/routes/ai_service.py:81 | The index found holds the character and no earlier index does; `None` only when the character is absent |
| `AiService.LastIndex` | src/routes/ai_service.py:81 | The index found holds the character and no later index does; `None` only when the character is absent |
| `AiService.MatchSpan` | src/routes/ai_service.py:81-82 | A span exists iff some `{` has a `}` after it; it runs from the first `{` to just past the last `}` and is at least two characters long |
| `AiService.MatchSpanIsSearchMatch` | src/routes/ai_service.py:81 | The span found is exactly the leftmost, longest match of `\{.*\}` in DOTALL mode, and no other span is |
| `AiService.NoSpanIffNoMatch` | src/routes/ai_service.py:81-82 | No span is found exactly when no piece of the reply matches the pattern |
| `AiService.JsonCandidate` | src/routes/ai_service.py:81-83 | A candidate exists iff the reply has a `{` with a `}` after it; it is the substring `re.search` matches; when there is none, no substring matches |
| `AiService.CandidateFromFirstOpenToLastClose` | src/routes/ai_service.py:81-83 | A candidate starts with `{` and ends with `}`; it is a contiguous piece of the reply with no `{` before it and no `}` after it |
| `AiService.ReplyNormalised` | src/routes/ai_service.py:76-84 | A code task's reply is answered with 200 and the normalised envelope |
| `AiService.ParsedCandidateReturnedVerbatim` | src/routes/ai_service.py:82-84 | A candidate that decodes is returned as the envelope itself |
| `AiService.ParsedEnvelopeNotShapeChecked` | src/routes/ai_service.py:83-84 | When the candidate decodes to an object lacking a key (an expected one such as "suggestions" included), the response lacks it too, so the expected keys are not guaranteed on this path |
| `AiService.FallbackWhateverTheCause` | src/routes/ai_service.py:85-114 | No candidate and an undecodable candidate give the same fallback envelope, and it carries all the task's expected keys |
| `AiService.NoBracesNoDecoding` | src/routes/ai_service.py:81-99 | A reply with no `{` before a `}` never reaches the decoder: every decoder yields the fallback |
| `AiService.FallbackShape` | src/routes/ai_service.py:85-99 | Every fallback envelope has the task's expected top-level keys and carries the fallback text in the task's reply slot |
| `AiService.AnalyzeEnvelopeShape` | src/routes/ai_service.py:87-99 | The analyze fallback has "suggestions", and its first suggestion's "recommendation" is the given text |
| `AiService.TestsEnvelopeShape` | src/routes/ai_service.py:182-194 | The tests fallback has "tests", and its first test's "code" is the given text |
| `AiService.SecurityEnvelopeShape` | src/routes/ai_service.py:284-298 | The security fallback has "security_score", "issues" and "recommendations", and its first issue's "suggestion" is the given text |
| `AiService.OptimizeEnvelopeShape` | src/routes/ai_service.py:424-430 | The optimize fallback has "optimized_code", "improvements" and "performance_gain", and "optimized_code" is the given text |
| `AiService.SecurityFallbackConstants` | src/routes/ai_service.py:286-297 | The security fallback always scores 75 and recommends only "Review AI analysis results" |
| `AiService.Excerpt` | src/routes/ai_service.py:95 | `text[:n] + "..."` has length min(n, len) + 3 ≤ n + 3, begins with a prefix of the text, always ends in "...", and keeps the whole text when it is at most n long |
| `AiService.FallbackTextBounds` | src/routes/ai_service.py:95-426 | The fallback text has length min(N, len(reply)) + 3, begins with a prefix of the reply and ends in "...", with N = 200 (analyze, security) or 300 (tests), so it is `reply[:N] + "..."`; optimize's is the whole, untruncated reply |
| `AiService.ChatReturnsReplyVerbatim` | src/routes/ai_service.py:359-361 | Chat answers 200 with `{"response": reply, "timestamp": "now"}` whatever the reply, so the envelope has both chat keys and its "response" is the reply; the decoder plays no part |
| `AiService.ProviderFailureReported` | src/routes/ai_service.py:116-117 | A provider exception gives 500 with "Analysis", "Test generation", "Security scan", "Chat" or "Code optimization", then " failed: " and the exception text |

## Left out

- Flask routing, `request.get_json` and `jsonify` are not modelled. A body
  is either a map of string fields or `Malformed(error)`, and a `Malformed`
  body takes the 500 path. The status is a plain number.
- Field values that are not strings are not modelled. This covers JSON
  `null`, numbers and lists sent as `code`, `language`, `message` or
  `code_context`: Python would test their truthiness and format them with
  `str()`.
- The OpenAI client, the network call and `response.choices[0].message.content`
  are replaced by the provider parameter. A `None` reply content is not
  modelled: for the four code tasks it makes the regex search raise and so
  gives a 500; for chat it is returned as `{"response": null, "timestamp":
  "now"}` with status 200.
- Environment loading (`load_dotenv`, `OPENAI_API_KEY`) is configuration I/O
  and is not modelled.
- The internals of `json.loads` are not modelled; it is the `parse`
  parameter. An exception from it other than a decoding error would take
  the 500 path; that case is not modelled. JSON numbers are exact reals, not
  binary floats.
- `AiService.TaskPrompt` does not model the full prompt templates of the
  four code tasks. It keeps the first instruction line, the code label, the
  fenced block (exactly, with its 8-space indentation) and the response
  format line; the numbered instruction lists and the example JSON are not
  modelled. The chat template (`AiService.ChatPrompt`) is modelled in full.
- JSON serialisation is not modelled. This covers key sorting by `jsonify`
  and the escaping of strings.
- Strings are sequences of Unicode scalar values. Python's `[:n]` counts
  code points, which agree except for lone surrogates.
- Concurrency is not modelled: requests share no mutable state.
