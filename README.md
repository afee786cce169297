# GigaChat provider adapter and prompt registry, modelled in Dafny

This project models two parts of bolt.diy.

The first is the SberGigaChat provider adapter (`app/lib/modules/llm/providers/giga-chat.ts`). Its parts are:

- the module-level OAuth token cache (`getAuthToken`);
- the flattening of a language-model prompt into `{role, content}` messages (`convertMessages`);
- the mapping of vendor finish codes (`mapFinishReason`);
- the server-sent-event parser that `doStream` runs over the response body;
- the request and result composition of `doGenerate` and `doStream`.

The second is the prompt registry `PromptLibrary` (`app/lib/common/prompt-library.ts`): its five-entry table, `getList` and `getPropmtFromLibrary`.

Everything the adapter gets from the outside is a parameter of the model:

- the clock `now`, in whole seconds, as `Math.floor(Date.now() / 1000)` produces it;
- the outcome of each `fetch`, as `HttpOutcome`: no response, a non-ok response with its status text, or an ok body;
- `JSON.parse` of a stream payload, as a function `decode: string -> Frame`;
- the decoded text chunks of the response body;
- the functions the prompt modules export.

Modules:

- `Wrappers` (wrappers.dfy): `Option` and `Result`.
- `GigaChatHttp` (http.dfy): `HttpOutcome` and the errors the adapter throws.
- `GigaChatAuth` (auth.dfy): the `Authenticate` specification, and the `TokenCache` class. The class's `cachedToken` field stands for the module-level variable. `GetAuthToken` reads and overwrites it.
- `GigaChatMessages` (messages.dfy): `convertMessages` and the two ways it flattens content.
- `GigaChatFinish` (finish_reason.dfy): `mapFinishReason`.
- `GigaChatStream` (stream.dfy): line splitting, the parser as functions (`LineStep`, `ProcessLines`, `ProcessChunks`, `StreamEvents`), the `StreamController` class (enqueue appends, close happens once), and `Pump`. `Pump` is the `start` body: a `while` over chunks with an inner loop over lines, mutable `promptTokens`/`completionTokens`, and the `break` at the sentinel.
- `GigaChatStreamProps` (stream_props.dfy): what the parser guarantees.
- `GigaChatModel` (model.dfy): request body, result composition, `DoGenerate`, `DoStream`.
- `PromptLibrary` (prompt_library.dfy): the registry.

Where the adapter's design intent and its code disagree, the model follows the code:

- The `break` after `data: [DONE]` leaves only the per-line loop. So the sentinel ends its chunk, not the stream.
  - Later chunks are still parsed.
  - Each chunk holding the sentinel adds one `finish` (`FinishCount`), so a stream can carry several.
  - A read failure after a sentinel still adds an `error` after the `finish`.
- No separate usage-update event is ever emitted. Usage reaches the caller only inside the `finish` event.
- A `finish_reason` inside a stream frame is ignored. The `finish` event always says `stop`.

## Model

| member | source | states |
|---|---|---|
| `GigaChatAuth.Authenticate` | app/lib/modules/llm/providers/giga-chat.ts:113-143 | An OAuth request is made exactly when no cached token has `expires_at > now + 60`, and it carries the caller's `apiKey`. On a hit, the cached token is returned and the cache is unchanged. On a miss, the call succeeds exactly when the exchange answers ok with a readable body; it then returns that token and caches it. A non-ok answer throws `Failed to get auth token: <status>`, an unreachable endpoint or unreadable body throws too, and every throw leaves the cache as it was. |
| `GigaChatAuth.TokenCache.GetAuthToken` | app/lib/modules/llm/providers/giga-chat.ts:113-143 | The returned token or error, the new `cachedToken` and the key sent (or none) are exactly those of `Authenticate` on the old cache. |
| `GigaChatAuth.RefreshedTokenIsReused` | app/lib/modules/llm/providers/giga-chat.ts:115-120 | A token obtained by one call is reused by any later call inside its validity window. That call sends no request and leaves the cache unchanged, whatever the exchange would have returned. |
| `GigaChatAuth.CacheIgnoresApiKey` | app/lib/modules/llm/providers/giga-chat.ts:113-120 | The cache is not keyed by `apiKey`. A token obtained with one key is returned, with no request, to a later caller passing a different key. |
| `GigaChatAuth.ExpiryBoundary` | app/lib/modules/llm/providers/giga-chat.ts:117 | A cached token expiring at `now + 30`, or exactly at `now + 60`, is refreshed. |
| `GigaChatMessages.ConvertMessage` | app/lib/modules/llm/providers/giga-chat.ts:146-170 | The role is kept. A user message gets its flattened parts. Any other message gets its string content, its flattened part list, or `''` for anything else. |
| `GigaChatMessages.ConvertMessages` | app/lib/modules/llm/providers/giga-chat.ts:145-172 | One wire message per prompt message, in the same order, with the same role. |
| `GigaChatMessages.FlattenUser` | app/lib/modules/llm/providers/giga-chat.ts:150-158 | User content is the in-order join of what each part contributes: a `text` part its text, any other part `''`. |
| `GigaChatMessages.FlattenParts` | app/lib/modules/llm/providers/giga-chat.ts:168 | A part list of another role is the in-order join of each part's `text` property, `''` where it has none. |
| `GigaChatMessages.FlattenContent` | app/lib/modules/llm/providers/giga-chat.ts:165-169 | A string is kept, a part list is flattened, and anything else becomes `''`. |
| `GigaChatMessages.ConvertMessagesAppend` | app/lib/modules/llm/providers/giga-chat.ts:146 | Converting a prompt piece by piece gives the same result as converting it whole. |
| `GigaChatMessages.FlattenUserAppend` | app/lib/modules/llm/providers/giga-chat.ts:150-158 | User content flattening distributes over concatenation of the parts, so the result is the in-order concatenation. |
| `GigaChatMessages.FlattenUserSingle` | app/lib/modules/llm/providers/giga-chat.ts:151-157 | In user content, a `text` part contributes its text and any other part contributes `''`. |
| `GigaChatMessages.FlattenPartsAppend` | app/lib/modules/llm/providers/giga-chat.ts:167-168 | For other roles, part-list flattening distributes over concatenation of the parts. |
| `GigaChatMessages.FlattenPartsSingle` | app/lib/modules/llm/providers/giga-chat.ts:168 | For other roles, a part contributes its `text` property when it has one, and `''` otherwise. |
| `GigaChatMessages.FlattenAgreement` | app/lib/modules/llm/providers/giga-chat.ts:152-168 | The user rule (`type === 'text'`) and the other-role rule (`'text' in p`) agree on every part list in which no non-text part has a `text` property. |
| `GigaChatMessages.MixedUserContent` | app/lib/modules/llm/providers/giga-chat.ts:147-158 | `[text "a", image, text "b"]` from the user becomes `"ab"`. |
| `GigaChatFinish.MapFinishReason` | app/lib/modules/llm/providers/giga-chat.ts:347-362 | The mapping is total, each case an if-and-only-if: `stop`, `length`, `content-filter` and `error` map to themselves, `function_call` maps to `tool-calls`, and every other string maps to `unknown`. |
| `GigaChatFinish.NameRoundTrip` | app/lib/modules/llm/providers/giga-chat.ts:347-362 | Mapping an interface name back gives the same reason, except `tool-calls`, which maps to `unknown`. |
| `GigaChatFinish.SampleCodes` | app/lib/modules/llm/providers/giga-chat.ts:348-360 | `stop`, `length`, `content-filter`, `function_call` and `banana` map to stop, length, content-filter, tool-calls and unknown. |
| `GigaChatStream.SplitLines` | app/lib/modules/llm/providers/giga-chat.ts:280 | `split('\n')` always gives at least one piece, and no piece contains a newline. |
| `GigaChatStreamProps.JoinSplit` | app/lib/modules/llm/providers/giga-chat.ts:280 | Joining the pieces of a chunk with `'\n'` gives back the chunk. |
| `GigaChatStreamProps.SplitJoin` | app/lib/modules/llm/providers/giga-chat.ts:280 | Splitting newline-free lines joined with `'\n'` gives back those lines. |
| `GigaChatStream.NonBlank` | app/lib/modules/llm/providers/giga-chat.ts:280 | The filter keeps exactly the lines whose `trim()` is not empty, using the ECMAScript whitespace set, and never adds lines. |
| `GigaChatStreamProps.NonBlankSingle` | app/lib/modules/llm/providers/giga-chat.ts:280 | One line is kept exactly when its `trim()` is not empty. |
| `GigaChatStreamProps.NonBlankAppend` | app/lib/modules/llm/providers/giga-chat.ts:280 | The filter works line by line: filtering a concatenation concatenates the filtered parts, so order is kept. |
| `GigaChatStreamProps.ChunkLinesClean` | app/lib/modules/llm/providers/giga-chat.ts:279-280 | Every line a chunk yields is non-blank and newline-free. |
| `GigaChatStream.LineStep` | app/lib/modules/llm/providers/giga-chat.ts:283-316 | The loop breaks exactly at the line `data: [DONE]`, after enqueuing a `stop` finish with the current totals. Every other line leaves the state given by two independent definitions: `LineDelta` (the frame's `delta.content` as one `text-delta` when the frame has `choices[0]` and the content is a non-empty string, else nothing) and `LineUsage` (the frame's `usage` when it has a choice and `usage`, else the old totals). |
| `GigaChatStream.ProcessLines` | app/lib/modules/llm/providers/giga-chat.ts:282-317 | Lines only ever append events; nothing enqueued is removed or reordered. |
| `GigaChatStream.ProcessChunk` | app/lib/modules/llm/providers/giga-chat.ts:279-282 | One chunk's lines only append events. |
| `GigaChatStream.ProcessChunks` | app/lib/modules/llm/providers/giga-chat.ts:272-318 | The outer read loop as a left fold over the chunks from no events and 0/0 totals. Its properties are `ChunksAppend`, `PrefixEventsArePrefix`, `ChunkWithoutSentinel` and `SentinelChunkFinish`. |
| `GigaChatStream.StreamEvents` | app/lib/modules/llm/providers/giga-chat.ts:271-326 | The parsed events come first. A read to the end adds nothing; a failed read adds exactly one `error` at the end. |
| `GigaChatStream.Pump` | app/lib/modules/llm/providers/giga-chat.ts:265-327 | The nested read and line loops enqueue exactly `StreamEvents(chunks, end, decode)`, and the controller ends closed. |
| `GigaChatStream.StreamController.Enqueue` | app/lib/modules/llm/providers/giga-chat.ts:287-306 | Enqueuing appends one event to an open stream. |
| `GigaChatStream.StreamController.Close` | app/lib/modules/llm/providers/giga-chat.ts:324-326 | A stream can be closed only while open. Since `Pump` ends closed, it closes exactly once. |
| `GigaChatStreamProps.FinishCount` | app/lib/modules/llm/providers/giga-chat.ts:282-296 | There is exactly one `finish` per chunk that has a `data: [DONE]` line, whatever frames come before or after it. |
| `GigaChatStreamProps.NoFinishWithoutSentinel` | app/lib/modules/llm/providers/giga-chat.ts:286-296 | With no sentinel line in any chunk, no `finish` is emitted. |
| `GigaChatStreamProps.ErrorOnlyOnReadFailure` | app/lib/modules/llm/providers/giga-chat.ts:319-323 | A stream read to its end has no `error`. A failed read adds exactly one `error`, last, after exactly the events a clean read of the same chunks produces. |
| `GigaChatStreamProps.LineStepCases` | app/lib/modules/llm/providers/giga-chat.ts:283-316 | Case by case: a line without the `data: ` prefix, a malformed frame and a frame without `choices[0]` change nothing. A frame with a choice enqueues its `delta.content` exactly when it is a non-empty string, and replaces both totals exactly when it has `usage`. |
| `GigaChatStreamProps.LinesWithoutSentinel` | app/lib/modules/llm/providers/giga-chat.ts:282-317 | Lines without the sentinel enqueue exactly their text increments, in order, and leave the totals of the last frame that carried usage. |
| `GigaChatStreamProps.UsageUnchanged` | app/lib/modules/llm/providers/giga-chat.ts:310-313 | Lines none of which carries usage leave the totals as they were. |
| `GigaChatStreamProps.ChunksAppend` | app/lib/modules/llm/providers/giga-chat.ts:272-282 | Reading one more chunk runs the per-line loop over that chunk's lines, starting from the state the earlier chunks left. |
| `GigaChatStreamProps.PrefixEventsArePrefix` | app/lib/modules/llm/providers/giga-chat.ts:272-318 | What was enqueued after any prefix of the chunks stays, unchanged, at the front of the events. |
| `GigaChatStreamProps.ChunkWithoutSentinel` | app/lib/modules/llm/providers/giga-chat.ts:272-317 | A chunk without the sentinel adds exactly its text increments and its last usage, whatever came before, including a sentinel in an earlier chunk. |
| `GigaChatStreamProps.SentinelChunkFinish` | app/lib/modules/llm/providers/giga-chat.ts:272-296 | A chunk holding the sentinel adds the text increments before it, then a `stop` finish carrying the totals of the last usage frame read so far. |
| `GigaChatStreamProps.QuietChunksKeepZero` | app/lib/modules/llm/providers/giga-chat.ts:268-313 | Chunks with no sentinel and no usage frame leave the totals at 0/0. |
| `GigaChatStreamProps.SentinelEndsChunk` | app/lib/modules/llm/providers/giga-chat.ts:286-296 | At the first sentinel line of a chunk, a `stop` finish with the running totals is enqueued, and the rest of the chunk is not looked at. |
| `GigaChatStreamProps.FirstSentinelReportsZero` | app/lib/modules/llm/providers/giga-chat.ts:268-294 | The totals start at 0/0: when no frame before the first sentinel carries usage, its finish reports 0/0, after exactly the text increments before it. |
| `GigaChatStreamProps.ChunkAfterSentinelStillParsed` | app/lib/modules/llm/providers/giga-chat.ts:272-296 | Example: a text frame in the chunk after the sentinel's chunk is still enqueued, after the `finish`. |
| `GigaChatStreamProps.TextFrame` | app/lib/modules/llm/providers/giga-chat.ts:302-313 | A frame with a choice and non-empty `delta.content` enqueues that text, takes the frame's usage when it has one and keeps the totals otherwise. |
| `GigaChatStreamProps.MalformedFrame` | app/lib/modules/llm/providers/giga-chat.ts:298-315 | A payload that `JSON.parse` rejects changes nothing and does not stop the loop. |
| `GigaChatStreamProps.MalformedFrameSkipped` | app/lib/modules/llm/providers/giga-chat.ts:298-315 | A malformed frame between two good ones yields the two text increments and nothing else. |
| `GigaChatStreamProps.FrameCutByChunkBoundary` | app/lib/modules/llm/providers/giga-chat.ts:279-283 | A frame split across two chunks is not rejoined, and nothing is enqueued for it. |
| `GigaChatStreamProps.CarriageReturnHidesSentinel` | app/lib/modules/llm/providers/giga-chat.ts:280-286 | `data: [DONE]\r` is not the sentinel. When its payload fails to parse, the line is skipped. |
| `GigaChatModel.BuildRequestBody` | app/lib/modules/llm/providers/giga-chat.ts:193-201 | The body carries `model`, the converted messages and the `stream` flag. It maps `temperature`, `maxTokens` to `max_tokens`, `topP` to `top_p` and `presencePenalty` to `repetition_penalty`, and leaves absent values absent. |
| `GigaChatModel.BuildRawSettings` | app/lib/modules/llm/providers/giga-chat.ts:228-236 | The reported settings are the caller's sampling options, the presence penalty under `repetition_penalty`, with `stream` reported only when given (`doStream` at lines 334-340 gives it). |
| `GigaChatModel.RawSettingsMatchBody` | app/lib/modules/llm/providers/giga-chat.ts:228-236 | The reported `rawSettings` match the sent body field by field. |
| `GigaChatModel.ComposeResult` | app/lib/modules/llm/providers/giga-chat.ts:219-237 | `text` is `choices[0].message.content`, `finishReason` is `mapFinishReason(choices[0].finish_reason)`, and `usage` is copied. A missing first choice, or then a missing `usage`, is the TypeError the property access throws. |
| `GigaChatModel.GenerateOutcome` | app/lib/modules/llm/providers/giga-chat.ts:204-237 | A non-ok response throws `Failed to generate completion: <status>`. An unreachable endpoint or an unreadable body throws. An ok, readable body gives exactly the composed result (or its TypeError). |
| `GigaChatModel.DoGenerate` | app/lib/modules/llm/providers/giga-chat.ts:183-238 | The cache ends as `Authenticate` leaves it. An authentication failure is thrown and no chat request is sent. Otherwise the request carries the token as bearer and a body with `stream: false`, and the result is `GenerateOutcome` of the response. |
| `GigaChatModel.DoStream` | app/lib/modules/llm/providers/giga-chat.ts:240-343 | As `DoGenerate`, but with `stream: true`. A non-ok response throws `Failed to generate completion stream: <status>` before any event exists. An ok response yields the events of `StreamEvents` over its body, and `rawSettings` reports `stream: true`. |
| `GigaChatModel.GenerateFromCachedToken` | app/lib/modules/llm/providers/giga-chat.ts:219-227 | With a usable cached token, no OAuth request is made. The response `{choices: [{content: "hi", finish_reason: "stop"}], usage: 5/1}` gives `{text: "hi", finishReason: stop, usage: 5/1}`. |
| `PromptLibrary.LibraryIds` | app/lib/common/prompt-library.ts:21-47 | The library has exactly the five distinct ids `default`, `optimized`, `sberGigaChat_full`, `sberGigaChat_optimised` and `sberGigaChat_short`, in that order, each with its own prompt source. |
| `PromptLibrary.Get` | app/lib/common/prompt-library.ts:21-47 | Each entry's `get` calls its own prompt source: `default` and `sberGigaChat_full` with `cwd`, the two optimised ones with the whole options, `sberGigaChat_short` with nothing. |
| `PromptLibrary.GetList` | app/lib/common/prompt-library.ts:48-57 | One item per entry, in key order, with `id` the key and `label`/`description` copied. |
| `PromptLibrary.FindEntry` | app/lib/common/prompt-library.ts:59 | Nothing is found exactly when no entry has the id. When something is found, it is the entry with that id. |
| `PromptLibrary.GetPromptAsWritten` | app/lib/common/prompt-library.ts:58-66 | The lookup as written succeeds exactly for the five ids, with that entry's `get(options)`. An inherited name throws a TypeError. Any other id throws `'Prompt Now Found'`. |
| `PromptLibrary.InheritedNameEscapesGuard` | app/lib/common/prompt-library.ts:59-65 | As written, `toString` and `__proto__` pass the `!prompt` guard and end in a TypeError. |
| `PromptLibrary.GetPromptFromLibrary` | app/lib/common/prompt-library.ts:58-66 | It fails exactly for ids not in the library, always with `'Prompt Now Found'`. For a known id it returns that entry's `get(options)`. |
| `PromptLibrary.AsWrittenAgreesElsewhere` | app/lib/common/prompt-library.ts:58-66 | The as-written and corrected lookups agree on every id that is not an inherited name. |
| `PromptLibrary.ListedIdsAreFound` | app/lib/common/prompt-library.ts:48-65 | Every id `getList` offers is accepted without throwing. |
| `PromptLibrary.KnownIdGivesEntry` | app/lib/common/prompt-library.ts:59-65 | Looking up entry `i`'s key gives entry `i`'s `get(options)`. |
| `PromptLibrary.FindDistinctKey` | app/lib/common/prompt-library.ts:59 | With distinct keys, looking up an entry's key finds that entry. |
| `PromptLibrary.ShortPromptIgnoresOptions` | app/lib/common/prompt-library.ts:45 | The `sberGigaChat_short` result is the same for any options. |
| `PromptLibrary.CwdPromptsDependOnCwdOnly` | app/lib/common/prompt-library.ts:25-35 | The `default` and `sberGigaChat_full` results depend on `options.cwd` only. |

## Left out

- Network and platform calls are inputs, not modelled:
  - `fetch` and the OAuth URL;
  - the headers, including the Basic and Bearer values, `RqUID` and `crypto.randomUUID`;
  - `Date.now`.
- Text decoding and the stream object are not modelled:
  - `TextDecoder`: chunks arrive already decoded, so a multi-byte character split across chunks is not modelled.
  - `JSON.parse`: a `decode` parameter.
  - `ReadableStream` and its laziness: `Pump` runs to completion when `DoStream` is called.
  - A consumer cancelling the stream, and `enqueue` on a cancelled stream.
  - A null `response.body`.
- Async ordering and the race between concurrent callers on the module-level `cachedToken` are not modelled, because they are concurrency.
- `expires_at` is taken in the same unit as `now`, as the comparison at line 117 does. The source does not say what unit the endpoint uses.
- Unchecked casts of JSON bodies are not modelled. Examples: an OAuth body without `expires_at`, a `usage` without `prompt_tokens`, a `delta.content` that is not a string. `Frame` records only whether `choices[0]` exists, its text and the usage.
- `GigaChatStream.Pump`: requires a fresh controller (open, nothing queued), as the `start` callback always gets.
- The sampling parameters are floating point. They are passed through as `real`, untouched.
- The `console.error` logging at giga-chat.ts:84 and giga-chat.ts:314 is not modelled: it is output only, and the model keeps the control flow around it (an empty list, a skipped frame).
- `getDynamicModels` in both providers is left out: it lists models over the network. GigaChat's version (giga-chat.ts:26-87) makes its own OAuth exchange and bypasses the cache.
- `getModelInstance`, `getProviderBaseUrlAndKey`, `BaseProvider` and `getOpenAILikeModel` are thin wrappers over code that is not part of this model.
- app/lib/modules/llm/providers/bothubru.ts is left out: it is configuration and a network wrapper.
- The prompt texts are not part of this model (prompts.ts, optimized.ts, sberGigaChat_full.ts, sberGigaChat_optimised.ts, sberGigaChat_short.ts). Their exported functions are parameters (`PromptSources`).
- The thrown string `'Prompt Now Found'` is kept exactly as spelled.

## Findings

| source | as written | input that shows it | evidently intended | confidence | as-written member | corrected member |
|---|---|---|---|---|---|---|
| app/lib/common/prompt-library.ts:58-66 | `this.library[promptId]` also reads members inherited from `Object.prototype`. Those are truthy, so they pass `!prompt`, and `.get(options)` then throws a TypeError instead of `'Prompt Now Found'` | `promptId = "toString"` (or `"__proto__"`, `"constructor"`, ...) | every id other than the five keys throws `'Prompt Now Found'` | medium; not executed | `PromptLibrary.GetPromptAsWritten` with `PromptLibrary.InheritedNameEscapesGuard` | `PromptLibrary.GetPromptFromLibrary` |
