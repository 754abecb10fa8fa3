# Jinoca WhatsApp bot: message dispatch, context assembly and connection status

This project models the decision and bookkeeping logic of the Jinoca WhatsApp
bot (`index.js`) and proves properties of it. The bot answers each incoming
chat message in one of two ways. Messages starting with `image ` go to an
image-generation endpoint. Every other message goes to a chat-completion
endpoint, together with the recent chat history. The bot also keeps a small
status record (QR code, status text, authenticated flag) that the WhatsApp
client's lifecycle callbacks overwrite.

The model has five modules:

- `Text`: the JavaScript string operations the handler uses. These are
  `toLowerCase` (ASCII folding only), `startsWith`, `endsWith`,
  `substring(6)` and `trim`, with the ECMAScript white-space set.
- `Classifier`: the incoming message, the filter (status broadcasts and
  group chats are ignored), routing by the lower-cased `image ` prefix, and
  extraction of the image prompt.
- `ContextBuilder`: the message list sent to the completion endpoint. It is
  a spec function `Context`, plus a method `BuildMessages` that runs the
  source's loop over the reversed history with a loop invariant.
- `Dispatch`: the `'message'` handler, `handleTextMessage` and
  `handleImageGeneration`, as the sequence of effects (`Action`s) one message
  causes. Spec functions (`TextReply`, `ImageReply`, `MessageTrace`) sit
  beside methods that follow the source's try/catch/finally step by step.
- `ConnectionStatus`: the three status variables as a class whose callback
  methods overwrite them. A pure `Step`/`Run` over lifecycle events gives
  the invariants.

The network and the transport are replaced by an `Env`, which has four parts:

- the history `fetchMessages` returns;
- the completion outcome (`Completed(content)` or `CompletionFailed`);
- the image outcome (`Generated(png)` or `GenerationFailed`);
- the set of the routed handler's transport calls that reject.

Those transport calls are `fetchMessages` and each `msg.reply`, numbered in
the order they are made. When a call rejects it has no effect and throws at
its `await`. If that happens inside an inner `try`, the handler's fallback
reply is sent. Otherwise the exception escapes to the outer `catch`, which
sends the apology. The trace records the requests sent to the two endpoints
and the replies that reached the chat.

The model follows the code as written; in particular:

- Only two kinds of message are filtered out: status broadcasts and group
  chats. The bot's own messages (`fromMe`) are not filtered.
- History turns with an empty body are kept, not dropped.
- History is used in reverse of fetch order, not re-sorted.
- `disconnected` keeps the QR code.
- There is no separate fatal-error phase and no reconnect delay.
  `disconnected` calls `client.initialize()` at once, and each rejected
  initialisation only rewrites the status text.

## Model

| member | source | states |
|---|---|---|
| `Text.StartsWith` | index.js:76 | `startsWith`: the string begins with the prefix |
| `Text.EndsWith` | index.js:65 | `endsWith`: the string ends with the suffix |
| `Text.SubstringFrom` | index.js:156 | `substring(start)`: the suffix from `start`, or the empty string when `start` is past the end |
| `Text.TrimStart` | index.js:156 | drops the leading white space (characterised by TrimStartIsSuffix) |
| `Text.TrimEnd` | index.js:156 | drops the trailing white space (characterised by TrimEndIsPrefix) |
| `Text.Trim` | index.js:143 | `trim`: leading, then trailing white space removed (characterised by TrimIsSlice and TrimEmptyIff) |
| `Classifier.IsIgnored` | index.js:65 | a message from `status@broadcast` or in a chat whose id ends in `@g.us` is ignored |
| `Classifier.Classify` | index.js:74-76 | the image route when the lower-cased body starts with `image `, the text route otherwise (characterised by ClassifyIsCaseInsensitivePrefix) |
| `Classifier.ImagePrompt` | index.js:156 | the body without its first six characters, trimmed (characterised by ImagePromptOfImageRoute) |
| `ContextBuilder.Reverse` | index.js:111 | `history.reverse()` (characterised by ReverseAt) |
| `ContextBuilder.Prior` | index.js:111-120 | the turns pushed while visiting entries in order, skipping the current id (characterised by the Prior lemmas) |
| `ContextBuilder.Context` | index.js:106-123 | persona turn, then the turns of the reversed history, then the current user turn (characterised by the Context lemmas) |
| `Dispatch.Routed` | index.js:76-82 | the outcome of the image handler on the image route and of the text handler otherwise |
| `ConnectionStatus.Step` | index.js:38-60 | the writes of one lifecycle callback (characterised by StepWrites) |
| `ConnectionStatus.Run` | index.js:38-60 | the record after a sequence of callbacks, applied one at a time |
| `Text.LowerChar` | index.js:74 | ASCII upper-case letters map to their lower-case letter (code point + 32); every other character is unchanged |
| `Text.ToLower` | index.js:74 | lower-casing keeps the length and folds each character independently |
| `Text.TrimStartIsSuffix` | index.js:156 | removing leading white space yields a suffix that does not start with white space, and everything removed is white space |
| `Text.TrimEndIsPrefix` | index.js:156 | removing trailing white space yields a prefix that does not end with white space, and everything removed is white space |
| `Text.TrimIsSlice` | index.js:156 | `trim` returns a slice `s[i..j]` with only white space outside it and no white space at either end of a non-empty result |
| `Text.TrimEmptyIff` | index.js:156-157 | `trim` gives the empty string exactly when the input is all white space (both directions) |
| `Text.TrimIdempotent` | index.js:143 | trimming a trimmed string changes nothing |
| `Text.TrimKeepsTrimmed` | index.js:143 | a string without white space at its ends is returned unchanged |
| `Text.TrimOfPadded` | index.js:156 | padding a trimmed string with white space on both sides and trimming gives it back (the converse of TrimIsSlice) |
| `Classifier.ClassifyIsCaseInsensitivePrefix` | index.js:74-76 | the image route is taken exactly when the body has at least six characters whose ASCII folding is `image ` |
| `Classifier.ImagePromptOfImageRoute` | index.js:156-157 | on the image route the prompt is `trim(body[6..])` of the original-case body, and it is empty exactly when the rest of the body is all white space |
| `Classifier.ImagePromptHasNoOuterSpace` | index.js:156 | a non-empty prompt neither starts nor ends with white space |
| `Classifier.ImagePromptIsSliceOfBody` | index.js:156 | the prompt is a slice of the original body after the six prefix characters, so case and content are preserved |
| `Classifier.UpperCasePrefixExample` | index.js:74-76 | `"IMAGE  Um Gato "` is routed to the image handler with prompt `"Um Gato"` |
| `Classifier.PrefixNeedsSpaceExample` | index.js:76 | `"imagem de um gato"` and `"image"` take the text route; `"image "` takes the image route with an empty prompt |
| `ContextBuilder.TurnOf` | index.js:115-119 | a history entry becomes an `assistant` turn when `fromMe` and a `user` turn otherwise, never `system`, with the body as content |
| `ContextBuilder.BuildMessages` | index.js:105-123 | the push loop over the reversed history builds exactly `Context(persona, history, msg)` |
| `ContextBuilder.ReverseAt` | index.js:111 | element `k` of the reversed history is element `n - 1 - k` of the fetched history |
| `ContextBuilder.ReverseAppend` | index.js:111 | reversing a concatenation reverses the order of the parts |
| `ContextBuilder.PriorAppend` | index.js:111-120 | the turns pushed for `a + b` are those pushed for `a` followed by those for `b` |
| `ContextBuilder.PriorHasNoSystem` | index.js:115-119 | no pushed history turn has role `system` |
| `ContextBuilder.PriorMembers` | index.js:113-119 | a turn is pushed exactly when some visited entry with an id different from the current message's produced it (both directions) |
| `ContextBuilder.PriorWithoutSkipped` | index.js:111-120 | when no entry carries the current id, every entry is pushed, in visiting order |
| `ContextBuilder.PriorLength` | index.js:113 | the number of pushed turns is the number of entries minus those carrying the current id |
| `ContextBuilder.CountIdOfReverse` | index.js:111 | reversing the history does not change how many entries carry a given id |
| `ContextBuilder.CountIdAppend` | index.js:113 | the entries with a given id in `a + b` are those of `a` plus those of `b` |
| `ContextBuilder.ContextShape` | index.js:106-123 | the persona is turn 0, `{user, current body}` is the last turn, and no other turn has role `system` |
| `ContextBuilder.ContextLength` | index.js:105-120 | the context has `|history| + 2` turns minus one per entry carrying the current id, so at most 12 with the fetch limit of 10 |
| `ContextBuilder.EmptyHistoryContext` | index.js:106-123 | with no history the context is exactly the persona turn and the current user turn |
| `ContextBuilder.ContextReversesHistory` | index.js:111-120 | when the history does not contain the current message, turn `k` is the turn of fetched entry `n - k`: the history reversed, not re-sorted |
| `ContextBuilder.ContextHistoryMembers` | index.js:111-120 | the turns between the first and the last are exactly the turns of fetched entries whose id is not the current message's |
| `ContextBuilder.ContextOfSplitHistory` | index.js:111 | a history fetched as `older + newer` contributes the turns of `newer` before those of `older` |
| `ContextBuilder.ContextSkipsCurrentNewest` | index.js:105-120 | when the newest fetched entry is the current message and no earlier one is, it is skipped and turn `k` is earlier entry `|older| - k`; the current body is the last turn |
| `Dispatch.TextReply` | index.js:95-150 | the text handler never sets or clears typing and never requests or sends an image; when nothing escapes it, its last action is a text reply |
| `Dispatch.ImageReply` | index.js:155-179 | the image handler never sets or clears typing and never requests a completion; when nothing escapes it, its last action is a reply |
| `Dispatch.MessageTrace` | index.js:63-90 | the trace is empty exactly for ignored messages; otherwise it starts with SetTyping, ends with ClearTyping, and contains no other typing action |
| `Dispatch.HandleTextMessage` | index.js:95-150 | the step-by-step text handler produces exactly the effects and the escape flag of `TextReply` |
| `Dispatch.HandleImageGeneration` | index.js:155-179 | the step-by-step image handler produces exactly the effects and the escape flag of `ImageReply` |
| `Dispatch.OnMessage` | index.js:63-90 | the filter / typing / try / catch / finally sequence produces exactly `MessageTrace` |
| `Dispatch.RoutingIsExclusive` | index.js:74-82 | on the image route no completion is requested; on the text route no image is requested or sent |
| `Dispatch.HandledMessageIsAnswered` | index.js:83-89 | every message that passes the filter gets at least one reply, for every API outcome and every set of rejected calls of the routed handler, given the apology reply is delivered |
| `Dispatch.EscapedExceptionIsApologised` | index.js:83-89 | an exception escaping the routed handler puts the apology immediately before ClearTyping; with no rejected transport call nothing escapes |
| `Dispatch.EmptyPromptAsksForAPrompt` | index.js:156-160 | an empty prompt gives exactly one reply (the request for a prompt, or the apology if that reply rejects) and no image request |
| `Dispatch.ImagePathReplies` | index.js:162-178 | with a non-empty prompt and no rejected call: acknowledgement, request for `trim(body[6..])`, then the captioned image on success or the art-failure text on failure |
| `Dispatch.FailedImageReplyFallsBack` | index.js:173-177 | an image reply that rejects is caught by the inner handler and answered with the art-failure text |
| `Dispatch.TextPathReplies` | index.js:126-148 | on the text route with no rejected call: one completion request carrying the assembled context, then exactly one reply, the trimmed content or the busy text |
| `Dispatch.FailedFetchIsApologised` | index.js:105 | a rejected history fetch skips the request; the trace is typing, apology, clear |
| `Dispatch.IgnoredMessagesAreSilent` | index.js:65-67 | a status broadcast or a message in a `@g.us` chat produces no effect at all |
| `Dispatch.TrimmedCompletionExample` | index.js:143-144 | a completion with content `" Oi! 😏 "` is answered with `"Oi! 😏"` |
| `ConnectionStatus.StepWrites` | index.js:38-60 | `qr` sets the code and clears the flag; `ready` clears the code and sets the flag; `disconnected` clears the flag, sets the reconnecting text and keeps the code; the two failures leave code and flag alone |
| `ConnectionStatus.StepPreservesConsistent` | index.js:38-60 | every callback keeps the status record consistent |
| `ConnectionStatus.RunPreservesConsistent` | index.js:38-60 | any sequence of callbacks keeps the status record consistent |
| `ConnectionStatus.ReachableIsConsistent` | index.js:15-17 | every record reachable from the initial `(null, "Iniciando...", false)` is consistent: authenticated implies no QR, waiting for a scan implies a QR, connected implies authenticated |
| `ConnectionStatus.AuthenticatedIffReadySinceLoss` | index.js:42-55 | the record is authenticated exactly when a `ready` happened with no later `qr` or `disconnected` |
| `ConnectionStatus.QrShownUntilReplaced` | index.js:40-54 | the record shows a QR data URL exactly when that QR arrived with no later `qr` or `ready`; `disconnected` does not remove it |
| `ConnectionStatus.Status.constructor` | index.js:15-17 | the initial state is no QR code, `"Iniciando..."`, not authenticated |
| `ConnectionStatus.Status.OnQr` | index.js:38-43 | the QR becomes the given data URL, the status the waiting text, the flag false |
| `ConnectionStatus.Status.OnReady` | index.js:45-50 | the QR becomes null, the status the connected text, the flag true |
| `ConnectionStatus.Status.OnDisconnected` | index.js:52-57 | the flag becomes false and the status the reconnecting text; the QR is unchanged; a re-initialisation is requested |
| `ConnectionStatus.Status.OnReinitFailed` | index.js:57-60 | only the status text changes, to the critical-error text |
| `ConnectionStatus.Status.OnInitFailed` | index.js:276-279 | only the status text changes, to the initialisation-error text |

## Left out

- The Express server, the HTML status page, its polling script and the `/status` endpoint (index.js:184-269): presentation only. The `Record` datatype is what `/status` reports.
- Client construction, Puppeteer options and the `client.initialize()` calls (index.js:20-34, 57, 276): foreign library calls. A re-initialisation request is the `reinitialize` result of `OnDisconnected`. Its failure is the separate `OnReinitFailed` callback.
- The HTTP calls to the completion and image endpoints (index.js:127-141, 165-167): network I/O. They appear as `Completion` and `Generation` outcomes. The model does not cover headers, model name, JSON layout or the URL encoding of the prompt. `RequestImage` carries the prompt before encoding.
- QR data-URL encoding (index.js:40) and base64 conversion of the image (index.js:170): library encodings. `OnQr` receives the encoded data URL. `ReplyImage` carries the raw PNG bytes, since the MIME type is always `image/png`. A rejected QR encoding, which leaves the record unchanged, is not modelled.
- The transport calls outside the routed handler: `msg.getChat()`, `sendStateTyping()`, `clearStateTyping()` and the apology reply. They are assumed to succeed. In the source, a rejection of any of them rejects the whole handler.
- A rejected `msg.reply` is modelled as a reply that never reached the chat. A reply the transport delivered but then reported as failed is not modelled.
- `console` logging: it has no behavioural content.
- Interleaving of lifecycle callbacks with a message still being handled: each callback and each message is handled atomically.
- `ToLower`: does not model Unicode case mapping, only ASCII folding, because toLowerCase's full mapping is locale-independent Unicode data. Under ASCII folding, the lower-cased body has the same length as the original, so `substring(6)` removes exactly the checked prefix.
- JavaScript strings are UTF-16. The model's strings are sequences of Unicode scalar values, so `substring(6)` counts characters, not code units. The two agree for an `image ` prefix.
- `Dispatch.Persona` holds the full persona text of index.js:97-102. No property looks at its content; each one holds whatever the text is.
