# aistories, modelled in Dafny

aistories is a platform for AI-driven role-play stories. Users write lores
(settings) and characters, start a story in a lore or a collection with a
cast of characters, and take turns with a language model that speaks for
the other characters. The API server guards every mutation with ownership,
visibility, size and NFT checks. It serialises a story's turns with a
per-story advisory lock and a busy flag kept alive by a heartbeat, and it
publishes the story's status on Redis channels. The turn engine assembles
the prompt, attributes the model's reply to a speaker, and compacts old
content into a rolling summary. The `back` server runs chat sessions
against a local language-model process that answers in a small byte
protocol. It also keeps an energy ledger fed by Discord grants and by
on-chain purchases, which a syncer reads from the receiver contract's
logs. The web client caches lores, collections and stories and keeps the
OAuth state in session storage.

The model has one Dafny module per part:

| module | what it models |
|---|---|
| `Common` | optional values, results, the error shapes, JavaScript truthiness and `||` |
| `ApiStore` | the story rows, advisory locks, checked-out connections, Redis keys and published messages the API commands act on (a class) |
| `StoryEngine` | the turn engine of `api/src/ai/story.ts` (the `Story` class and its loops) |
| `AdvanceCommand`, `LegacyAdvanceCommand` | the two `story.advance` mutations |
| `OnStatus` | the `story.onStatus` subscription's decoding |
| `ChatDecoder`, `ChatSession` | the chat process's byte protocol and the two chat `sendMessage` mutations |
| `BackStory` | the `back` server's `addContent` and `sendMessage` story mutations |
| `StoryCreate`, `StoryCast` | the three story creations, and `addChar` and `removeChar` |
| `Catalog` | characters and lores: create, update, find and `filterByLore` |
| `Energy` | the balance formula and the Discord and web3 claims (a `Ledger` class) |
| `EventSyncer` | the conversion of purchase logs and the historical sync loop (a `Syncer` class) |
| `WebAuth`, `WebModels` | the browser's OAuth state and the client-side model caches |

Oracles are parameters of the model:

- the tokenizer, the clock and ISO time formatting;
- the language-model answers, the chat process's output (its stdout `data` chunks) and how many chunks arrive while the session call writes the text;
- the outcome of a story turn: `AdvanceCommand.Advance` and `LegacyAdvanceCommand.Advance` take it as the parameter `generation`, so the turn engine `StoryEngine.Story.Advance` is modelled on its own and not composed into the command;
- Discord's guild lookup, NFT ownership and ERC-1155 balances;
- the random draws, the chain's log queries, and the user found by an address.

Where the code does something surprising, the model follows the code:

- Compaction: the code sets the checkpoint at the cut row but summarises
  only `buffer.slice(0, k - 1)` (api/src/ai/story.ts:270-275). So the cut
  row and the row before it leave the buffer without entering the
  summary, and a cut at the first row summarises all but the last row
  (JavaScript's `slice(0, -1)`). `StoryEngine.CompactDropsTwoRows` and
  `StoryEngine.CompactFromFirstRow` state this.
- Character sheets: the prompt carries a sheet with the personality of
  every loaded character, not only the speaker's.
- Advisory lock: when the lock is already held, `advance`, `addChar` and
  `removeChar` throw without releasing the pooled connection that
  `lock` took. The model counts it as a connection left checked out.
- Legacy `advance`: it never resets the busy key and never stops its
  heartbeat.
- Discord claim: the falsy test on the guild member never rejects
  anyone. The lookup answers `{user: null}` for a non-member, and that
  object is truthy.
- Story cache: the web client's `Story.cache` is read but never written,
  so every lookup queries the server.

## Model

| member | source | states |
|---|---|---|
| StoryEngine.FindByIdSpec | api/src/ai/story.ts:69 | `find` by id gives a loaded character with that id, and gives nothing exactly when no loaded character has it |
| StoryEngine.FindByNameSpec | api/src/ai/story.ts:210 | `find` by name gives a loaded character with that name, and nothing exactly when none has it |
| StoryEngine.FindByNameFirst | api/src/ai/story.ts:210 | `find` by name returns the first loaded character with that name |
| StoryEngine.UnderscoredHasNoSpace | api/src/ai/story.ts:113-115 | the mangled speaker name has no whitespace and is no longer than the name |
| StoryEngine.UnderscoredKeepsPlainNames | api/src/ai/story.ts:113-115 | a name without whitespace is sent unchanged |
| StoryEngine.UnderscoredIdempotent | api/src/ai/story.ts:113-115 | mangling an already mangled name changes nothing |
| StoryEngine.FirstLine | api/src/ai/story.ts:204-205 | what `(.*)` captures is the longest prefix of the rest without a line terminator |
| StoryEngine.TagOfTaggedReply | api/src/ai/story.ts:204-205 | every reply `<name>:rest` with a non-empty name free of `>` matches, capturing the name and the first line of the rest |
| StoryEngine.TaggedReplyOfTag | api/src/ai/story.ts:204-205 | conversely, every match comes from a reply of exactly that shape |
| StoryEngine.AttributeTagged | api/src/ai/story.ts:209-210 | a tagged reply with a non-empty line naming a loaded character goes to the first character with that name, with the captured line as text |
| StoryEngine.AttributeUnknownName | api/src/ai/story.ts:212-214 | a tag naming no loaded character gives the captured line to the narrator (character 0) |
| StoryEngine.AttributeUntagged | api/src/ai/story.ts:215-218 | an untagged reply, or one whose line is empty, goes whole to the narrator |
| StoryEngine.AttributeAlice | api/src/ai/story.ts:204-210 | `<Alice>: Hello` is Alice's line, and the line keeps the space after the colon |
| StoryEngine.CandidatesMembers | api/src/ai/story.ts:127-129 | the characters the model may speak as are exactly the loaded ones that are neither the user's character nor the narrator |
| StoryEngine.ContextParts | api/src/ai/story.ts:71-177 | a prompt that can be built is the header, the sheets, the recap, the transcript (or the opening line) and the instruction, in that order |
| StoryEngine.ContextEnds | api/src/ai/story.ts:73-85 | the prompt opens with the framing entry, then the setup when it is truthy, and ends with the instruction naming the candidates and the user's character |
| StoryEngine.ContextSheets | api/src/ai/story.ts:87-92 | after the header come one sheet per loaded character, in load order, each with that character's personality |
| StoryEngine.ContextRecap | api/src/ai/story.ts:94-101 | after the sheets comes the summary, or the fabula while there is no summary, when either is truthy |
| StoryEngine.ContextOpening | api/src/ai/story.ts:120-125 | with an empty buffer, the entry before the instruction says the AI has to start |
| StoryEngine.ContextTranscript | api/src/ai/story.ts:103-119 | otherwise the entries before the instruction are the buffered rows in id order: the narrator's as assistant lines, everyone else's as user lines named by the mangled name and prefixed by the ISO time |
| StoryEngine.ContextNeedsEveryAuthor | api/src/ai/story.ts:113-115 | a buffered row whose author is not loaded makes prompt building fail with a TypeError |
| StoryEngine.TranscriptErrIsTypeError | api/src/ai/story.ts:113-115 | the only way the transcript fails is the TypeError of a missing author |
| StoryEngine.PushSheets | api/src/ai/story.ts:87-92 | the loop appends exactly one sheet per loaded character |
| StoryEngine.PushTranscript | api/src/ai/story.ts:103-119 | the loop appends the transcript of the buffer, or stops with the TypeError of a missing author |
| StoryEngine.AssembleContext | api/src/ai/story.ts:69-177 | the push sequence builds exactly the specified prompt, errors included |
| StoryEngine.SinceMembers | api/src/ai/story.ts:53-66 | the rows loaded after the checkpoint are exactly the log's rows with a larger id |
| StoryEngine.SinceAppend | api/src/ai/story.ts:241-259 | the rows after a checkpoint of a longer log are those of each part |
| StoryEngine.SinceAll | api/src/ai/story.ts:56 | with a checkpoint below every id, the whole log is buffered |
| StoryEngine.SinceTwice | api/src/ai/story.ts:233 | moving the checkpoint forward twice is moving it once to the later one |
| StoryEngine.SinceAscending | api/src/ai/story.ts:63-65 | the buffer keeps the ascending id order of the log |
| StoryEngine.SinceMember | api/src/ai/story.ts:271-272 | on an ascending buffer, the rows after row k are exactly those at indices above k |
| StoryEngine.ScanIndexIsScanPoint | api/src/ai/story.ts:262-267 | the scan result is -1 when no suffix reaches the soft limit, else an index whose suffix reaches it |
| StoryEngine.ScanIndexLargest | api/src/ai/story.ts:262-267 | the scan point is unique and every shorter suffix stays below the soft limit |
| StoryEngine.ScanBack | api/src/ai/story.ts:262-267 | the backward loop stops at the scan point |
| StoryEngine.JsSliceTo | api/src/ai/story.ts:275 | `slice(0, end)` is a prefix of the buffer |
| StoryEngine.CompactCut | api/src/ai/story.ts:240-275 | over the hard limit, the checkpoint becomes row k's id, the rows to summarize are `buffer[..k-1]` (all but the last row when k is 0), and the rows still buffered are those after k and weigh under the soft limit |
| StoryEngine.CompactDropsTwoRows | api/src/ai/story.ts:272-275 | for k >= 1 the rows at k-1 and k are neither summarized nor kept in the buffer |
| StoryEngine.CompactFromFirstRow | api/src/ai/story.ts:272-275 | for k = 0 the summary input is every row but the last, so the middle rows are both summarized and still buffered |
| StoryEngine.CompactDefers | api/src/ai/story.ts:240 | at or under the hard limit nothing is compacted |
| StoryEngine.CompactExample | api/src/ai/story.ts:262-275 | rows of 100, 100, 100, 100, 300 and 300 tokens with a 10-token reply: checkpoint 5, the first three rows summarized |
| StoryEngine.NextId | api/src/ai/story.ts:328-338 | the new row's id is above every id in an ascending log |
| StoryEngine.AppendNext | api/src/ai/story.ts:328-338 | storing the new row under the next id keeps the log in ascending id order |
| StoryEngine.SettleBuffer | api/src/ai/story.ts:228-326 | the total, the scan and the summary step compute the specified compaction, failing on an empty or failed summary, and send the summarizer `buffer.slice(0, k - 1)` exactly when there is a cut |
| StoryEngine.PlanStoresReply | api/src/ai/story.ts:195-220 | a successful turn stores the attributed reply, its tokenizer length and the completion's token usage under the next id |
| StoryEngine.PlanWithinHardLimit | api/src/ai/story.ts:339-345 | a turn whose buffer plus reply stays within the hard limit of 768 tokens (line 240) writes back the checkpoint and the summary unchanged |
| StoryEngine.PlanSettles | api/src/ai/story.ts:228-346 | a successful turn's checkpoint and summary are what compaction settles on |
| StoryEngine.SettleCut | api/src/ai/story.ts:262-322 | a compaction that succeeds needed a non-empty summary text, and stores the scan point's id as the checkpoint and that text as the summary |
| StoryEngine.CompactionSpacing | api/src/ai/story.ts:9-11 | after a compaction the next turn compacts again only when the reply just stored and the next reply together take more than the 384 tokens between the soft limit (384) and the hard limit (768); otherwise it defers |
| StoryEngine.SettleCompacts | api/src/ai/story.ts:262-322 | compaction moves the checkpoint strictly forward to a buffered row, below every id still to come, takes the non-empty summary and leaves a buffer under the soft limit |
| StoryEngine.PlanCompacts | api/src/ai/story.ts:240-346 | a compacting turn moves the checkpoint strictly forward, replaces the summary, and the next buffer holds only the rows after the checkpoint plus the new line |
| StoryEngine.PlanEmptySummaryFails | api/src/ai/story.ts:319-322 | an empty summary fails the turn: nothing is persisted, not even the reply |
| StoryEngine.Story.constructor | api/src/ai/story.ts:27-42 | a new story has no checkpoint, no summary and an empty log |
| StoryEngine.Story.Advance | api/src/ai/story.ts:23-349 | `advance` sends the specified prompt; the summarizer is called exactly when the prompt builds, the reply is usable and the buffer is cut, and is sent the old summary (the stored summary, or else the fabula, see `OldSummary`) and the rows `Compact` sets aside (`buffer.slice(0, k - 1)`, see `CompactCut`); on success it appends the planned line and writes the planned checkpoint and summary, returning the new id; on failure the story is unchanged |
| StoryEngine.OldSummary | api/src/ai/story.ts:296-300 | the summarizer prompt's old summary is the stored summary when truthy, else the fabula when truthy, else left out |
| ApiStore.Store.TryLock | api/src/server/trpc/commands/story/advance.ts:76-84 | checking out a connection and trying the story's advisory lock: it succeeds exactly when the lock was free, and the connection count grows by one either way |
| ApiStore.Store.Unlock | api/src/server/trpc/commands/story/advance.ts:151-152 | unlocking releases the story's lock and its connection, nothing else |
| ApiStore.Store.Publish | api/src/server/trpc/commands/story/advance.ts:32-38 | a publish appends one message to the channel log, nothing else |
| ApiStore.Store.Set | api/src/server/trpc/commands/story/advance.ts:24-30 | a Redis `set` replaces one key's value, nothing else |
| ApiStore.Store.SetReason | api/src/server/trpc/commands/story/advance.ts:142-145 | the story update writes that story's reason and leaves every other row and field |
| ApiStore.Store.SetCharIds | api/src/server/trpc/commands/story/addChar.ts:93-102 | the story update writes that story's cast and leaves every other row and field |
| AdvanceCommand.ChannelsDistinct | api/src/server/trpc/commands/story/advance.ts:16-22 | a busy channel never equals a reason channel, whatever the prefix and ids |
| AdvanceCommand.BusyChInjective | api/src/server/trpc/commands/story/advance.ts:16-18 | distinct stories have distinct busy channels |
| AdvanceCommand.ReasonChInjective | api/src/server/trpc/commands/story/advance.ts:20-22 | distinct stories have distinct reason channels |
| AdvanceCommand.BusyValue | api/src/server/trpc/commands/story/advance.ts:24-30 | `setBusy` stores "1" or "0", with an expiry exactly when `ex` is truthy |
| AdvanceCommand.EncodeReason | api/src/server/trpc/commands/story/advance.ts:36-38 | the published reason is empty exactly when the reason is falsy |
| AdvanceCommand.GuardSpec | api/src/server/trpc/commands/story/advance.ts:53-74 | the guards pass exactly for the owner of an existing story whose message is absent or within 1024 tokens; otherwise NOT_FOUND, FORBIDDEN, PAYLOAD_TOO_LARGE, in that order |
| AdvanceCommand.Inserted | api/src/server/trpc/commands/story/advance.ts:120-131 | at most one user line is inserted: under the user's character, by the user, with no token usage and its token count as length |
| AdvanceCommand.Heartbeat | api/src/server/trpc/commands/story/advance.ts:93-97 | a tick re-sets the busy key to "1" with a one-second expiry while the call is not done, and does nothing after |
| AdvanceCommand.Advance | api/src/server/trpc/commands/story/advance.ts:52-160 | a failed guard changes nothing; a held lock gives "Story is busy" with no publish and no write (only the connection stays checked out); otherwise the result is the key check or the generation, the user line is inserted, the reason ends cleared on success and holds the error's message on failure, busy "1", the reasons and busy "0" are published in order, the lock is released and the busy key reset |
| AdvanceCommand.Release | api/src/server/trpc/commands/story/advance.ts:150-159 | the `finally` block releases the lock and its connection, stops the story's heartbeat, resets the busy key and publishes busy "0", touching no story or content row |
| AdvanceCommand.Attempt | api/src/server/trpc/commands/story/advance.ts:99-149 | the `try` and `catch` blocks: a missing key or a failed generation records and publishes the error's message as the reason, with the committed user line kept |
| AdvanceCommand.Prepare | api/src/server/trpc/commands/story/advance.ts:114-134 | the transaction clears the reason and inserts the user line, then an empty reason is published |
| LegacyAdvanceCommand.Advance | api/src/trpc/commands/story/advance.ts:28-120 | the same guards and lock; a missing key is written as the reason before the error; success leaves the stored reason as it was; the heartbeat is never stopped and the busy key never reset; only busy "1" and "0" are published; the lock is always released |
| LegacyAdvanceCommand.TryBody | api/src/trpc/commands/story/advance.ts:78-113 | a missing key writes "OpenAI API key is not set" as the story's reason and fails; otherwise the user message, if any, is inserted and the generation's result returned; nothing is published |
| OnStatus.NonZeroRunSpec | api/src/server/trpc/subscriptions/story/onStatus.ts:44 | the leading digit run is nonzero exactly when some digit of it, before any non-digit, is not 0 |
| OnStatus.ParseIntDigit | api/src/server/trpc/subscriptions/story/onStatus.ts:44 | `!!parseInt` of one decimal digit is true exactly when the digit is not 0 |
| OnStatus.ParseIntSignedPrefix | api/src/server/trpc/subscriptions/story/onStatus.ts:44 | leading white space and a sign are skipped and the digits stop at the first other character (" -12px" is truthy) |
| OnStatus.ParseIntHex | api/src/server/trpc/subscriptions/story/onStatus.ts:44 | a `0x` prefix reads hexadecimal digits ("0x1f" is truthy) and "0x" alone is NaN |
| OnStatus.ParseIntZeros | api/src/server/trpc/subscriptions/story/onStatus.ts:44 | only zeros before the first non-digit parse to 0 ("00" and "0.5" are falsy) |
| OnStatus.ParseIntNaN | api/src/server/trpc/subscriptions/story/onStatus.ts:44 | text without leading digits is NaN, hence falsy |
| OnStatus.DecodeBusy | api/src/server/trpc/subscriptions/story/onStatus.ts:43-44 | the busy value `story.advance` publishes decodes back to the same flag |
| OnStatus.DecodeReason | api/src/server/trpc/subscriptions/story/onStatus.ts:40-41 | a published reason decodes to itself when truthy and to null when it was null or empty |
| OnStatus.DecodeOtherStory | api/src/server/trpc/subscriptions/story/onStatus.ts:38-47 | messages on another story's channels emit nothing |
| OnStatus.DecodeAllAppend | api/src/server/trpc/subscriptions/story/onStatus.ts:38-47 | the emissions for two batches of messages are those of each batch in order |
| OnStatus.DecodeAllBusy | api/src/server/trpc/subscriptions/story/onStatus.ts:43-44 | one busy message emits exactly one busy update |
| OnStatus.DecodeAllReason | api/src/server/trpc/subscriptions/story/onStatus.ts:40-41 | one reason message emits exactly one reason update |
| OnStatus.DecodeCleared | api/src/server/trpc/commands/story/advance.ts:134 | the cleared reason published once the key is known emits a null reason |
| OnStatus.DecodeFailure | api/src/server/trpc/commands/story/advance.ts:147 | the error's message published on failure emits that message, or null when it is empty |
| OnStatus.DecodeAnnounced | api/src/server/trpc/subscriptions/story/onStatus.ts:38-47 | a subscriber sees one locked `story.advance` call as busy, the cleared reason when the key is set, the error on failure, then not busy |
| OnStatus.Snapshot | api/src/server/trpc/subscriptions/story/onStatus.ts:18-25 | the subscription fails with NOT_FOUND exactly for an unknown story |
| OnStatus.SnapshotAfterAdvance | api/src/server/trpc/subscriptions/story/onStatus.ts:49-52 | after a call that took the lock, a new subscriber's first emission is not busy, with the reason the call left |
| OnStatus.SnapshotWhileBusy | api/src/server/trpc/subscriptions/story/onStatus.ts:49-52 | while the heartbeat holds the key at "1", the first emission is busy |
| ChatDecoder.Chars | back/src/trpc/routers/chat/session/sendMessage.ts:247 | `String.fromCharCode` maps each byte to one character, in order |
| ChatDecoder.CharsAppend | back/src/trpc/routers/chat/session/sendMessage.ts:247 | decoding a concatenation of byte strings concatenates their characters |
| ChatDecoder.RunAppend | back/src/trpc/routers/chat/session/sendMessage.ts:188-191 | the handler's state does not depend on how the output is split into `data` chunks |
| ChatDecoder.StageForward | back/src/trpc/routers/chat/session/sendMessage.ts:172-178 | the stage only moves forward: prediction, summary, buffer |
| ChatDecoder.StepKeepsText | back/src/trpc/routers/chat/session/sendMessage.ts:200-219 | after every byte the text is the concatenation of the tokens emitted so far |
| ChatDecoder.RunKeepsText | back/src/trpc/routers/chat/session/sendMessage.ts:188-219 | the same holds after any run of bytes |
| ChatDecoder.BufferStep | back/src/trpc/routers/chat/session/sendMessage.ts:264-285 | in the buffer stage a byte only appends to the buffer, and 0x04 marks the processing done |
| ChatDecoder.BufferStageSticks | back/src/trpc/routers/chat/session/sendMessage.ts:264-285 | once in the buffer stage, every later byte except 0x04 goes to the buffer and nothing else changes |
| ChatDecoder.PredictionPlain | back/src/trpc/routers/chat/session/sendMessage.ts:246-248 | in the prediction stage, bytes that are not control bytes only extend the current token |
| ChatDecoder.SummaryPlain | back/src/trpc/routers/chat/session/sendMessage.ts:254-260 | in the summary stage, bytes other than 0x1e only extend the summary |
| ChatDecoder.BufferPlain | back/src/trpc/routers/chat/session/sendMessage.ts:264-283 | in the buffer stage, bytes other than 0x04 only extend the buffer |
| ChatDecoder.OneToken | back/src/trpc/routers/chat/session/sendMessage.ts:200-219 | a token's bytes followed by 0x1f emit that token and append it to the text |
| ChatDecoder.RunTokens | back/src/trpc/routers/chat/session/sendMessage.ts:193-249 | a sequence of tokens, each ended by 0x1f, emits them one by one and the text becomes their concatenation |
| ChatDecoder.RunFramePrefix | back/src/trpc/routers/chat/session/sendMessage.ts:193-244 | 0x02, the tokens, 0x03 and 0x1d leave the handler in the summary stage with the full text, text-complete signalled by the session handler |
| ChatDecoder.RunToBuffer | back/src/trpc/routers/chat/session/sendMessage.ts:254-260 | the summary bytes and 0x1e then leave it in the buffer stage with the summary read |
| ChatDecoder.RunBuffer | back/src/trpc/routers/chat/session/sendMessage.ts:264-285 | the buffer bytes and 0x04 then complete the buffer and the processing, with the finalized update from the session handler |
| ChatDecoder.DecodeFrame | back/src/trpc/routers/chat/session/sendMessage.ts:188-289 | round trip: the handler reads back exactly the tokens, text, summary and buffer the process wrote, and both handlers (back/src/trpc/routers/chat.ts:240-317 too) finish |
| ChatDecoder.Decoder.constructor | back/src/trpc/routers/chat/session/sendMessage.ts:178-186 | a new handler starts in the prediction stage with empty strings |
| ChatDecoder.Decoder.Push | back/src/trpc/routers/chat/session/sendMessage.ts:192-286 | the `switch` on one byte updates the handler's variables exactly as the byte step function `Step` does, so every property proved of `Step` holds of the handler |
| ChatDecoder.Decoder.Feed | back/src/trpc/routers/chat/session/sendMessage.ts:188-289 | the `for` loop over a chunk leaves the state the function `Run` gives for the whole chunk, and keeps the text equal to the tokens emitted |
| ChatDecoder.Decoder.FeedNext | back/src/trpc/routers/chat/session/sendMessage.ts:188-191 | one `data` event extends the bytes read by that chunk |
| ChatDecoder.Decoder.FeedTo | back/src/trpc/routers/chat/session/sendMessage.ts:188-191 | the `data` events of a run of chunks leave the state of all the bytes read so far |
| ChatDecoder.Decoder.FeedUntil | back/src/trpc/routers/chat/session/sendMessage.ts:293 | code awaiting a promise resumes at the end of the first chunk after which it is resolved, or never when no chunk resolves it |
| ChatDecoder.ConcatPrefix | back/src/trpc/routers/chat/session/sendMessage.ts:188 | the chunks read so far are a prefix of the whole output |
| ChatDecoder.RaisedSticks | back/src/trpc/routers/chat/session/sendMessage.ts:236 | a resolved promise stays resolved whatever bytes follow |
| ChatDecoder.FirstRaisedSpec | back/src/trpc/routers/chat/session/sendMessage.ts:293 | the resumption point is the least chunk count whose end sees the promise resolved, and there is none exactly when no chunk end does |
| ChatDecoder.TextSettled | back/src/trpc/routers/chat/session/sendMessage.ts:254-286 | outside the prediction stage the text never changes again |
| ChatDecoder.RunOpening | back/src/trpc/routers/chat/session/sendMessage.ts:193-219 | 0x02 and the encoded tokens give the text so far with nothing signalled |
| ChatDecoder.TextPending | back/src/trpc/routers/chat/session/sendMessage.ts:193-236 | before 0x03 the text is not complete |
| ChatDecoder.TextCompleted | back/src/trpc/routers/chat/session/sendMessage.ts:221-237 | at 0x03 the text is complete and is the whole reply |
| ChatDecoder.TextKept | back/src/trpc/routers/chat/session/sendMessage.ts:241-286 | after 0x03 and 0x1d the text stays the whole reply |
| ChatDecoder.FrameText | back/src/trpc/routers/chat/session/sendMessage.ts:193-244 | along a well-formed answer the text is seen complete only with the whole reply |
| ChatDecoder.FrameDone | back/src/trpc/routers/chat/session/sendMessage.ts:254-286 | along a well-formed answer the processing is seen done only once the whole answer is read |
| ChatDecoder.FrameChunksDone | back/src/trpc/routers/chat/session/sendMessage.ts:188-304 | however a well-formed answer is chunked, the processing is first seen done with the whole answer read |
| ChatDecoder.FrameChunksText | back/src/trpc/routers/chat/session/sendMessage.ts:188-304 | however a well-formed answer is chunked, the session handler first sees the text complete with the whole reply |
| ChatSession.Latest | back/src/trpc/routers/chat/session/sendMessage.ts:47-60 | the chat's latest character message is the last one of that chat, and none exists when the chat has none |
| ChatSession.SessionGateSpec | back/src/trpc/routers/chat/session/sendMessage.ts:41-81 | the session call passes exactly for the owner of an unexpired session whose process runs, unless the latest character message has no text and belongs to the same process; the errors are those four, an unknown session first |
| ChatSession.StaleMessageDoesNotBlock | back/src/trpc/routers/chat/session/sendMessage.ts:67-81 | a message left without text by an earlier process does not block the call |
| ChatSession.ChatGate | back/src/trpc/routers/chat.ts:171-180 | the older call passes exactly for the owner of an unexpired session whose process exists (an exited process is not checked) |
| ChatSession.SessionFrame | back/src/trpc/routers/chat/session/sendMessage.ts:293-327 | for a well-formed answer, however stdout splits it and however many chunks arrive during the text write, the stored text is the whole reply and the chat holds the buffer the process wrote and its summary, or the old summary when the printed one is empty |
| ChatSession.FrameCapture | back/src/trpc/routers/chat/session/sendMessage.ts:293-304 | for a well-formed answer the text is read with the whole reply and the finalization reads the state after the whole answer |
| ChatSession.ChatFrame | back/src/trpc/routers/chat.ts:320-347 | for a well-formed answer, however it is chunked, the older call stores the whole reply and the chat holds the buffer and summary the process wrote |
| ChatSession.SessionOneChunk | back/src/trpc/routers/chat/session/sendMessage.ts:188-304 | an answer in a single chunk is read whole: the text and the finalization both see every byte of it |
| ChatSession.AwaitFinal | back/src/trpc/routers/chat/session/sendMessage.ts:294-304 | after the text write, during which the chunks that arrive are read, the handler reads chunks up to the one that completes the processing, and no further |
| ChatSession.ChatStore.SendSessionMessage | back/src/trpc/routers/chat/session/sendMessage.ts:20-333 | a failed check stores nothing; otherwise a user message and an empty character message are stored; the text is the decoder's at the end of the chunk that completed it, the call hangs when none does, and the finalization and the chat's summary and buffer are those read at the end of the chunk that completes the processing after the text write |
| ChatSession.ChatStore.Settle | back/src/trpc/routers/chat/session/sendMessage.ts:292-327 | the character message gets the text read when it completed, is finalized exactly when a later chunk completes the processing, and the chat's summary and buffer are then those read at that chunk's end |
| ChatSession.ChatStore.SendChatMessage | back/src/trpc/routers/chat.ts:150-348 | a failed check stores nothing; otherwise both messages are stored and, once a chunk completes the processing, the text and the chat read at that chunk's end are written together, later chunks unread |
| BackStory.Others | back/src/trpc/routers/commands/story/addContent.ts:72-74 | the characters that may speak next are exactly the cast without the player's character |
| BackStory.OwnerTurnGuardSpec | back/src/trpc/routers/commands/story/addContent.ts:37-50 | the single-user call passes exactly for the owner of an existing story that is not busy and whose next speaker is the owner's character; "Story not found", "Story is busy", "Not your turn" in that order |
| BackStory.PlayerTurnGuardSpec | back/src/trpc/routers/story/addContent.ts:41-64 | the multi-user call passes exactly for a player of an existing, idle story whose `userMap` character is the next speaker and who has at least one energy, and yields that character |
| BackStory.MessageGuard | back/src/trpc/routers/story/sendMessage.ts:40-54 | a story message passes exactly for the owner of an idle story with at least one energy, and otherwise fails in source order |
| BackStory.TurnPasses | back/src/trpc/routers/commands/story/addContent.ts:65-76 | after a turn the story is busy, so the same call is refused, and when another character exists the next speaker is no longer the player's |
| BackStory.BackStore.TakeTurn | back/src/trpc/routers/commands/story/addContent.ts:65-76 | the story update sets busy, appends the new content id to the buffer and picks the next speaker among the other characters (unchanged when there is none), touching nothing else |
| BackStory.BackStore.AddContent | back/src/trpc/routers/commands/story/addContent.ts:21-88 | a failed check writes nothing; otherwise one content row under the owner's character with its token length is inserted and the turn is taken |
| BackStory.BackStore.AddPlayerContent | back/src/trpc/routers/story/addContent.ts:23-102 | a failed check writes nothing; otherwise one content row under the player's character costing one energy is inserted and the turn is taken |
| BackStory.BackStore.SendMessage | back/src/trpc/routers/story/sendMessage.ts:24-86 | a failed check writes nothing; otherwise the story becomes busy and one user message costing one energy is inserted |
| StoryCreate.Existing | api/src/server/trpc/commands/story/create.ts:54-69 | the characters found are the requested ids that exist, so as many are found as requested exactly when every one exists |
| StoryCreate.FoundAll | api/src/server/trpc/commands/story/create.ts:54-69 | with distinct other characters, the count check passes exactly when the user's character and every other one exist and the user's character is not among the others |
| StoryCreate.FoundMembers | api/src/server/trpc/commands/story/create.ts:54-60 | `findMany` over the ids returns exactly the existing characters among them |
| StoryCreate.ListGuard | api/src/server/trpc/commands/story/create.ts:32-40 | the list checks pass exactly for a non-empty list of other characters without duplicates |
| StoryCreate.NftErrorSpec | api/src/server/trpc/commands/story/create.ts:75-90 | the NFT loop passes exactly when every found character with both NFT columns set has a web3 token and passes the ownership check |
| StoryCreate.CreateInLoreSpec | api/src/server/trpc/commands/story/create.ts:32-101 | story creation in a lore succeeds exactly when the list checks pass, the lore exists, all characters exist with the user's character apart from the others, a truthy web3 token passes `Web3Token.verify` (checked even with no NFT character), and every NFT character is owned; the story then casts the user's character followed by the others, with no next speaker and not busy |
| StoryCreate.CreateInCollectionSpec | api/src/trpc/commands/story/create.ts:27-71 | the older creation succeeds exactly when the list checks pass, the collection exists and all characters exist with the user's character apart; the same cast layout; a duplicate gives the duplicate error and an empty list the empty-list error |
| StoryCreate.Erc1155ErrorSpec | back/src/trpc/commands/story/create.ts:73-100 | the balance loop passes exactly when every found character with an ERC-1155 address has an id, the user has a web3 identity and holds the token |
| StoryCreate.CreateWithTokensSpec | back/src/trpc/commands/story/create.ts:34-113 | the back-end creation succeeds exactly when the collection checks and the balance loop pass; the story is then busy, casts the user's character followed by the others, and its next speaker is one of the others, never the user's character |
| StoryCast.AddGuard | api/src/server/trpc/commands/story/addChar.ts:31-91 | a character can be added exactly when the story is the user's, the character exists and is public or the user's, an NFT character comes with a token and passes the ownership check, fewer than 5 are cast and it is not cast yet; an unknown story is NOT_FOUND |
| StoryCast.AddedSpec | api/src/server/trpc/commands/story/addChar.ts:98 | the new cast has no duplicates, holds the old cast and the new character, and is the old cast plus the character when that was duplicate-free and without it |
| StoryCast.AddKeepsCast | api/src/server/trpc/commands/story/addChar.ts:79-98 | after the checks, the cast grows by exactly the new character, stays duplicate-free and holds at most 5 |
| StoryCast.AddChar | api/src/server/trpc/commands/story/addChar.ts:21-103 | a failed check changes nothing; a held lock gives "Story is busy" with the story unchanged; otherwise the cast is updated under the lock, which is released |
| StoryCast.RemoveGuard | api/src/server/trpc/commands/story/removeChar.ts:27-54 | a character can be removed exactly when the story is the user's, the character is cast, it is not the user's character, and more than two are cast |
| StoryCast.RemovedSpec | api/src/server/trpc/commands/story/removeChar.ts:62 | the filter keeps exactly the other characters, drops every copy of the removed one, and changes nothing when it is absent |
| StoryCast.RemoveKeepsCast | api/src/server/trpc/commands/story/removeChar.ts:35-62 | on a duplicate-free cast, a removal leaves at least two characters, keeps the user's character and stays duplicate-free |
| StoryCast.RemoveChar | api/src/server/trpc/commands/story/removeChar.ts:16-68 | a failed check changes nothing; a held lock gives "Story is busy" with the story unchanged; otherwise the filtered cast is written under the lock, which is released |
| Common.Utf16LengthBounds | api/src/server/trpc/commands/characters/create.ts:43 | JavaScript's `.length` counts each character once, or twice outside the Basic Multilingual Plane, and equals the number of characters exactly when none lies outside it |
| Catalog.CreateCharacter | api/src/server/trpc/commands/characters/create.ts:31-77 | a character is created exactly when the lore exists, the name and about fit 32 and 256 UTF-16 code units (JavaScript's `.length`) and the personality fits 512 tokens; an unknown lore and a long name give their errors; the new row holds the input and the caller as creator |
| Catalog.CreateLore | api/src/server/trpc/commands/lores/create.ts:30-64 | a lore is created exactly when the name and about fit 32 and 512 UTF-16 code units and the prompt fits 512 tokens; a long name and then a long about give their errors; the row stores the prompt as its setup and the caller as creator |
| Catalog.MergeCharacterIdempotent | api/src/server/trpc/commands/characters/update.ts:111-127 | writing the same update twice equals writing it once, and an update giving nothing leaves the character as it was |
| Catalog.UpdateCharacter | api/src/server/trpc/commands/characters/update.ts:32-128 | an update succeeds exactly when the character is the caller's, something is given, a public character is not made private, a full NFT is set only on a character without one, a URI-only change only on one with one, and the ownership check passes; each given field (public, name, about, personality) replaces the stored one and an omitted one is kept; a given `nft` writes its uri, and a full NFT also its contract address and token id, while a URI-only change keeps both; with no `nft` the contract, token id and uri are kept; a public character stays public and a set NFT contract is kept; an unknown character is NOT_FOUND |
| Catalog.UpdateLore | api/src/server/trpc/commands/lores/update.ts:27-96 | an update succeeds exactly when the lore is the caller's, something truthy is given, a public lore is not made private and every truthy text fits its cap (name and about in UTF-16 code units, the prompt in tokens); each given field (public, name, about, prompt) replaces the stored one, empty strings included, and an omitted one is kept (`??`); a public lore stays public |
| Catalog.LoreUpdateFalsy | api/src/server/trpc/commands/lores/update.ts:53-58 | `public: false` alone counts as no change, while a public flag with an empty name is accepted and clears the name |
| Catalog.FindCharacter | api/src/server/trpc/commands/characters/find.ts:13-42 | a character is returned exactly when it exists and is public or the viewer's; the creator sees it whole, anyone else sees it with the personality hidden and nothing else changed |
| Catalog.FindLore | api/src/server/trpc/commands/lores/find.ts:12-37 | a lore is returned exactly when it exists and is public or the viewer's; the creator sees it whole, anyone else sees it with the setup hidden and nothing else changed |
| Catalog.FilterByLoreMembers | api/src/server/trpc/commands/characters/filterByLore.ts:17-30 | the ids returned are exactly those of the lore's characters the viewer may see: public ones or the viewer's own |
| Catalog.FilterByLoreAnonymous | api/src/server/trpc/commands/characters/filterByLore.ts:18-27 | a viewer who is not signed in sees exactly the public characters |
| Catalog.FilterByLoreAscending | api/src/server/trpc/commands/characters/filterByLore.ts:18-29 | the result keeps the query's ascending id order |
| Energy.GrantAmountsAppend | api/src/logic/energy.ts:24-27 | a new grant adds its amount to the user's grant amounts exactly when it is the user's |
| Energy.BalanceAfterGrant | api/src/logic/energy.ts:45-47 | a grant to the user raises the balance by its amount; a grant to anyone else leaves it unchanged |
| Energy.StoryEnergyAppend | api/src/logic/energy.ts:38-40 | a new content row adds its usage to its story's total, a missing usage counting 0 |
| Energy.ContentEnergyUpdate | api/src/logic/energy.ts:35-43 | replacing one story changes the user's content total by that story's difference when it is the user's, and not at all otherwise |
| Energy.BalanceAfterContent | api/src/logic/energy.ts:30-47 | a content row added to one of the user's stories lowers the balance by its usage; one added to another user's story leaves it unchanged |
| Energy.BalanceOfNobody | api/src/logic/energy.ts:8-47 | a user without purchases, stories or grants has a zero balance, whatever other users hold |
| Energy.NoPurchases | api/src/logic/energy.ts:10-13 | the purchase query for a user with no purchases is empty |
| Energy.NoContent | api/src/logic/energy.ts:14-23 | a user with no stories has used no energy |
| Energy.NoGrants | api/src/logic/energy.ts:24-27 | the grant query for a user with no grants is empty |
| Energy.EnergyForRoundsDown | api/src/server/trpc/commands/me/energy/claimWeb3.ts:72-75 | the energy bought is the value times the rate divided by one ether, rounded down |
| Energy.KeptSpec | api/src/server/trpc/commands/me/energy/claimWeb3.ts:48-77 | the purchases kept are at most the events read; each belongs to the caller, comes from an event read, has a value at least the minimum, and its energy is that value's |
| Energy.LatestClaimed | api/src/server/trpc/commands/me/energy/claimWeb3.ts:38-44 | the latest claimed block is none exactly when the user has no purchase, and otherwise is the largest block among the user's purchases |
| Energy.StartBlock | api/src/server/trpc/commands/me/energy/claimWeb3.ts:50 | the events are asked for from one block before the latest claimed one, and with no start block when there is none or it is block 0 |
| Energy.ClaimWindow | api/src/services/eth.ts:96-99 | together with `getReceiverEvents`' own falsy test, the claim reads the last 9000 blocks when no block was claimed yet or the latest claimed one is block 0 or 1, and otherwise from one block before the latest claimed one |
| Energy.Ledger.ClaimDiscord | api/src/server/trpc/commands/me/energy/claimDiscord.ts:36-88 | without a Discord identity, on a failed lookup, or when already granted, the claim fails and changes nothing; otherwise it appends one grant of the configured amount and invalidates the user's cached grants; it keeps at most one Discord grant per user |
| Energy.Ledger.ClaimWeb3 | api/src/server/trpc/commands/me/energy/claimWeb3.ts:30-95 | a rejected web3 token fails the call before anything is read or written; otherwise no kept event means a count of 0 and no change; otherwise exactly the kept purchases whose transaction and log index are new are appended, the count is how many, and the user's cached purchases are invalidated |
| Energy.ClaimTwice | api/src/server/trpc/commands/me/energy/claimDiscord.ts:57-81 | a second Discord claim after a first is refused as already granted, and the user then holds exactly one Discord grant |
| EventSyncer.EvmAddressOfTopic | back/src/eventSyncer.ts:34 | the address read from a topic is the 20-byte address the topic pads to 32 bytes, behind `0x` |
| EventSyncer.Convert | back/src/eventSyncer.ts:23-62 | a log below 0.05 ether is skipped exactly when its value is under the minimum; a log at or above it without a second topic fails; a kept log gives a purchase of its own value, block and index, with value times 25 per ether in energy, for the user owning the address in its second topic |
| EventSyncer.ConvertAllSpec | back/src/eventSyncer.ts:194-196 | converting a page keeps at most one purchase per log, each one valid, and a page of small payments gives no purchases |
| EventSyncer.IndicesAtSpec | back/src/eventSyncer.ts:211-213 | the indices remembered are exactly the log indices of the page's logs in the given block |
| EventSyncer.NextPageSpec | back/src/eventSyncer.ts:194-213 | after a page, reading resumes from the last log's block, remembers exactly the indices seen in that block, including the last log's; the latest saved block and the saved rows change only when the page held a purchase, the block then being the last purchase's |
| EventSyncer.SyncFinished | back/src/eventSyncer.ts:168-192 | the history loop ends normally only when it reached the chain head, got an empty page, or got a page with nothing new |
| EventSyncer.SyncSaves | back/src/eventSyncer.ts:198-204 | however the loop ends, the saved purchases keep every earlier row and hold no two rows with the same transaction and log index |
| EventSyncer.FreshRowsIsFresh | back/src/eventSyncer.ts:198-201 | the purchase insert skips exactly the rows the general duplicate-skipping insert skips for the transaction-and-log-index key |
| EventSyncer.NextPageSaves | back/src/eventSyncer.ts:198-204 | one page keeps every earlier row and adds no duplicate transaction and log index |
| EventSyncer.RepeatedPageStops | back/src/eventSyncer.ts:183-192 | asking again for a page that holds only logs of the resume block already seen stops the loop |
| EventSyncer.LatestBlock | back/src/eventSyncer.ts:129-139 | the starting block is the highest block among the saved purchases, and 0 when there are none |
| EventSyncer.Syncer.constructor | back/src/eventSyncer.ts:129-165 | reading starts from the latest saved block with no indices remembered |
| EventSyncer.Syncer.OnLog | back/src/eventSyncer.ts:148-161 | a realtime log that fails to convert reports the error, a small one is ignored, and a kept one is saved unless its transaction and log index are stored; the loop's cursor is untouched |
| EventSyncer.Syncer.Page | back/src/eventSyncer.ts:194-213 | one page moves the syncer to the state the page function gives, or reports the conversion error and changes nothing |
| EventSyncer.Syncer.Step | back/src/eventSyncer.ts:168-213 | one loop iteration either continues with the remaining work equal to the loop function's, or stops in the loop function's final state and outcome |
| EventSyncer.Syncer.SyncHistory | back/src/eventSyncer.ts:164-214 | the loop ends in exactly the state and outcome of the loop function, so every property proved of it holds of the loop |
| WebAuth.StateKey | web/src/services/auth.ts:26 | every provider's storage key starts with `authState:` |
| WebAuth.WithoutStatesSpec | web/src/services/auth.ts:34-40 | the cleanup keeps exactly the keys not starting with `authState:`, with their values, so no provider state survives |
| WebAuth.ParamSpec | web/src/services/auth.ts:14-19 | a query parameter is found exactly when one of that name was appended |
| WebAuth.AuthorizeUrl | web/src/services/auth.ts:11-20 | the Discord URL goes to `https://discord.com/oauth2/authorize` with six parameters |
| WebAuth.AuthorizeUrlSpec | web/src/services/auth.ts:13-19 | the URL asks for `code`, the client id, the `identify` scope, the given state, the redirect URI and `prompt=none` |
| WebAuth.SessionStorage.GetState | web/src/services/auth.ts:30-32 | a provider's state is present exactly when its key is stored, and is the stored value |
| WebAuth.SessionStorage.SetRandomState | web/src/services/auth.ts:24-28 | the fresh nonce is stored under the provider's key and returned, and reads back as the state |
| WebAuth.SessionStorage.AuthUrl | web/src/services/auth.ts:8-22 | the URL built carries as its state exactly the state now stored for the provider |
| WebAuth.SessionStorage.Cleanup | web/src/services/auth.ts:34-40 | the loop removes exactly the `authState:` keys, keeping every other entry, and afterwards no provider has a state |
| WebModels.Deferred.Resolve | web/src/utils/deferred.ts:31-41 | a pending deferred settles with the value given; a settled one keeps its first value |
| WebModels.DeferredCache.FindOrCreate | web/src/models/Lore.ts:7-26 | a hit returns the stored deferred and sends nothing; a miss stores a new pending deferred under the id and sends the query; `Collection.findOrCreate` in web/src/models/Collection.ts is the same code |
| WebModels.DeferredCache.FindTwice | web/src/models/Lore.ts:7-26 | asking twice for one id gives the same deferred, the query is sent at most once, and the other ids keep their entries |
| WebModels.SettleLore | web/src/models/Lore.ts:16-22 | a pending lore settles to the lore built from the answer, or to null when there is none; a settled one is left alone |
| WebModels.SettleCollection | web/src/models/Collection.ts:16-22 | a pending collection settles to the collection built from the answer, or to null when there is none; a settled one is left alone |
| WebModels.StoryOf | web/src/models/Story.ts:9-50 | one user entry per user id in order, with the character the user map gives it, if any; the characters are the cast in order; the latest content is absent exactly when there is no content, and otherwise is the first content row |
| WebModels.StoryCache.FindOrCreate | web/src/models/Story.ts:52-77 | each call returns a new deferred: settled at once with the cached story on a hit, pending with a query sent on a miss; the cache itself is never written |
| WebModels.SettleStory | web/src/models/Story.ts:62-73 | a pending story settles to the story built from the answer, or to undefined when there is none; a settled one is left alone |

## Left out

- Language-model calls, the tokenizer, the clock and ISO time formatting are parameters. Their answers are given, not computed.
- The prompt templates' wording is abstracted into `StoryEngine.Body` constructors.
- StoryEngine.Story.Advance: the summarizer request holds the old summary and the new lines. The setup, the character sheets and the main character's name, which that prompt repeats from the story, are not part of it.
- The advisory lock is keyed by the story id. Two stories whose XXH64 hashes collide would share a lock in the system. Exclusion across server processes is not modelled either: one `ApiStore.Store` holds all locks.
- Redis key expiry, `setInterval` timing and the heartbeat's periodic writes are not modelled. A heartbeat is an entry in a set that is started and stopped.
- Subscriptions other than `story.onStatus` are not modelled. They only relay published messages.
- The polling wait in back/src/trpc/routers/chat/session/sendMessage.ts:139-168 is not modelled. It waits for the previous reply to finish; the model checks the latest message once.
- Database ids are not modelled: rows are kept in insertion order, and `findMany` returns them in the order the query asks for.
- Transactions are modelled as all-or-nothing writes. Concurrent interleavings between requests are not modelled.
- The `nanoid()` state is the parameter `nonce`. URL encoding of the query parameters (`URLSearchParams`) is not modelled: `WebAuth.Url` keeps the name and value pairs.
- `new URL(...)` validation of image URLs is not modelled: URLs are kept as text, so a malformed URL does not throw.
- `new Date(...)` parsing is not modelled: timestamps are kept as given.
- `Character.findOrCreate` is kept as the id it was asked for. The character cache itself is not part of this model.
- Rejections of `Deferred` and queries that fail are not modelled: a deferred whose query fails stays pending.
- WebModels.Deferred.Resolve: models the promise's settlement, where the first value wins. The `ref` mirror, which a second `resolve` would overwrite, is left out. In the modelled flows each deferred is resolved at most once.
- WebModels.StoryOf: takes `userMap` as already parsed from JSON. A user id missing from the map gives no character rather than `Character.findOrCreate(undefined)`.
- EventSyncer.Convert: the user is the parameter `userOf`. Creating the user row in the upsert is not modelled. `toNumber()` overflow above 2^53 is not modelled, and `blockTime` is kept as the log's timestamp.
- EventSyncer.Syncer.SyncHistory: runs at most `fuel` pages. A run that needs more pages ends with `OutOfFuel`, where the source loop would go on.
- The realtime handler's `if (!log) throw` and the subscription's lifetime are not modelled: `EventSyncer.Syncer.OnLog` receives one log.
- The chain head and the log page are read once per call. The 100-log page limit is part of the `query` parameter.
- Energy.EnergyFor: the rate is a whole number. The API server reads it with `parseFloat`, and a fractional rate is not modelled, nor is `toNumber()` overflow.
- Energy.Ledger.ClaimDiscord: the grant amount is an integer. The source reads it with `parseFloat` from the settings.
- Web3 token verification (`Web3Token.verify`) is the parameter `tokenValid`; a rejected token fails the call with one error whose wording is not modelled. The address it yields is folded into the receiver events, which are a parameter.
- ChatSession.ChatStore.SendSessionMessage: the time the text write takes is counted as the number of stdout chunks that arrive meanwhile (`writeDelay`). The process's timing is otherwise not modelled.
- NFT ownership (`ensureNftOwnership`), ERC-1155 balances and the Discord guild lookup are parameters. Their network calls are not modelled.
- `SCHEMA` and `ensureNftOwnership`, which characters/update.ts imports from `./create`, are not part of this model. The update's field caps are not checked, and the ownership check is the parameter `ownership`.
- `chooseRandom` is modelled by a draw index: `StoryCreate.CreateWithTokens` takes `draw`, and the first speaker is `draw % n`.
- Image upload URLs, the seed scripts and OAuth log-in flows are outside this model.
