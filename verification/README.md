# Proofs about a protocol-translating LLM proxy

The proxy sits between coding clients and an upstream model. It rewrites tool
histories so that calls and results match, guards streamed text against leaked
tool markup, retries attempts, places cache markers in request bodies, limits
concurrency per lane, and translates between the OpenAI and Anthropic forms. This
project models those parts in Dafny and proves what they keep.

## How it is laid out

| part | files |
|---|---|
| text as UTF-8 bytes, searching, numbers, JSON | `Utf8Text`, `Json` |
| tool-history canonicalizer | `ToolHistory` (both passes in place), `ToolHistoryIds` (the stable ids), `ToolHistoryBlocks` (the block form), `ToolHistoryFirstPass` and `ToolHistoryRefinement` (the passes compute it), `ToolHistoryChoice` (which call a result takes), `ToolHistoryTexts` (what a reader finds), `ToolHistorySettled`, `ToolHistoryLaws`, `ToolHistoryExactness`, `ToolHistoryRenaming`, `ToolHistoryLimits`, `ToolBalance`, `ToolExchange` |
| Anthropic translation | `AnthropicHistory`, `AnthropicTexts` |
| markup guard and repair | `DsmlGuard`, `DsmlGuardLaws`, `DsmlGuardReach`, `DsmlRepair`, `DsmlRepairLaws`, `DsmlRepairParts` (leaked calls in every spelling), `DsmlRepairElements` (round trips), `DsmlRepairLimits` (when it panics) |
| OpenAI stream loop | `OpenAiStream` (reading), `OpenAiUpstream` (what a response holds), `OpenAiToolCalls`, `OpenAiAttempt` (its invariant), `OpenAiWaiting` (what is held), `OpenAiLoop` (how an attempt ends), `OpenAiEndings`, `OpenAiPlain`, `OpenAiCallChunks`, `OpenAiLeakServed` (what the client gets), `OpenAiRun`, `OpenAiServe` (whole runs), `OpenAiCrash` |
| cache markers | `MarkerPaths`, `MarkerPathLaws`, `MarkerOrder`, `MarkerWalk`, `StableSplit`, `StableSplitLaws`, `CacheBreakpoints`, `CacheMarkerCount`, `CacheReading`, `CacheBreakpointLaws`, `CacheUserMarks`, `CacheContents` |
| lanes | `Lanes`, `LanesUse` |
| smaller machines | `SseBuffer`, `SseBufferLaws`, `SseLines`, `RingBuffer`, `RingBufferLaws`, `AnthropicLog`, `AnthropicLogLaws`, `StallGuard` |

A Rust string is the sequence of its UTF-8 bytes, one `char` a byte, so lengths
and offsets are byte lengths and byte offsets. Code that mutates slices and
buffers is a method over an `array` or a class, proved against a function; laws
are lemmas about that function. The lane limiter is a state machine over the
atomic steps of any number of threads.

## Where the code and its comments part

* The comment above `take_emittable_text` (`dsml_guard.rs:91-92`) says it emits
  only text that cannot begin a marker. It holds the shortest suspect suffix
  (`dsml_guard.rs:73-83`), so for twelve of its thirteen markers a split can slip
  through. `DsmlGuardReach` has two chunks for each of them and the exact reach.
* The canonicalizer compares a trimmed id with a raw one (`translate.rs:100-117`)
  and drops calls by id (`translate.rs:151`). Padded and repeated ids therefore
  leave results without a call. `ToolHistoryExactness` has the exact condition.
* `SseBuffer` keeps bytes between calls, but the line being built is local to one
  call (`sse.rs:25`), so the buffer is always empty between calls and a line that
  is split across chunks loses its first part. `SseBufferLaws` says exactly which
  cuts are safe.
* `value_at_path` splits keys at `.` and `[` (`proxy/mod.rs:1082`), which the
  printer does not escape. `MarkerPathLaws` says exactly for which paths the two
  undo each other.
* Every stream is meant to end in `[DONE]` (`openai.rs:1235-1247`). When a leaked
  call is repaired, the scan for parameters goes on one byte behind a name that it
  cannot read (`dsml_repair.rs:86-92`); behind white space of several bytes that is
  inside a character, and slicing there panics, so the stream just stops.
  `DsmlRepairLimits` has the exact condition, `OpenAiCrash` carries it to the
  stream, and both have the input.

## Model

| member | source | states |
|---|---|---|
| ToolHistory.CanonicalizeToolHistory | free-model-client-rs/src/protocol/translate.rs:65-130 | the message array is edited in place into `Canonical` of what it was, under either policy, and all five repair counters are those of `CanonicalRepair` |
| ToolHistory.PairMessage | free-model-client-rs/src/protocol/translate.rs:72-125 | one turn of the first pass in place: a message that is no tool message first settles open calls, an assistant message opens its calls, a tool message takes one |
| ToolHistory.PairToolMessage | free-model-client-rs/src/protocol/translate.rs:98-122 | a tool message takes the call it names or else the next open one, is renamed and counted unless its trimmed id is already right, and is downgraded when no call is open |
| ToolHistory.MarkPendingUsed | free-model-client-rs/src/protocol/translate.rs:175-181 | marks the first unused entry with the id and hands back its id, or changes nothing |
| ToolHistory.ConsumeNextPending | free-model-client-rs/src/protocol/translate.rs:183-187 | marks the first unused entry of all, or changes nothing |
| ToolHistory.CollectUnresolved | free-model-client-rs/src/protocol/translate.rs:138-142 | exactly the unused entries, in order |
| ToolHistory.RetainOthers | free-model-client-rs/src/protocol/translate.rs:150-151 | keeps every call of a message but those with the id |
| ToolHistory.DowngradeUnresolvedPending | free-model-client-rs/src/protocol/translate.rs:132-173 | in place: every call that an unused entry names is dropped and counted, a message left without calls and without text gets the note of its policy, the list is emptied |
| ToolHistory.FillCallIds | free-model-client-rs/src/protocol/translate.rs:84-96 | in place: calls with a missing or blank id get a positional one, every call is queued, the missing ones are counted |
| ToolHistory.StabilizeCalls | free-model-client-rs/src/protocol/translate.rs:214-232 | every call gets its positional id, the id map sends its old id there, changed ids are counted |
| ToolHistory.StabilizeMessage | free-model-client-rs/src/protocol/translate.rs:214-246 | one message of the second pass: its calls, then its tool-call id through the map of the ids met so far |
| ToolHistory.StabilizeToolCallIds | free-model-client-rs/src/protocol/translate.rs:214-246 | the whole second pass in place with its counter |
| ToolHistory.SyntheticIdClean | free-model-client-rs/src/protocol/translate.rs:206-212 | a positional id is never blank and has no white space around it |
| ToolHistory.PrintedIdInjective | free-model-client-rs/src/protocol/translate.rs:206-212 | the printed positions alone tell two ids apart, whatever the hashes |
| ToolHistory.SyntheticIdInjective | free-model-client-rs/src/protocol/translate.rs:206-212 | two calls with the same positional id are the same call position |
| ToolHistoryIds.XorByBits | free-model-client-rs/src/protocol/translate.rs:248-258 | the exclusive or of the hash has a binary digit where exactly one of its operands has it |
| ToolHistoryIds.HashGrows | free-model-client-rs/src/protocol/translate.rs:248-258 | the hash is FNV-1a: each byte is mixed into the low bits and the result multiplied by the 64-bit prime, from the offset basis on |
| ToolHistoryIds.IdTells | free-model-client-rs/src/protocol/translate.rs:206-212 | the id ends in sixteen hexadecimal digits whose value is the hash of position, name and arguments |
| ToolHistoryBlocks.PairRunInjective | free-model-client-rs/src/protocol/translate.rs:98-122 | within one run of tool messages answers are a partial injection onto the calls that end up used, and unanswered messages come only once all calls are used |
| ToolHistoryChoice.ResultTakesFirst | free-model-client-rs/src/protocol/translate.rs:98-122 | which call a result takes: if it takes one that has the id it names, then the first unused one with that id; else it names no unused one, and takes the first unused one of all |
| ToolHistoryChoice.UnnamedTakeInOrder | free-model-client-rs/src/protocol/translate.rs:183-187 | results that name nothing take the calls of a fresh run one after another |
| ToolHistoryChoice.ResultGoesToItsCall | free-model-client-rs/src/protocol/translate.rs:65-246 | carried through both passes: on a sound history the result ends up naming the call it took, with its name and arguments |
| ToolHistoryChoice.UnnamedAnswerInOrder | free-model-client-rs/src/protocol/translate.rs:65-246 | on a sound history the t-th result behind a head, if it and those before it carry no id, answers a call with the name and arguments of call t |
| ToolHistoryFirstPass.DropsOnHead | free-model-client-rs/src/protocol/translate.rs:132-173 | dropping call after call by id leaves the message with the calls that no dropped id names, and counts what is gone |
| ToolHistoryFirstPass.ScanIsBlocks | free-model-client-rs/src/protocol/translate.rs:65-127 | from any block boundary the first pass with its pending list computes the block form, messages and counters |
| ToolHistoryRefinement.FirstPassIsBlocks | free-model-client-rs/src/protocol/translate.rs:65-127 | the same for a whole history with calls only on assistant messages and call ids only on tool messages, whatever the ids |
| ToolHistoryRefinement.RawIsPaired | free-model-client-rs/src/protocol/translate.rs:65-173 | on a sound history dropping by id drops exactly the unanswered calls, and every answered result ends up with exactly its call's id |
| ToolHistoryRefinement.StabilizeIsBlocks | free-model-client-rs/src/protocol/translate.rs:214-246 | on a sound history the id map of the second pass sends every result to the stable id of the call it answers |
| ToolHistoryRefinement.CanonicalIsBlocks | free-model-client-rs/src/protocol/translate.rs:65-246 | refinement: on a sound history both passes compute the block form, in which each block is settled on its own, without a pending list or an id map |
| ToolHistoryRefinement.TidyIsSound | free-model-client-rs/src/protocol/translate.rs:65-246 | clean ids that are distinct within each message, and ids only where they belong, make a history sound |
| ToolHistorySettled.ExactRun | free-model-client-rs/src/protocol/translate.rs:98-122 | when every result names a call of its own, each takes the call it names and nothing is repaired |
| ToolHistorySettled.AnswersUseUp | free-model-client-rs/src/protocol/translate.rs:98-187 | every answered result uses up exactly one entry |
| ToolHistorySettled.CanonBlocksSettled | free-model-client-rs/src/protocol/translate.rs:65-246 | the block form of any placed history is settled: positional ids, calls and results one to one in every block, nothing else carries an id |
| ToolHistorySettled.SettledIsFixed | free-model-client-rs/src/protocol/translate.rs:65-246 | a settled history is left alone and nothing is repaired in it |
| ToolHistoryLaws.SettledIsWellPaired | free-model-client-rs/src/protocol/translate.rs:65-246 | in a settled history every result answers one call of the nearest assistant message with only tool messages between, every call has exactly one result, ids are globally unique |
| ToolHistoryLaws.CanonicalIsWellPaired | free-model-client-rs/src/protocol/translate.rs:65-246 | so it is after canonicalization of every sound history, and the number of messages is kept |
| ToolHistoryLaws.CanonicalIsIdempotent | free-model-client-rs/src/protocol/translate.rs:65-246 | a second run over a sound history, under either policy, changes no message and reports the all-zero repair |
| ToolHistoryLaws.FixedExactlyWhenSettled | free-model-client-rs/src/protocol/translate.rs:65-246 | the settled histories are exactly the tidy ones that canonicalization leaves alone |
| ToolHistoryExactness.MappedToCall | free-model-client-rs/src/protocol/translate.rs:214-246 | an id mapped to the stable id of a call is that call's own id and no later call's, whatever earlier messages put into the map |
| ToolHistoryExactness.UsedSurvive | free-model-client-rs/src/protocol/translate.rs:132-173 | in a well-paired block no answered call shares its id with an unanswered one, so exactly the answered calls survive |
| ToolHistoryExactness.NoAlias | free-model-client-rs/src/protocol/translate.rs:100-117 | in a well-paired block no result names its call with white space around the id |
| ToolHistoryExactness.WellPairedExactlyWhenSound | free-model-client-rs/src/protocol/translate.rs:65-246 | exact condition: with calls and ids placed right, the result is well paired if and only if in every block each answered call has an id of its own and no answer is a padded alias |
| ToolHistoryRenaming.CanonicalForgetsNames | free-model-client-rs/src/protocol/translate.rs:65-246 | normal form: a tidy history in which every call has an id, well paired or not, and the same history under any injective renaming of its ids canonicalize to equal message lists |
| ToolHistoryLimits.CanonicalConserves | free-model-client-rs/src/protocol/translate.rs:65-246 | on every history: as many messages, and as many results as before less the downgraded ones; and as many calls as before less the dropped ones, if no tool message carries calls |
| ToolHistoryTexts.CanonicalReads | free-model-client-rs/src/protocol/translate.rs:65-246 | with calls only on assistant messages and ids only on tool messages, every message keeps its role, reasoning, content and some of its calls in order; one that loses all its calls and said nothing gets the note of its policy, and a tool message without a call becomes a user message with all of its text |
| ToolHistoryTexts.CanonicalKeeps | free-model-client-rs/src/protocol/translate.rs:65-246 | on every history, well placed or not: reasoning stays, only tool messages change role, to user, or id, and a message without calls that is no tool message stays as it is |
| ToolHistoryTexts.CountersCount | free-model-client-rs/src/protocol/translate.rs:65-246 | made-up ids are counted once for each call without one, stable ids once for each id that the second pass changes |
| ToolHistoryTexts.PairedCountsRenamed | free-model-client-rs/src/protocol/translate.rs:108-117 | on a tidy history paired results are counted once for each tool message whose id the first pass changes |
| ToolHistoryLimits.PaddedIdDangles | free-model-client-rs/src/protocol/translate.rs:100-117 | one call and one result whose id is the call's id in white space: the result keeps an id that no call has |
| ToolHistoryLimits.RepeatedIdDangles | free-model-client-rs/src/protocol/translate.rs:151-153 | two calls under one id and one result for it: both calls are dropped and the result stays behind |
| ToolBalance.NothingDowngradedExactlyWhenBalanced | free-model-client-rs/src/protocol/translate.rs:65-127 | on a tidy history nothing is downgraded if and only if every assistant message has as many tool messages right behind it as calls, and there are no others |
| ToolExchange.ResultAnswers | free-model-client-rs/src/protocol/translate.rs:65-246 | where every call has its result, each result names one call of the head in front of it |
| ToolExchange.ExchangeIsKept | free-model-client-rs/src/protocol/translate.rs:65-246 | such a history loses nothing and each result stays with the call of the same name and arguments, under its new id |
| AnthropicHistory.AnsweredIsExchanged | free-model-client-rs/src/protocol/translate.rs:41-395 | a conversation whose named tool uses are all answered in the next user turn translates to a history in which every call has its result |
| AnthropicHistory.AnsweredConversationIsKept | free-model-client-rs/src/protocol/translate.rs:41-395 | translation and canonicalization together downgrade nothing in it, pair it well, and keep each result attached to the call with the same name and arguments |
| AnthropicHistory.ResultStaysWithItsUse | free-model-client-rs/src/protocol/translate.rs:41-395 | block by block: a tool use answered by a tool result of its id in the next turn ends up as a call of that name and input, answered by a tool message with the redacted text of the result |
| AnthropicTexts.AssistantGrows | free-model-client-rs/src/protocol/translate.rs:274-343 | an assistant turn is read block by block: a text goes on a line of its own at the end of the content, a thought at the end of the reasoning, a named use at the end of the calls under the next index, anything else nowhere |
| AnthropicTexts.UserGrows | free-model-client-rs/src/protocol/translate.rs:345-395 | a user turn likewise: a result behind the results, a text at the end of the one text message, which comes last |
| AnthropicTexts.OtherGrows | free-model-client-rs/src/protocol/translate.rs:260-419 | in a turn of any other role every block takes a line of one message |
| AnthropicTexts.WholeTurn | free-model-client-rs/src/protocol/translate.rs:260-395 | a turn that is one text is one message with that text, under its own role |
| AnthropicTexts.ConversationGrows | free-model-client-rs/src/protocol/translate.rs:41-59 | the system text comes first unless it is blank, and every turn adds its own messages behind those of the turns before it |
| DsmlGuard.PartialHoldLen | free-model-client-rs/src/proxy/dsml_guard.rs:55-89 | the length held back: an opener that shows neither name nor close, else the shortest suspect suffix of at most 16 bytes on a character boundary |
| DsmlGuard.HoldBack.constructor | free-model-client-rs/src/proxy/dsml_guard.rs:93-96 | a guard starts with nothing held |
| DsmlGuard.HoldBack.TakeEmittable | free-model-client-rs/src/proxy/dsml_guard.rs:93-114 | the held text grows by the chunk; markup is reported and kept, the rest is split into what is released and what is held |
| DsmlGuard.HoldBack.FlushRest | free-model-client-rs/src/proxy/dsml_guard.rs:117-130 | what is held is released, or reported and kept if it has markup in it |
| DsmlGuardLaws.ReleasedAndHeldIsInput | free-model-client-rs/src/proxy/dsml_guard.rs:93-114 | for every chunking released text and held text are together the input so far |
| DsmlGuardLaws.SilentAfterReport | free-model-client-rs/src/proxy/dsml_guard.rs:93-130 | once markup is reported no later chunk and no flush releases anything |
| DsmlGuardLaws.HoldCoversInvoke | free-model-client-rs/src/proxy/dsml_guard.rs:55-89 | what is held reaches at least as far back as any beginning of `invoke name=` at the end of the text |
| DsmlGuardLaws.InvokeNeverDelivered | free-model-client-rs/src/proxy/dsml_guard.rs:54-130 | for every chunking of every input the delivered text never has `invoke name=` in it |
| DsmlGuardReach.CompleteExactlyForInvoke | free-model-client-rs/src/proxy/dsml_guard.rs:3-130 | exact reach: of the thirteen markers the guard withholds one for all chunkings if and only if it is `invoke name=` |
| DsmlGuardReach.Gap | free-model-client-rs/src/proxy/dsml_guard.rs:73-83 | for each of the other twelve markers, two chunks that bring it to the client whole |
| DsmlGuardReach.MarkerIsReported | free-model-client-rs/src/proxy/dsml_guard.rs:3-53 | each of the thirteen markers, spelled out, is reported whenever it is whole in what is held and the chunk, and then nothing goes out |
| DsmlGuardReach.InnocentIsReleased | free-model-client-rs/src/proxy/dsml_guard.rs:55-114 | text without an opener whose last sixteen bytes begin no marker goes out at once |
| DsmlGuardReach.LittleIsHeld | free-model-client-rs/src/proxy/dsml_guard.rs:73-83 | without an opener no more than sixteen bytes are held |
| DsmlGuardReach.HeldIsShortest | free-model-client-rs/src/proxy/dsml_guard.rs:73-83 | without an opener exactly the shortest end of at most sixteen bytes that a marker can begin with is held |
| DsmlGuardReach.OpenerIsHeld | free-model-client-rs/src/proxy/dsml_guard.rs:57-64 | from the last invoke opener on, while it shows neither its name nor its close, everything is held and what is before it goes out |
| OpenAiStream.MergeDelta | free-model-client-rs/src/proxy/openai.rs:1303-1328 | a delta goes to the first call with its index or opens one; the first id stays, a non-empty name replaces, arguments are appended |
| OpenAiStream.MergeToolDeltas | free-model-client-rs/src/proxy/openai.rs:1299-1329 | all deltas of a chunk in order |
| OpenAiStream.ReadResponse | free-model-client-rs/src/proxy/openai.rs:898-982 | the read loop over events, choices and delta parts is the fold of `Step` over the response up to its first break, from the start state |
| OpenAiToolCalls.ArgumentsAreTheFragments | free-model-client-rs/src/proxy/openai.rs:1299-1329 | every index ends up with all of its argument fragments, in order and unmixed |
| OpenAiToolCalls.OneCallPerIndex | free-model-client-rs/src/proxy/openai.rs:1299-1329 | one call for each index, in the order in which the indices were first seen |
| OpenAiToolCalls.MergedCallIs | free-model-client-rs/src/proxy/openai.rs:1299-1329 | a merged call has the fragments of its index for arguments, the first id that came for it and the last name that is not empty |
| OpenAiCallChunks.AnswerTellsCalls | free-model-client-rs/src/proxy/openai.rs:1193-1211 | every answer sends one chunk for each final call, in order, with its index, its whole arguments, the name as the client knows it, and its own or made-up id up to a brace |
| OpenAiCallChunks.AnswerSendsWhatCame | free-model-client-rs/src/proxy/openai.rs:898-1211 | unless a leaked call was repaired, each chunk sent holds all the arguments that the upstream sent for its index, and the first id and last name |
| OpenAiCallChunks.AnswerSendsAllThatCame | free-model-client-rs/src/proxy/openai.rs:898-1211 | and no index of the upstream is left out, in the order in which they were first seen |
| OpenAiUpstream.ResponseIsHeard | free-model-client-rs/src/proxy/openai.rs:898-982 | read straight off the events: the loop takes in every content, reasoning and call of every choice up to the break, in order, and the stop reason and usage told last |
| OpenAiUpstream.BreakIsFirst | free-model-client-rs/src/proxy/openai.rs:898-905 | it stops at the first broken item, with its message |
| OpenAiAttempt.PushTracks | free-model-client-rs/src/proxy/unfinished_intent.rs:107-131 | shown text and held text together grow by exactly the chunk; text is held only while it reads like an unfinished tool intent |
| OpenAiAttempt.ReleaseTracks | free-model-client-rs/src/proxy/openai.rs:915-952 | released text becomes shown or held text, nothing else of the attempt changes |
| OpenAiAttempt.ReadingKnows | free-model-client-rs/src/proxy/openai.rs:898-982 | invariant of the read loop: shown, held and guarded text add up to what was received, the role chunk comes first and once, calls, usage and finish reason are those received, a report is remembered |
| OpenAiLoop.FlushSettles | free-model-client-rs/src/proxy/openai.rs:1000-1050 | after the flushes the whole response is shown or held, for both buffers and the closing fence |
| OpenAiWaiting.IntentIsHeld | free-model-client-rs/src/proxy/unfinished_intent.rs:107-131 | ClaudeCode with tools on offer and no call yet is shown what the guard lets through up to the last release at which that text reads finished; nothing waits for other clients or requests |
| OpenAiWaiting.OthersSeeMarkdown | free-model-client-rs/src/proxy/openai.rs:906-1050 | other clients are shown what the Markdown stage makes of each release, blank pieces left out, and what it ends with |
| OpenAiLoop.SendCalls | free-model-client-rs/src/proxy/openai.rs:1193-1211 | the collected calls go out in order, each under its cleaned id, the role chunk before the first thing sent |
| OpenAiLoop.Conclude | free-model-client-rs/src/proxy/openai.rs:983-1240 | how an attempt ends: given up exactly in the cases of `Retry`, then with at most a role chunk and blank text sent (nothing at all unless for an unfinished intent); left where it is exactly when the repair of its markup panics; else closed by one final or failure chunk and one end mark, with the text, calls, finish reason and message of its case |
| OpenAiLoop.Answer | free-model-client-rs/src/proxy/openai.rs:1118-1240 | the part behind the hold-backs: a bridge, a local probe answer, a retry or a failure for an empty answer |
| OpenAiLoop.Close | free-model-client-rs/src/proxy/openai.rs:1193-1240 | the answer carries all text and all calls and the finish reason, cut off when an announced call never came |
| OpenAiRun.VisibleIsDelivered | free-model-client-rs/src/proxy/openai.rs:898-1050 | for ClaudeCode the two buffers in series show exactly what the markup guard delivers |
| OpenAiRun.AnswerIsExact | free-model-client-rs/src/proxy/openai.rs:898-1240 | an answer in which no markup was found and which is not empty carries the upstream content deltas to the byte |
| OpenAiRun.AnswerIsDelivered | free-model-client-rs/src/proxy/openai.rs:898-1240 | whatever was found, an answer to ClaudeCode carries what the markup guard delivers, followed by the supplement if that is empty |
| OpenAiRun.SupplementIsClean | free-model-client-rs/src/proxy/mod.rs:90-116 | text put in the place of an empty answer has no invoke markup in it |
| OpenAiRun.FinishSaysCalls | free-model-client-rs/src/proxy/openai.rs:651-664 | the final chunk of an answer gives `tool_calls` as its reason if and only if tool calls were sent, and always one of four reasons |
| OpenAiEndings.AnswerText | free-model-client-rs/src/proxy/openai.rs:1118-1170 | an answer to ClaudeCode is the text let through; only if that is blank and no call came it is followed by what stands in: the trimmed thoughts if they can be shown, else the fixed reply to a probe |
| OpenAiEndings.EmptyFails | free-model-client-rs/src/proxy/openai.rs:1118-1192 | exact condition: a whole response without leaked markup is answered if and only if it says something, carries a call, or something can stand in |
| OpenAiEndings.AnswerStops | free-model-client-rs/src/proxy/openai.rs:1212-1240 | the last chunk tells the usage told last, and calls, a tool intent that breaks off, or the last stop reason of the upstream |
| OpenAiEndings.AnswerWithholdsNothing | free-model-client-rs/src/proxy/openai.rs:1000-1083 | an answer without calls withholds nothing: no markup was found in text or thoughts, and both are the upstream content to the byte |
| OpenAiEndings.FailureSays | free-model-client-rs/src/proxy/openai.rs:983-1192 | a failure carries no call and its message says what broke, that markup leaked, or which kind of nothing came, behind all text shown until then |
| OpenAiEndings.BrokenIsRetried | free-model-client-rs/src/proxy/openai.rs:983-999 | exact condition: a broken response is tried again if and only if nothing was shown, no call came and an attempt is left |
| OpenAiEndings.LeakIsRetried | free-model-client-rs/src/proxy/openai.rs:1051-1083 | exact condition: leaked markup that is no call is tried again if and only if nothing was shown and an attempt is left |
| OpenAiEndings.WholeIsRetried | free-model-client-rs/src/proxy/openai.rs:1084-1180 | exact conditions for giving up a whole response as an unfinished intent and as an empty answer, and that there is no other reason |
| OpenAiEndings.LastIsKept | free-model-client-rs/src/proxy/openai.rs:830-1192 | no attempt is given up when no other is left |
| OpenAiPlain.PlainIsServed | free-model-client-rs/src/proxy/openai.rs:898-1192 | a whole response without a byte of a marker lets everything through, never crashes, has no call made up for it, and is answered if and only if the upstream sent text, thoughts or a call, or a probe can be replied to |
| OpenAiRun.RunEndsOnce | free-model-client-rs/src/proxy/openai.rs:830-1249 | exact condition: over all attempts there is one final or failure chunk, then one `[DONE]` and nothing after it, if and only if the repair does not panic on what the last response left; if it does, role chunks and text are all that was sent |
| OpenAiRun.InvokeNeverServed | free-model-client-rs/src/proxy/openai.rs:830-1249 | no ClaudeCode client sees `invoke name=` in the content of any run over any upstream |
| OpenAiServe.Fetch | free-model-client-rs/src/proxy/openai.rs:802-825 | one fetch, and one more with the enriched body only if the upstream missed reasoning and that retry is not spent |
| OpenAiServe.Attempted | free-model-client-rs/src/proxy/openai.rs:836-1240 | one attempt reads its response and ends as decided, or where it is when the repair panics; it is given up only before the last attempt |
| OpenAiServe.Stream | free-model-client-rs/src/proxy/openai.rs:830-1249 | the attempt loop: earlier attempts were given up and sent at most role chunks and blank text, the last one concludes or panics, and the code behind the loop is never reached; each fetch is made with the body that the cause of giving up asks for: for ClaudeCode the one rewritten for tool use behind leaked markup and the enriched one behind an unfinished intent, else the same one |
| OpenAiServe.Serve | free-model-client-rs/src/proxy/openai.rs:778-1250 | every run over any upstream: an error response exactly when the first fetch is refused, else a stream that has one end if and only if the repair panics on no response of the run; at most one fetch more than attempts; a client other than ClaudeCode is served on the original or the enriched body |
| OpenAiCrash.CrashesExactly | free-model-client-rs/src/proxy/openai.rs:1000-1060 | exact condition: a response ends in a panic if and only if it is not broken, leaves markup but no call, and that text names a tool and brings the scan to a parameter name that is white space outside ASCII with no name behind it |
| OpenAiCrash.LeftOverIs | free-model-client-rs/src/proxy/openai.rs:1051-1053 | what the repair is given: thoughts, reported markup and shown text, those that say something, each on lines of its own |
| OpenAiCrash.UnspacedRunsEnd | free-model-client-rs/src/proxy/openai.rs:830-1249 | a run none of whose responses leaves a parameter name directly followed by white space outside ASCII always has its one end |
| OpenAiCrash.SpacedCallCrashes | free-model-client-rs/src/proxy/openai.rs:898-1060 | one content delta with a call whose parameter name is such white space and nothing else panics for every client, whatever tool is named and whatever follows |
| OpenAiCrash.SmallestHasNoEnd | free-model-client-rs/src/proxy/openai.rs:830-1249 | the concrete input: served the one delta `<invoke name="Bash"><parameter name=`, U+3000, `>` the client sees role chunk and text only, and no end |
| OpenAiLeakServed.RepairUndoesTwice | free-model-client-rs/src/proxy/dsml_repair.rs:20-152 | a rendered call told twice, as the guard reports it, is read back as the one call |
| OpenAiLeakServed.LeakedCallIsServed | free-model-client-rs/src/proxy/openai.rs:898-1240 | end to end: a rendered call that leaks in one delta is answered to ClaudeCode with that call, its arguments as printed, the reason `tool_calls` and no text |
| OpenAiLeakServed.LeakedCallIsKept | free-model-client-rs/src/proxy/openai.rs:1051-1108 | and such a response is never given up |
| Lanes.RunKeepsInvariant | zen-proxy-rs/src/lanes.rs:30-127 | in every state of every interleaving, each lane's counter is its live permit groups and at most its limit, and a group's reference count is its permits |
| Lanes.CounterNeverWraps | zen-proxy-rs/src/lanes.rs:38-66 | every won swap adds exactly one, every release takes back exactly one in the lane of its group, no other step moves a counter |
| Lanes.RefusedOnlyWhenFull | zen-proxy-rs/src/lanes.rs:38-61 | when a thread that gives up last read its lane, by its load or a failed swap and with no step of its own since, the lane was exactly full, so spurious failures of the weak swap never refuse a permit |
| Lanes.QuietLanesAreEmpty | zen-proxy-rs/src/lanes.rs:63-127 | once all permits are dropped and all releases have run, every lane is empty |
| LanesUse.TriesAlone | zen-proxy-rs/src/lanes.rs:38-61 | exact condition: from any reachable state a thread that reads its lane and acts before others wins a permit if and only if the lane has room, and gives up if and only if it is full |
| LanesUse.TryingGoesOn | zen-proxy-rs/src/lanes.rs:38-61 | a thread in its loop can always go on |
| LanesUse.WinnerHolds | zen-proxy-rs/src/lanes.rs:45-55 | winning gives one new permit for the lane tried and leaves every other permit |
| LanesUse.CloneShares | zen-proxy-rs/src/lanes.rs:88-110 | cloning gives one new permit that shares the place of the old one and moves no counter |
| LanesUse.DropTakesOne | zen-proxy-rs/src/lanes.rs:88-127 | dropping a permit takes that one away and no other |
| LanesUse.ReleasedExactlyWhenUnheld | zen-proxy-rs/src/lanes.rs:88-127 | a place is given back if and only if no permit holds it any more |
| LanesUse.PermitKeepsItsPlace | zen-proxy-rs/src/lanes.rs:30-127 | over any run a permit keeps its place in its lane until it is dropped itself |
| Lanes.Acquire | zen-proxy-rs/src/lanes.rs:147-206 | for every outcome of the tries: granted if and only if one of the first ceil(timeout / 10) + 1 succeeds, the first success wins, the waited time saturates |
| MarkerPaths.Collect | free-model-client-rs/src/proxy/mod.rs:990-1011 | the collector pushes the printed path of every marked object behind what is there, an object before what is inside it |
| MarkerPaths.ValueAtPath | free-model-client-rs/src/proxy/mod.rs:1077-1098 | the loop over the printed path is the recursive walk, with its key ends, index syntax and failures |
| MarkerPathLaws.MarksAreTheMarked | free-model-client-rs/src/proxy/mod.rs:984-1011 | a path is collected if and only if it leads to an object with a marker |
| MarkerPathLaws.MarksAreDistinct | free-model-client-rs/src/proxy/mod.rs:984-1011 | no marked object is collected twice |
| MarkerPathLaws.WalkFollows | free-model-client-rs/src/proxy/mod.rs:1077-1098 | for paths with plain keys, walking the printed path is following the path |
| MarkerPathLaws.WalkUndoesPrintExactlyWhenPlain | free-model-client-rs/src/proxy/mod.rs:1077-1098 | exact condition: walking undoes printing on every value that has the path if and only if no key on it has `.` or `[` in it |
| MarkerPathLaws.PrintIsInjective | free-model-client-rs/src/proxy/mod.rs:990-1011 | plain paths that print the same are the same |
| MarkerPathLaws.LocationsFindTheMarked | free-model-client-rs/src/proxy/mod.rs:984-1098 | walking a collected location finds the marked object it stands for |
| MarkerPathLaws.LocationsAreDistinct | free-model-client-rs/src/proxy/mod.rs:984-1011 | the collected locations are pairwise distinct texts |
| MarkerOrder.MarksInOrder | free-model-client-rs/src/proxy/mod.rs:984-1011 | locations are collected in the order in which the tree is stored: an object before what is inside it, fields and items as they come |
| MarkerWalk.WalkFindsExactly | free-model-client-rs/src/proxy/mod.rs:1077-1098 | exact grammar: walking a text finds a value if and only if the text spells a path to it, keys behind dots, indices in brackets with leading zeros or a plus sign |
| MarkerWalk.LocationOfPart | free-model-client-rs/src/proxy/mod.rs:990-1011 | how the location of a part of a message is spelled |
| StableSplit.FindRustCodeblockTailSplit | free-model-client-rs/src/canonical/mod.rs:575-592 | the finder with its loop is `FenceSplit`: behind the first closed fence and its line breaks, if text follows |
| StableSplit.FindUtf8ByteSplitIndex | free-model-client-rs/src/canonical/mod.rs:594-603 | the last character boundary at or before the target |
| StableSplit.SplitUserTextStableTail | free-model-client-rs/src/canonical/mod.rs:552-573 | stable part and tail are the text, the cut is where `Cut` says, a tail is never empty |
| StableSplit.FenceSplitDependsOnFront | free-model-client-rs/src/canonical/mod.rs:575-592 | exact condition: with the fence split behind a front, any other tail is split there again if and only if it is non-empty and does not start with a line break |
| StableSplit.StablePartIsReused | free-model-client-rs/src/canonical/mod.rs:552-573 | so a fenced block of at least 1024 bytes is cached as the same bytes whatever follows it |
| StableSplit.CutIsBoundary | free-model-client-rs/src/canonical/mod.rs:552-603 | the cut is between two characters |
| StableSplitLaws.FenceSplitIsBlockEnd | free-model-client-rs/src/canonical/mod.rs:575-592 | exact condition: the split is at k if and only if the first block of Rust code closes before it with nothing but line breaks between, and something else stands at k |
| StableSplitLaws.CutBehindBlock | free-model-client-rs/src/canonical/mod.rs:552-573 | a block that ends at 1024 bytes or later is where the text is cut |
| StableSplitLaws.CutBySize | free-model-client-rs/src/canonical/mod.rs:552-603 | exact condition: a text without such a block is cut if and only if it is longer than 131072 bytes, at the last character boundary up to there, at most three bytes before it |
| StableSplitLaws.LongPartIsReused | free-model-client-rs/src/canonical/mod.rs:552-603 | so two such texts that agree on their first 131073 bytes are cached as the same bytes |
| CacheBreakpoints.Longest | free-model-client-rs/src/canonical/mod.rs:630-634 | the longest of the user messages, the last among equals |
| CacheBreakpoints.AddToLastRole | free-model-client-rs/src/canonical/mod.rs:833-850 | in place: the last message of the role is marked and no other changes |
| CacheBreakpoints.UserIndices | free-model-client-rs/src/canonical/mod.rs:618-628 | the positions of the user messages in order |
| CacheBreakpoints.ApplyUserBreakpoints | free-model-client-rs/src/canonical/mod.rs:614-692 | in place under a budget: opening turn, follow-up or anchor, primary message |
| CacheBreakpoints.ApplyStableBreakpoints | free-model-client-rs/src/canonical/mod.rs:522-545 | tools, last system message and users under the budget of four, on a copy of the message list put back into the body; a body of any other model is left alone |
| CacheMarkerCount.CountIsLocations | free-model-client-rs/src/proxy/mod.rs:984-1011 | the number of markers in a tree is the number of locations collected in it |
| CacheMarkerCount.MarkMessageCounts | free-model-client-rs/src/canonical/mod.rs:852-884 | marking a message adds one marker if it says so and none if not; an unmarked message always takes one |
| CacheReading.ChunkedTextReads | free-model-client-rs/src/canonical/mod.rs:790-811 | one marked part, or a marked stable part and a tail, read as the text they were made of |
| CacheReading.MarkMessageReads | free-model-client-rs/src/canonical/mod.rs:768-884 | marking a message changes neither what it says nor its role |
| CacheReading.StripClear | free-model-client-rs/src/canonical/mod.rs:745-766 | stripping a message without markers changes nothing |
| CacheBreakpointLaws.MarkUsersIsFaithful | free-model-client-rs/src/canonical/mod.rs:614-692 | the user edits account for every marker they add and keep what every message says |
| CacheBreakpointLaws.MarkToolsReads | free-model-client-rs/src/canonical/mod.rs:529-534 | marking the tools leaves the messages alone |
| CacheBreakpointLaws.OpeningStaysPinned | free-model-client-rs/src/canonical/mod.rs:614-692 | when several user turns hold no marker yet, the opening turn ends with exactly the mark of user chunking, whatever is marked after it |
| CacheBreakpointLaws.LongTurnStaysOpen | free-model-client-rs/src/canonical/mod.rs:614-692 | a latest turn that is no short follow-up is left as it was |
| CacheBreakpointLaws.AnchorIsMarked | free-model-client-rs/src/canonical/mod.rs:657-669 | then, with budget for two, the last assistant or tool message before that turn is marked |
| CacheBreakpointLaws.ShortTurnIsMarked | free-model-client-rs/src/canonical/mod.rs:614-692 | with budget for two, a latest turn that is a short follow-up ends with exactly one marker, its own |
| CacheUserMarks.SingleTurnIsMarked | free-model-client-rs/src/canonical/mod.rs:614-692 | the one unmarked user message of a first turn ends with one marker, and nothing else of the list is touched |
| CacheUserMarks.PrimaryIsMarked | free-model-client-rs/src/canonical/mod.rs:678-689 | with budget for three and no short follow-up the longest user message, the last among equals, ends with one marker when it is neither the opening nor the latest one; besides it and the opening no user message is touched |
| CacheUserMarks.ShortExactly | free-model-client-rs/src/canonical/mod.rs:630-656 | exact condition for plain texts: the latest turn is a short follow-up if and only if it has at most 8192 bytes and neither it nor the longest user message opens a block of Rust code |
| CacheUserMarks.StablePartIsMarked | free-model-client-rs/src/canonical/mod.rs:790-811 | a user text becomes one marked part, or a marked stable part in front of an unmarked tail |
| CacheUserMarks.LastPartIsMarked | free-model-client-rs/src/canonical/mod.rs:825-832 | in a list of parts the marker goes behind the fields of the last part that is an object |
| CacheUserMarks.SingleTurnOfBody | free-model-client-rs/src/canonical/mod.rs:522-692 | in a marker-free body with one user message that message carries one marker when it goes out |
| CacheUserMarks.PrimaryOfBody | free-model-client-rs/src/canonical/mod.rs:522-692 | in a marker-free body the longest user message, neither opening nor latest and without a short follow-up, carries one marker, unless a tool and a system message have both taken one |
| CacheUserMarks.SystemOfBody | free-model-client-rs/src/canonical/mod.rs:535-540 | the last system message of a marker-free body carries one marker when it goes out |
| CacheUserMarks.ToolOfBody | free-model-client-rs/src/canonical/mod.rs:529-534 | the last tool that is an object carries one marker and no other tool is touched |
| CacheContents.OtherUsersStay | free-model-client-rs/src/canonical/mod.rs:614-692 | in a conversation of several turns no user message is touched but the opening one, the latest one if it is a short follow-up, and else the longest one if it is not the latest |
| CacheContents.CodeExactly | free-model-client-rs/src/canonical/mod.rs:694-707 | exact condition: a message holds code if and only if its text, or the text of a part, opens a block of Rust code |
| CacheContents.LengthGrows | free-model-client-rs/src/canonical/mod.rs:732-743 | the length of a list of parts is the sum of theirs, nested lists included |
| CacheContents.PlainLengths | free-model-client-rs/src/canonical/mod.rs:732-743 | a text counts its bytes, a part those of its text, anything else nothing |
| CacheContents.MessageIsMarked | free-model-client-rs/src/canonical/mod.rs:852-884 | a message whose content takes no marker is marked itself |
| CacheContents.ObjectContentIsMarked | free-model-client-rs/src/canonical/mod.rs:861-876 | a content that is one object is marked itself, and in its message nothing else |
| CacheContents.StrippedIsClear | free-model-client-rs/src/canonical/mod.rs:745-766 | a stripped message has no marker of its own, on its content or on a part of it |
| CacheBreakpointLaws.BreakpointsKeepTheBody | free-model-client-rs/src/canonical/mod.rs:522-884 | a body without markers has exactly the reported number of them afterwards, at most four, and says what it said before |
| DsmlRepair.ReadParameter | free-model-client-rs/src/proxy/dsml_repair.rs:76-111 | one turn of the scan reads what `NextParameter` reads and moves the offset strictly forward; it panics where the scan would go on inside a character |
| DsmlRepair.ExtractNamedParameters | free-model-client-rs/src/proxy/dsml_repair.rs:71-113 | the scan by offsets collects what the recursion over the rest of the text collects, and panics where that does |
| DsmlRepair.RepairInvokeLeak | free-model-client-rs/src/proxy/dsml_repair.rs:20-36 | name, named parameters, then elements for what was not named; nothing if there is no name or no parameter; a panic if there is a name and the scan panics |
| DsmlRepairParts.ClosingIs | free-model-client-rs/src/proxy/dsml_repair.rs:115-134 | of the closing tags of a parameter the earliest is found, in any spelling and case, behind content without brackets |
| DsmlRepairParts.ScanReadsParts | free-model-client-rs/src/proxy/dsml_repair.rs:71-113 | the scan collects the named parts of a leaked call in order, the last value of a name standing and empty values left out |
| DsmlRepairParts.ElementOfParts | free-model-client-rs/src/proxy/dsml_repair.rs:136-152 | of each of the twelve tags the first element is read, wherever it stands between parameters, other elements and white space |
| DsmlRepairParts.RepairReadsParts | free-model-client-rs/src/proxy/dsml_repair.rs:20-152 | a leaked call in any spelling, quotes, case and order is read back: its name, under each key the value named last or else that of the first element of that tag, and nothing else; without any value there is no call |
| DsmlRepairElements.RepairReadsElements | free-model-client-rs/src/proxy/dsml_repair.rs:20-152 | named parameters and then elements that may hold any text without brackets: unless the scan panics the call has the named parameters and the elements whose tag was not named |
| DsmlRepairElements.RepairUndoesElements | free-model-client-rs/src/proxy/dsml_repair.rs:20-152 | round trip: for any word as name and any non-empty list of distinct tags with trimmed bracket-free values, repairing the elements gives the name and exactly that map, except that it panics if and only if the scan for names gets stuck in a value |
| DsmlRepairElements.RepairUndoesRender | free-model-client-rs/src/proxy/dsml_repair.rs:20-152 | round trip: for any word as name and any non-empty list of word keys with trimmed bracket-free values, repairing the rendered call gives the name and exactly that map |
| DsmlRepairLimits.NoNameExactly | free-model-client-rs/src/proxy/dsml_repair.rs:46-69 | no value is read exactly from an empty text, one that begins with a closing bracket or a bar, an unclosed quote, or a quoted blank |
| DsmlRepairLimits.TurnPanicsExactly | free-model-client-rs/src/proxy/dsml_repair.rs:80-93 | one turn panics if and only if white space outside ASCII stands right behind the equals sign and no value is read behind it |
| DsmlRepairLimits.ScanPanicsExactly | free-model-client-rs/src/proxy/dsml_repair.rs:71-113 | exact condition: the scan panics if and only if a turn that it comes to is such a one |
| DsmlRepairLimits.RepairPanicsExactly | free-model-client-rs/src/proxy/dsml_repair.rs:20-152 | exact condition: the repair panics if and only if the text names a tool and the scan comes to such a turn |
| DsmlRepairLimits.UnspacedNeverPanics | free-model-client-rs/src/proxy/dsml_repair.rs:20-152 | text in which no parameter name is directly followed by white space outside ASCII is repaired or left, without a panic |
| DsmlRepairLimits.SpacedCallPanics | free-model-client-rs/src/proxy/dsml_repair.rs:76-88 | the failing family: every call of a word name whose first parameter name is such white space before a closing bracket |
| SseBuffer.Buffer.constructor | zen-proxy-rs/src/sse.rs:8-15 | a buffer starts empty and not done |
| SseBuffer.Buffer.EndLine | zen-proxy-rs/src/sse.rs:32-49 | a line ends as the done line, a blank line, a patched line or nothing, and nothing goes out once done |
| SseBuffer.Buffer.TakeEnd | zen-proxy-rs/src/sse.rs:27-31 | a line ending is taken off, a carriage return with its line feed |
| SseBuffer.Buffer.PushBytes | zen-proxy-rs/src/sse.rs:20-56 | the lines sent are the outputs of the terminated lines, the done flag is kept up, the buffer is empty afterwards |
| SseBufferLaws.CutIsSafeExactlyBehindLineFeed | zen-proxy-rs/src/sse.rs:20-56 | exact condition: cutting the stream behind a text is invisible for every continuation if and only if the done line has passed, the text is empty, or it ends in a line feed |
| SseBufferLaws.AlignedChunksAreOneText | zen-proxy-rs/src/sse.rs:20-56 | chunks that end neither inside a line nor inside a line ending come out as one text |
| SseBufferLaws.EndingsReadTheSame | zen-proxy-rs/src/sse.rs:26-31 | exact condition: lines written with any mix of LF, CR and CRLF are read back if and only if no two endings run together |
| SseBufferLaws.DoneIsLast | zen-proxy-rs/src/sse.rs:32-38 | the done line goes out at most once and nothing goes out after it; it is out if and only if the flag is set |
| SseBufferLaws.DoneIsLastOfAll | zen-proxy-rs/src/sse.rs:20-56 | so it is over any number of pushes |
| SseLines.EachLineGoesOut | zen-proxy-rs/src/sse.rs:32-49 | each line adds its own output behind those before it: nothing behind the end of the stream, one spelling for both spellings of the end, a blank line as it is, else what the patch makes of it unless that is nothing |
| SseLines.LinesPassThrough | zen-proxy-rs/src/sse.rs:20-56 | a text whose lines the patch leaves alone and none of which ends the stream goes out as it was written, each line ending as a line feed |
| RingBuffer.Buffer.constructor | zen-proxy-rs/src/collector/ring_buffer.rs:18-24 | an empty buffer with a capacity of at least one |
| RingBuffer.Buffer.Push | zen-proxy-rs/src/collector/ring_buffer.rs:26-33 | the entries stay the last pushes under their numbers, the oldest going first |
| RingBuffer.Buffer.Query | zen-proxy-rs/src/collector/ring_buffer.rs:35-62 | a page of the pushes so far: the items at the numbers of the page, and where the next page starts |
| RingBuffer.ReadPage | zen-proxy-rs/src/collector/ring_buffer.rs:48-59 | the loop from the newest entry down is the scan of the kept pushes |
| RingBufferLaws.ScanDescends | zen-proxy-rs/src/collector/ring_buffer.rs:48-59 | a page falls strictly, passes the filter, lies in its window; a page with a successor is full and moves on by its length |
| RingBufferLaws.ScanIsComplete | zen-proxy-rs/src/collector/ring_buffer.rs:48-59 | a page has exactly the kept entries of its window that pass the filter |
| RingBufferLaws.SessionFalls | zen-proxy-rs/src/collector/ring_buffer.rs:26-62 | following the cursor between any pushes never returns an entry twice and always falls |
| RingBufferLaws.SessionIsComplete | zen-proxy-rs/src/collector/ring_buffer.rs:26-62 | a finished session returns an entry of the first page's time that passes the filter if and only if it was not evicted before its own page |
| RingBufferLaws.SessionEnds | zen-proxy-rs/src/collector/ring_buffer.rs:26-62 | a session is finished after one page more than the pushes divided by the limit |
| AnthropicLog.JsonDeltaChunks | free-model-client-rs/src/proxy/anthropic.rs:1512-1534 | the chunker with its two loops is `Pieces` |
| AnthropicLog.PiecesAreTheInput | free-model-client-rs/src/proxy/anthropic.rs:1512-1534 | the pieces are the input and none is empty |
| AnthropicLog.PiecesFit | free-model-client-rs/src/proxy/anthropic.rs:1512-1534 | each piece has at most 4096 bytes and starts on a character boundary |
| AnthropicLog.PiecesAreFull | free-model-client-rs/src/proxy/anthropic.rs:1512-1534 | each piece but the last has at least 4093 bytes |
| AnthropicLog.SkipDuplicate | free-model-client-rs/src/proxy/anthropic.rs:1422-1443 | a ClaudeCode call is skipped if and only if its signature was seen |
| AnthropicLog.SendCall | free-model-client-rs/src/proxy/anthropic.rs:3620-3631 | one block a call: start, deltas of its input unless that is an empty object, stop |
| AnthropicLog.BufferedLog | free-model-client-rs/src/proxy/anthropic.rs:3598-3643 | the whole log: start, text unless blank, one block a sent call, end |
| AnthropicLogLaws.LogReadsBack | free-model-client-rs/src/proxy/anthropic.rs:3598-3643 | a client that accepts only one start, blocks 0, 1, 2 and so on each stopped before the next, and one end, reads back exactly the text and the sent calls with their whole inputs |
| AnthropicLogLaws.SentOnce | free-model-client-rs/src/proxy/anthropic.rs:1422-1443 | ClaudeCode is sent no signature twice |
| AnthropicLogLaws.NoneLost | free-model-client-rs/src/proxy/anthropic.rs:1422-1443 | every call that can be sent is sent, or one with its signature was |
| AnthropicLogLaws.SentAll | free-model-client-rs/src/proxy/anthropic.rs:1422-1443 | other clients are sent every call that can be sent, in order |
| AnthropicLogLaws.SignatureTellsApart | free-model-client-rs/src/proxy/anthropic.rs:1422-1443 | exact condition: calls whose names have no colon count as the same if and only if their names agree but for case and their inputs are equal |
| AnthropicLogLaws.ColonsConfuse | free-model-client-rs/src/proxy/anthropic.rs:1422-1443 | with a colon in a name two different calls count as the same |
| AnthropicLogLaws.SentIsFirsts | free-model-client-rs/src/proxy/anthropic.rs:1422-1443 | ClaudeCode is sent exactly the calls that can be sent and before which no same call can be sent, in order |
| AnthropicLogLaws.ClientReadsFirsts | free-model-client-rs/src/proxy/anthropic.rs:3598-3643 | and those are what a strict client reads back, each with its whole input, behind the text |
| StallGuard.LimitsFor | free-model-client-rs/src/proxy/anthropic.rs:1463-1475 | the retry limit is positive, at most 45 seconds and never above the longest wait |
| StallGuard.LimitBySize | free-model-client-rs/src/proxy/anthropic.rs:1463-1475 | a request is given some number of seconds up to 45 if and only if that much is configured and the request reaches the size of the bucket: 50,000 tokens above 10 seconds, 100,000 above 14, 200,000 above 22, 400,000 above 32 |
| StallGuard.OtherLimits | free-model-client-rs/src/proxy/anthropic.rs:1463-1475 | stall window and longest wait are as configured, but at least a second and at least the retry limit |
| StallGuard.WaitOutSilence | free-model-client-rs/src/proxy/anthropic.rs:1289-1317 | from the moment of silence, wait-then-check decides no earlier than the retry limit and no later than the longest wait or one millisecond after a later silence, plus the lateness of the last wait; every wait but the last is a whole ping, so it wakes no more often than needed |
| StallGuard.GrowingReasoningIsSpared | free-model-client-rs/src/proxy/anthropic.rs:1289-1317 | the exact time of the first positive decision for given reasoning progress, in this attempt or before it |

## Left out

- ToolHistoryLaws.CanonicalIsIdempotent: is stated for sound histories; what a second run does on the others is not.
- ToolHistoryRenaming.CanonicalForgetsNames: asks for clean and distinct ids, because renaming an unclean id changes what trimming does to it.
- ToolBalance.NothingDowngradedExactlyWhenBalanced: asks for clean and distinct ids, since dropping by id removes more than one call otherwise.
- ToolHistory.CanonicalizeToolHistory: message lists are arrays of values, so moving a message's fields is not told apart from copying them; structured content is known by its JSON text, and a role other than the three named ones by its string.
- AnthropicHistory.AnsweredConversationIsKept: tool inputs and results are known by the text they print as; redaction of result text is a given value, and removal of billing lines from the system text is not modelled.
- DsmlRepair.ExtractNamedParameters: map order and printing of the arguments are not modelled.
- DsmlRepairElements.RepairUndoesRender: names and keys are ASCII letters, digits, `_` and `-`, and values have no `<` in them.
- DsmlRepairParts.RepairReadsParts: contents have no `<` in them, white space around values is ASCII, and no element may hold text that itself names a parameter; where elements come last, RepairReadsElements does without the last condition.
- AnthropicLogLaws.SignatureTellsApart: asks for names without a colon, since the signature joins name and input with one; ColonsConfuse shows that it has to.
- CacheUserMarks.PrimaryOfBody: asks that a tool or a system message leaves its marker, because of the budget of four none is left for the longest message otherwise.
- OpenAiLeakServed.LeakedCallIsServed: is stated for a call that comes in one delta and nothing else; how several reports add up is known from LeftOverIs.
- OpenAiPlain.PlainIsServed: asks that no content has one of the four bytes of which every marker has one.
- ToolHistoryChoice.UnnamedAnswerInOrder: asks for a sound history, as the other laws of both passes do.
- OpenAiCrash.CrashesExactly: asks that the text is UTF-8, which the type of a Rust string guarantees.
- OpenAiServe.Serve: a panic is modelled as the end of what the client sees; how the server then closes the connection is not. Response streams are finite; an upstream that never ends is not modelled. Usage estimates, cache logging and the rewriting inside retry bodies are left out, a body is known by how it was made.
- OpenAiLoop.Conclude: the unfinished-intent predicate, redaction with fence repair, printing of repaired arguments and tool-name lookup are arbitrary functions that return; a printed map always parses as JSON, so that check is left out.
- OpenAiRun.InvokeNeverServed: is about ClaudeCode, whose text is passed on unchanged; redaction and fence repair of other clients' text are arbitrary functions and could spell anything.
- Lanes.RunKeepsInvariant: steps are atomic and sequentially consistent; which lane a request is put into is not modelled.
- Lanes.Acquire: a sleep takes exactly its ten milliseconds.
- MarkerPaths.Collect: objects are sequences of fields in stored order; hashing of the located blocks is left out.
- CacheBreakpoints.ApplyStableBreakpoints: a new marker is appended behind the other fields; whether the model name asks for breakpoints is a flag. The Anthropic variant of the placement, which has no stable split, is left out.
- SseBuffer.Buffer.PushBytes: patching one line is an arbitrary function; for the law about the done line it must not turn another line into that one.
- RingBuffer.Buffer.Push: entry numbers do not wrap at 2^64, and pushes do not overlap, because the source takes a number before it takes the lock.
- StallGuard.WaitOutSilence: starts where the upstream falls silent; events before that only set when reasoning last grew, which can be before the attempt.
- AnthropicLog.BufferedLog: usage figures and message ids are left out; whether a call can be sent, and its canonical input, are given.
- HTTP, timers, configuration, logging and telemetry have no invariant of their own and are left out.
- Pools, dispatch and dynamic model registry are not part of this model.
- The live Anthropic stream, whose text and thinking blocks can take the same index, is left out in favour of the buffered one.
