# History reconciliation and session identity of the character-chat proxy

The proxy accepts OpenAI-style chat-completion requests. It forwards each one to a character
service that keeps its own conversation thread. That service remembers only what it has been
sent. So on every request the proxy has to decide four things:

- which session the request belongs to;
- what the session's history now is;
- whether the upstream thread must be reset;
- what to send: the whole history again (a "full sync"), or only the new user message.

This project models that engine in Dafny and proves properties of the model.

- **Reading the incoming messages.** `Labels`, `History` and `Blob` model how a serialised
  transcript is recognised and rebuilt when it arrives packed inside one user message (a
  "blob"). This covers label lines such as `User: …`, the "Conversation history:" and
  "Current user message:" headings, and the speaker memo that gives one label one role.
  `Messages` splits the request into system text and dialogue, and builds the plain-text
  transcript prompt.
- **The turn store** (`Memory`): the per-session log of turns, kept clean and capped.
  `SessionStore` is a class whose map the methods update.
- **Configuration** (`Config`): the model map, credentials, the session header and the
  leak-guard terms.
- **Session identity** (`Identity`), resolved in this order:
  1. an explicit id;
  2. the id remembered for the conversation's opening (its "context alias");
  3. an id derived from that opening;
  4. the id last used with this credential and model (the token-model alias);
  5. a fresh ephemeral id.

  The alias stores and the runtime-state store are bounded maps that evict their oldest key
  (`BoundedMap`).
- **Reconciliation** (`Reconcile`): the handler's decision ladder. It chooses among an
  authoritative history, an append-only extension, a requested or detected rewrite, a
  duplicate, and a plain append. Then it applies the fresh-start override and the replay
  reset, and computes the message sent upstream.
- **The upstream client** (`Upstream`): the client cache and its retry policy around a
  character service. The service is modelled as a scripted oracle that records what the proxy
  does (logins, new conversations, messages) and answers from a script. The module also
  builds the replay, which sends the user turns one by one when the sync mode is "replay".

Loops and in-place updates in the source are Dafny methods. Each method is proved equal to a
specification function, and the properties are lemmas about those functions.

Inputs the proxy reads from the world are parameters of the model:

- the SHA-1 digest (`sha1Hex`);
- `Date.now()` and `Math.random()` (`now`, `ephemeralSeed`);
- environment variables, passed as the strings they hold, except the numeric caps, which are passed as the numbers `Number(...)` makes of them;
- the character service (the `Service` oracle).

## Model

| member | source | states |
|---|---|---|
| Labels.MatchLabelLine | api/v1/chat/completions.js:408 | The label-line regex on one line: the label is taken from before the first colon, is 1 to 64 characters long and holds no colon. The rest is what follows that colon, with leading whitespace dropped. A line without a colon never matches. |
| Labels.MatchLabelLineWritten | api/v1/chat/completions.js:408 | A line written as `<label>: <content>` (a label without a colon, a leading space or a bullet) is read back as exactly that label and content. |
| Labels.CollapseStripKeepsPrefix | api/v1/chat/completions.js:252-258 | Collapsing whitespace and dropping a trailing separator keeps a whitespace-free first word. |
| Labels.StripTrailingSeparatorKeepsPrefix | api/v1/chat/completions.js:252-258 | Dropping trailing separators never cuts into text that is followed by a non-space character. |
| Labels.NormalizeWord | api/v1/chat/completions.js:252-275 | A single word is normalised to its lower-case form, both as a marker label and as a role label. |
| Labels.NormalizeRoleToken | api/v1/chat/completions.js:277-317 | A label names the user, the assistant or nobody; it never names the system. |
| Labels.TokenOfWord | api/v1/chat/completions.js:277-317 | A word whose lower-case form is a user hint names the user; one that is an assistant hint names the assistant. |
| Labels.UserLabel | api/v1/chat/completions.js:273-317 | "User" normalises to "user" and names the user. |
| Labels.AssistantLabel | api/v1/chat/completions.js:273-317 | "Assistant" normalises to "assistant" and names the assistant. |
| Labels.EmptyLabelNamesNobody | api/v1/chat/completions.js:273-317 | The empty label normalises to "" and names nobody. |
| Labels.EmptyMarkerLabel | api/v1/chat/completions.js:252-258 | The empty marker label normalises to "". |
| Labels.InferRoleResult | api/v1/chat/completions.js:355-395 | The inferred role is user, assistant or none. It is none exactly when the label is empty, or is a heading that names nobody and is not yet memoised. |
| Labels.InferRoleMemo | api/v1/chat/completions.js:355-395 | The label memo holds only speakers, and a label that resolves to a role is memoised with that role. |
| Labels.InferRoleKeepsEntry | api/v1/chat/completions.js:355-395 | Inferring a role never drops a memo entry and never changes the entry of any other label. A memoised label that names nobody outright leaves the memo unchanged. |
| Labels.ExplicitRoleWins | api/v1/chat/completions.js:355-395 | A label that names a speaker outright is read as that speaker, whatever the memo or the previous role. |
| Labels.MemoisedLabelKeepsRole | api/v1/chat/completions.js:355-395 | A memoised label that names nobody outright is read as its memoised role. |
| Labels.UnknownLabelAlternates | api/v1/chat/completions.js:355-395 | An unknown, unmemoised label that is not a heading, on a line that does not repeat the current message, alternates with the previous speaker. |
| History.Continue | api/v1/chat/completions.js:433-436 | A continuation line only extends the last turn: the number of turns and their roles stay the same, and every earlier turn is unchanged. |
| History.ContinuationLineAppends | api/v1/chat/completions.js:433-436 | A colon-free line after a turn with content is appended to that turn after a line break, with its trailing whitespace dropped; the memo is untouched. |
| History.ParseHistory | api/v1/chat/completions.js:397-440 | The loop that pushes turns and extends the last one in place computes `ParseHistoryTurns`. |
| History.ParseHistoryTurnsSpeakers | api/v1/chat/completions.js:397-440 | Every parsed turn is a user or assistant turn with non-empty content. |
| History.MemoStable | api/v1/chat/completions.js:404-430 | A memoised label that names nobody outright keeps its role for the rest of the section. |
| History.SameLabelSameRole | api/v1/chat/completions.js:404-430 | Once a label line resolves to a speaker, every later line with the same normalised label resolves to the same speaker. |
| History.SpeakerNameNamesRole | lib/memory.js:68-70 | The label the history block writes for a speaker ("User" or "Assistant") is read back as that speaker. |
| History.WrittenLineEffect | api/v1/chat/completions.js:406-426 | A line written for a turn opens exactly that turn, whatever came before it. |
| History.ParseAppendWritten | api/v1/chat/completions.js:406-437 | Appending the line written for a turn to any lines appends exactly that turn. |
| History.HistoryRoundTrip | api/v1/chat/completions.js:397-440 | Speaker turns with trimmed, single-line content, written as "User: …" / "Assistant: …" lines, are parsed back as exactly those turns, in order. |
| History.HistoryBlockRoundTrip | api/v1/chat/completions.js:397-440 | What `buildHistoryBlock` writes for 1 to 14 such turns, `parseHistoryTurns` reads back unchanged. |
| Blob.FindMarkerLines | api/v1/chat/completions.js:491-501 | The marker scan finds the first history-heading line, and the first current-message heading line that is not that line. |
| Blob.CurrentSection | api/v1/chat/completions.js:510 | The current user message read from the blob is trimmed. |
| Blob.WithCurrent | api/v1/chat/completions.js:512-521 | The current message is pushed as a user turn unless the parsed history already ends with it. Afterwards a non-empty message is the last turn, and at most one turn was added. |
| Blob.SystemText | api/v1/chat/completions.js:527-552 | The blob's system text (the lines before the history heading, or else before the first role line) is trimmed. |
| Blob.ParseConversationBlob | api/v1/chat/completions.js:442-566 | The marker scan followed by the history loop computes `ConversationBlob`. |
| Blob.BlobShape | api/v1/chat/completions.js:442-566 | Blank content is never a blob. A recognised blob has at least one turn, every turn is a user or assistant turn with content, and its system text is trimmed. |
| Blob.BlobEndsWithCurrent | api/v1/chat/completions.js:509-521 | When the current-message section is not empty, the blob's last turn is that message, from the user. |
| Blob.UnmarkedBlob | api/v1/chat/completions.js:465-560 | Without any heading, content is a blob only if at least two of its lines look like label lines and its turns include both a user turn and an assistant turn. |
| Blob.TranscriptMarked | api/v1/chat/completions.js:447-470 | A transcript that opens with "Conversation history:" is not blank and matches a history marker. |
| Blob.TranscriptHistoryMarker | api/v1/chat/completions.js:491-501 | In such a transcript, the history heading is found on the first line. |
| Blob.WrittenLineNotCurrentMarker | api/v1/chat/completions.js:260-271 | A written "User: …" / "Assistant: …" line is never taken for a current-message heading. |
| Blob.TranscriptCurrentMarker | api/v1/chat/completions.js:491-501 | The current-message heading is found on the line right after the history. |
| Blob.TranscriptCurrentSection | api/v1/chat/completions.js:509-552 | The transcript's current section is the message itself, and its system text is empty. |
| Blob.TranscriptHistorySection | api/v1/chat/completions.js:509-512 | The transcript's history section parses back to its turns. |
| Blob.BlobRoundTrip | api/v1/chat/completions.js:442-566 | Written turns between the history heading and the current-message heading, followed by the message, are parsed as a blob with those turns, the message as the last user turn (unless the turns already end with it), and no system text. |
| Blob.FallbackScan | api/v1/chat/completions.js:590-613 | The last user line found by the fallback scan is trimmed. |
| Blob.CurrentUserMessage | api/v1/chat/completions.js:568-620 | The user message extracted from a blob is trimmed. |
| Blob.FindCurrentMarkerLine | api/v1/chat/completions.js:584-588 | The first loop finds the first current-message heading line. |
| Blob.ScanFallbackUser | api/v1/chat/completions.js:590-613 | The fallback loop computes the text of the last line read as the user's. |
| Blob.ExtractCurrentUserMessage | api/v1/chat/completions.js:568-620 | The two loops together compute `CurrentUserMessage`. |
| Blob.FindLastUserMessage | api/v1/chat/completions.js:651-657 | The backward scan finds the last user message that has content. |
| Blob.SanitizedMessages | api/v1/chat/completions.js:646-679 | Sanitising keeps the length and every role. The only message it may change is the last user message, and only when that message looks like a serialised transcript; its content then becomes the non-empty extracted message. |
| Blob.SanitizeSerializedUserMessage | api/v1/chat/completions.js:646-679 | The method with its backward scan computes `SanitizedMessages`. |
| Blob.ExistingSystemTextTrimmed | api/v1/chat/completions.js:703-708 | The existing system text is trimmed. |
| Blob.MergedSystemTextShape | api/v1/chat/completions.js:710 | Merging two trimmed system texts gives either one of them alone, or both separated by a blank line. |
| Blob.RebuildFromShape | api/v1/chat/completions.js:710-724 | A rebuilt list is the merged system text as one leading system message, present exactly when that text is not empty, followed by the blob's turns. |
| Blob.RebuildMessages | api/v1/chat/completions.js:681-725 | The method with its backward scan and the blob parser computes `RebuiltMessages`. |
| Blob.RebuiltShape | api/v1/chat/completions.js:681-725 | A rebuilt list is never empty and has a system message at most at its head, followed only by dialogue turns. It ends with the blob's current user message when there is one. |
| Blob.SanitizedAcceptable | api/v1/chat/completions.js:646-679 | Sanitising keeps every message acceptable: a known role and non-empty content. |
| Blob.RebuiltAcceptable | api/v1/chat/completions.js:681-725 | A rebuilt list holds only acceptable messages. |
| Blob.NormalizedMessagesAcceptable | api/v1/chat/completions.js:219-231 | Whatever `normalizeMessageList` returns holds only messages with a known role and content. |
| Messages.SplitIncomingMessages | api/v1/chat/completions.js:742-768 | The loop returns the system contents joined by a blank line and trimmed, together with the user and assistant turns that have content, in order. |
| Messages.BuildTranscriptPrompt | api/v1/chat/completions.js:770-787 | The loop computes `TranscriptPrompt`: the system part, then one part per dialogue turn, joined by blank lines and trimmed. |
| Messages.TranscriptPromptEmpty | api/v1/chat/completions.js:770-787 | The prompt is empty exactly when there is no system text and no dialogue turn. |
| Messages.TranscriptPromptOpensWithSystem | api/v1/chat/completions.js:770-787 | When there is system text, the prompt opens with "SYSTEM:", a line break and the trimmed system text. |
| Messages.TranscriptPromptOpensWithFirstTurn | api/v1/chat/completions.js:770-787 | When there is no system text, the prompt opens with the header of the first dialogue turn. |
| Turns.CountRolePositive | api/v1/chat/completions.js:1050-1055 | `countRole` is positive exactly when some turn has that role. |
| Reconcile.IsAppendOnly | api/v1/chat/completions.js:789-810 | The loop returns whether `next` keeps every turn of `previous`, in place, and is at least as long. |
| Reconcile.CommonPrefix | api/v1/chat/completions.js:812-828 | The result is a common prefix length of both histories, and the turns right after it differ when both histories go on. |
| Reconcile.CommonPrefixUnique | api/v1/chat/completions.js:812-828 | Any length with those three properties is the common prefix length. |
| Reconcile.CommonPrefixLength | api/v1/chat/completions.js:812-828 | The loop that stops at the first differing turn computes `CommonPrefix`. |
| Reconcile.AppendOnlyIffFullPrefix | api/v1/chat/completions.js:789-828 | Append-only is the same as being at least as long and sharing all of `previous` as a common prefix. |
| Reconcile.HasExplicitRewriteSignal | api/v1/chat/completions.js:830-868 | The loop over the boolean fields returns whether the body asks for a rewrite: a boolean field that is exactly `true`, or a text field naming a rewrite. |
| Reconcile.OnlyTrueSignals | api/v1/chat/completions.js:830-868 | A body with no boolean field set to `true` and no text signal field asks for nothing. |
| Reconcile.BooleanFieldSignals | api/v1/chat/completions.js:830-868 | Any one of the listed boolean fields set to `true` asks for a rewrite. |
| Reconcile.ShouldApplyRewrite | api/v1/chat/completions.js:870-911 | A rewrite needs two non-empty histories. With a signal, any such pair is a rewrite. Without one, it is a rewrite exactly when the histories share at least their first turn, the common prefix reaches within two turns of the shorter history's end, the last turns differ, and the new history is no longer than the stored one or holds an assistant turn. |
| Reconcile.NearTailChangeIsRewrite | api/v1/chat/completions.js:870-911 | Without a signal, two histories with the same first turn, a divergence within the last two turns of the shorter one and different last turns are a rewrite when the new one is no longer or holds an assistant turn. |
| Reconcile.RewriteNeedsNearTailChange | api/v1/chat/completions.js:870-911 | Without a signal, a rewrite needs the same first turn, a divergence within the last two turns of the shorter history, a different last turn, and a new history that is no longer than the stored one or holds an assistant turn. |
| Reconcile.SameHistoryIsNoRewrite | api/v1/chat/completions.js:870-911 | The same history sent again is a rewrite exactly when it is non-empty and the body asks for one. |
| Reconcile.EditedLastTurnIsRewrite | api/v1/chat/completions.js:870-911 | Editing the last turn of a history is a rewrite. |
| Reconcile.TruncationIsRewrite | api/v1/chat/completions.js:870-911 | Deleting turns from the end is a rewrite when it changes the last turn. |
| Reconcile.DifferentStartIsNoRewrite | api/v1/chat/completions.js:870-911 | A history whose first turn differs from the stored one is never a rewrite without a signal. |
| Reconcile.EnsureTrailingUserTurn | api/v1/chat/completions.js:913-928 | The result holds only dialogue turns with content. It is the dialogue, with the user message appended when that message is not already the last turn. A non-empty message ends the result. |
| Reconcile.EnsureTrailingUserTurnIdempotent | api/v1/chat/completions.js:913-928 | Applying it a second time changes nothing. |
| Reconcile.LooksLikeContinuationTurn | api/v1/chat/completions.js:1081-1122 | A continuation needs a stored history, an incoming history and a non-blank user message. |
| Reconcile.ContinuationShape | api/v1/chat/completions.js:1081-1122 | A continuation follows an assistant reply, ends with the trimmed user message, and has more user turns than the stored history. |
| Reconcile.ReplyThenMessageIsContinuation | api/v1/chat/completions.js:1081-1122 | The stored history ending in a reply, followed by the new user message, is a continuation. |
| Reconcile.ContinuationIsNoRewrite | api/v1/chat/completions.js:1382-1384 | A continuation is never taken for a rewrite unless the body asks for one. |
| Reconcile.ClampAssistantText | api/v1/chat/completions.js:930-942 | The reply is trimmed and is empty exactly when the input is blank. A positive setting cuts a longer reply to that many characters followed by "..."; otherwise the reply is returned whole. |
| Reconcile.NormalizeSyncMode | api/v1/chat/completions.js:1124-1129 | The mode is "replay" exactly when the trimmed, lower-cased value is "replay", and "prompt" otherwise. |
| Reconcile.NormalizeSyncModeIdempotent | api/v1/chat/completions.js:1124-1129 | A normalised mode normalises to itself. |
| Reconcile.ResolveSyncMode | api/v1/chat/completions.js:1139-1149 | The header wins when present. With no header, body field or environment value, the mode is "prompt". The result is always one of the two modes. |
| Reconcile.DefaultOnSwitchesAgree | api/v1/chat/completions.js:1159-1167 | `CAI_AUTHORITATIVE_HISTORY` and `CAI_REPLAY_ASSUME_CONTINUATION` are off for exactly the same settings: those that read "false". |
| Reconcile.RequestOf | api/v1/chat/completions.js:1208-1372 | The request is replay exactly when the header, body and `CAI_SYNC_MODE` resolve to "replay". In replay it is authoritative exactly when `CAI_REPLAY_AUTHORITATIVE_HISTORY` reads "true", otherwise exactly when `CAI_AUTHORITATIVE_HISTORY` does not read "false". Replay may assume a continuation unless `CAI_REPLAY_ASSUME_CONTINUATION` reads "false". |
| Reconcile.AuthoritativeDefaults | api/v1/chat/completions.js:1357-1363 | With its switch unset, a replay request is never authoritative and a prompt-mode request always is. |
| Reconcile.DefaultReplayExtensionKeepsThread | api/v1/chat/completions.js:1357-1434 | With nothing set and replay asked for in the header, a history that extends the stored one of a bootstrapped thread is stored without a reset, a full sync or a rewrite. |
| Reconcile.DefaultPromptHistoryResets | api/v1/chat/completions.js:1357-1434 | With nothing set and no sync mode asked for, a history of two or more turns replaces the log of a bootstrapped thread, resets it and resends everything. |
| Reconcile.FinalPlan | api/v1/chat/completions.js:1430-1434 | A replay full sync always resets the upstream thread. |
| Reconcile.StoreIncomingHistory | api/v1/chat/completions.js:1379-1406 | For an incoming history, the method takes the ladder's branch. Through the store it writes exactly what that branch writes, and returns the log the request continues from. |
| Reconcile.AppendUserMessage | api/v1/chat/completions.js:1407-1414 | Without history, the user message is appended unless the stored dialogue already ends with it. No reset happens, and a full sync happens only for a thread not yet bootstrapped. |
| Reconcile.ReconcileHistory | api/v1/chat/completions.js:1373-1414 | The whole `if (incomingHasHistory)` block writes and returns what `HistoryPlan` prescribes. |
| Reconcile.FreshStart | api/v1/chat/completions.js:1416-1428 | The fresh-start override replaces the session's log with the fresh turns. |
| Reconcile.Reconcile | api/v1/chat/completions.js:1352-1434 | The reconciliation block leaves the store as `FinalPlan` prescribes and returns `OutcomeOf` the log the session held. |
| Reconcile.RewriteAppliedShape | api/v1/chat/completions.js:1393-1427 | An applied rewrite was requested, resets the thread and resyncs it, and never survives a fresh start. |
| Reconcile.ResetReasons | api/v1/chat/completions.js:1373-1434 | The thread is reset only for four reasons: a fresh start, a replay full sync, an applied rewrite, or an authoritative history for a bootstrapped thread. |
| Reconcile.FullSyncReasons | api/v1/chat/completions.js:1373-1434 | The whole history is sent only for four reasons: a thread not yet bootstrapped (unless replay may assume a continuation), a fresh start, an applied rewrite, or an authoritative history. |
| Reconcile.FreshStartResets | api/v1/chat/completions.js:1416-1428 | A fresh start stores the fresh turns, resets, resyncs, and clears the rewrite flag. |
| Reconcile.AuthoritativeReplaces | api/v1/chat/completions.js:1385-1388 | An authoritative history of two or more turns replaces the log and resyncs. It resets exactly a bootstrapped thread or a replay. |
| Reconcile.ExtensionIsStored | api/v1/chat/completions.js:1389-1392 | An incoming history that starts or only extends the stored one replaces the log. It resyncs only an unbootstrapped thread, and resets only in replay. |
| Reconcile.RewriteReplaces | api/v1/chat/completions.js:1393-1397 | A requested rewrite of a diverging stored history replaces the log, resets the thread and resyncs it. |
| Reconcile.DuplicateNotAppended | api/v1/chat/completions.js:1399-1413 | A user message that the stored dialogue already ends with is not appended again. |
| Reconcile.KeepMeansDuplicate | api/v1/chat/completions.js:1399-1413 | The log is kept as it is only when it already ends with the user message. |
| Reconcile.StoredEndsWithUserMessage | api/v1/chat/completions.js:1379-1428 | Every list the ladder or the fresh start stores ends with the (non-empty) user message. |
| Reconcile.EffectiveEndsWithUserMessage | api/v1/chat/completions.js:1379-1428 | Storing a list that ends with the user message, or appending the message, leaves a log that ends with it, when the character cap leaves the message whole and the turn cap keeps the newest turn. |
| Reconcile.UserMessageIsLast | api/v1/chat/completions.js:1373-1428 | After reconciliation, the session's log ends with the current user message, whichever branch was taken. This holds for any trimmed message within the character cap, under a turn cap that is a whole number, +Infinity or NaN. |
| Reconcile.SystemTextFor | api/v1/chat/completions.js:1364 | The incoming system text wins; without one, the text remembered in the runtime state is used. |
| Reconcile.UpstreamMessageNonEmpty | api/v1/chat/completions.js:1436-1445 | Outside a replay full sync, the message sent upstream is never empty once the log ends with the user message. So the "No valid messages" error cannot arise there. |
| Memory.ClampText | lib/memory.js:9-18 | The text is trimmed and is empty exactly when the input is blank. A text within the cap is returned whole. Otherwise it is a shorter prefix of the text followed by "...": cut to the cap for a whole-number cap, missing that many final characters for a negative cap, and just "..." for NaN or -Infinity. |
| Memory.ClampTextIdempotent | lib/memory.js:9-18 | Under a whole-number cap, clamping twice is clamping once. |
| Memory.ClampTextClean | lib/memory.js:36-43 | Under a whole-number cap, a clamped storable turn is clean, and clamping leaves a clean turn as it is. |
| Memory.CleanTurnsClean | lib/memory.js:36-43 | Under any cap, the filter/map/filter chain lets through only storable turns with non-empty trimmed content, never more than it was given; under a whole-number cap they are clean. |
| Memory.CleanTurnsOfClean | lib/memory.js:36-43 | Under a whole-number cap, cleaning a log of clean turns changes nothing. |
| Memory.SliceNewest | lib/memory.js:44 | `slice(-maxTurns)` keeps the newest `maxTurns` items for a whole-number cap of at least one and everything for 0, +Infinity or NaN; a negative cap drops that many of the oldest items, and -Infinity drops them all. |
| Memory.NormalizeTurnsBounded | lib/memory.js:35-48 | The stored log is one the store may hold. For a whole-number turn cap of at least one it is the newest `maxTurns` cleaned turns in order; 0, +Infinity and NaN keep everything; a negative cap drops that many of the oldest turns, and -Infinity drops them all. |
| Memory.StoredTurnsValid | lib/memory.js:35-48 | Under any caps, every stored turn is a system, user or assistant turn with non-empty content that starts with a non-space. |
| Memory.NormalizeTurnsIdempotent | lib/memory.js:35-48 | Under whole-number caps, storing a log that is already stored stores it unchanged. |
| Memory.AppendKeepsNewest | lib/memory.js:50-53 | Under whole-number caps, appending to a stored log keeps the newest turns of the old log followed by the cleaned new turns. |
| Memory.SessionStore.constructor | lib/memory.js:3-7 | The store starts empty, with the caps as whatever numbers the environment gave, including negative, infinite and NaN ones. |
| Memory.SessionStore.GetSessionTurns | lib/memory.js:30-33 | The stored log, or [] for a key never written. |
| Memory.SessionStore.SetSessionTurns | lib/memory.js:35-48 | Stores and returns the cleaned, capped log under the key, for any caps. Every other key is untouched and every log stays one the store may hold. |
| Memory.SessionStore.AppendSessionTurns | lib/memory.js:50-53 | Stores the old log followed by the new turns, normalised. Under whole-number caps that equals the newest turns of the old log followed by the cleaned new turns. |
| Memory.MakeSessionKey | lib/memory.js:24-28 | The session key opens with the token fingerprint and "::". |
| Memory.SessionKeyDefaults | lib/memory.js:24-28 | A blank model or session id gives the same key as the literal defaults. |
| Memory.SessionKeySeparatesSessions | lib/memory.js:24-28 | For one credential and model, two session ids share a key only if they are the same once trimmed and defaulted. |
| Memory.BuildHistoryBlock | lib/memory.js:55-71 | An empty log gives "No prior turns.". |
| Memory.HistoryBlockShape | lib/memory.js:55-71 | The block has one line per user or assistant turn among the newest 14, each labelled "User: " or "Assistant: ", and its last line is the newest such turn. With no such turn, the block is "No prior turns.". |
| Config.ModelMapOfMeaning | lib/config.js:3-29 | A model name is in the map exactly when it is not `__proto__` and some usable entry trims to it. Its id is the trimmed id of the last such entry, so later entries win. |
| Config.ParseModelMap | lib/config.js:3-29 | Input that is missing or not an object gives an empty map; otherwise the loop computes `ModelMapOf` over all the entries. |
| Config.ProtoEntryDropped | lib/config.js:14-22 | An entry named `__proto__` never becomes a key: on a plain object that assignment goes to the prototype setter, which ignores a string. |
| Config.ModelRegistry.constructor | lib/config.js:31-35 | The registry is the parsed map. `CAI_CHARACTER_ID` is added under the default alias when it is set and the alias reads falsy on the object: not mapped, and not a name every plain object inherits. |
| Config.ModelRegistry.ResolveCharacterId | lib/config.js:45-56 | An id is found exactly when the model is a non-blank string whose trimmed form maps to a non-empty id, and that id is returned. A non-blank model that is not mapped but names an inherited member of a plain object returns that (truthy, non-string) member; anything else gives `null`. |
| Config.BearerToken | lib/config.js:66-71 | A token is read exactly from a string that starts with "Bearer " and has a non-blank rest. The token is trimmed and non-empty. |
| Config.ResolveToken | lib/config.js:58-101 | The request's credential wins. Without one, the trimmed `CAI_TOKEN` is used when `CAI_ALLOW_SERVER_TOKEN` reads "true" and the token is non-blank; otherwise there is no token. A token is always trimmed and non-empty. |
| Config.BearerBeatsApiKey | lib/config.js:58-81 | A valid Bearer header wins over any API-key header. |
| Js.FirstTruthy | lib/config.js:104-108 | The `||` chain returns its first truthy operand, or its last operand when none is truthy. |
| Config.ResolveSessionId | lib/config.js:103-118 | The first truthy (non-empty) session header, else the session candidate the handler takes from the body (`conversation_id`, `conversationId`, `chat_id`, `chatId`, then `user` only when `CAI_SESSION_USE_BODY_USER` is "true"), trimmed and cut to 80 characters; otherwise "default-session". The result is never empty and never starts with whitespace. |
| Config.ResolveSessionIdKeepsCleanId | lib/config.js:103-118 | A short, trimmed session id in the header comes back unchanged. |
| Config.ExtraTerms | lib/config.js:126-134 | The extra terms are trimmed and non-empty, and there are no more of them than comma-separated parts. |
| Config.CollectExtraTerms | lib/config.js:128-133 | The loop computes `ExtraTerms`. |
| Config.ExtraTermsOfClean | lib/config.js:128-133 | Trimming and dropping blank parts leaves a list of clean terms unchanged. |
| Config.GetLeakGuardTerms | lib/config.js:120-137 | The method computes `LeakGuardTerms`: the trimmed character id, then the extra terms. |
| Config.LeakGuardTermsRoundTrip | lib/config.js:120-137 | Clean terms written as a comma list are read back exactly, after the character id. |
| Identity.NewestSurvives | api/v1/chat/completions.js:959-972 | With a cap of at least one, a set followed by the eviction check never evicts the key just set. |
| Identity.SetKeepsBound | api/v1/chat/completions.js:959-972 | Setting a non-empty key keeps a store within its cap. |
| Identity.FullMapDropsOldest | api/v1/chat/completions.js:959-972 | A new key in a full store pushes out the oldest key and goes last. |
| Identity.BoundedMap.constructor | api/v1/chat/completions.js:9-14 | A store starts empty, with its cap. |
| Identity.BoundedMap.Put | api/v1/chat/completions.js:960-964 | `Map.set`: an existing key keeps its place and a new one goes last; the value is updated. |
| Identity.BoundedMap.EvictOldest | api/v1/chat/completions.js:966-971 | Past the cap, the oldest key is deleted unless it is the empty string. Nothing else changes. |
| Identity.BoundedMap.Set | api/v1/chat/completions.js:959-972 | Set followed by the eviction check. The key order is the evicted insertion order, and the key just set can be read back. Setting a non-empty key keeps a store within its cap. |
| Identity.SetRuntimeState | api/v1/chat/completions.js:959-972 | The runtime state just written under a non-empty key is what `getRuntimeState` reads back, and the store stays within its cap of 2000. Every other session's record is unchanged or evicted. |
| Identity.NormalizeHashText | api/v1/chat/completions.js:1006-1016 | The result is empty exactly when the input is blank. It is single-spaced, does not start with a space, and respects the length cap. |
| Identity.NormalizeHashTextKeepsText | api/v1/chat/completions.js:1006-1016 | Apart from whitespace, the result is a prefix of the input's text, and all of it when there is no cap or the input fits. |
| Identity.NormalizeHashTextIgnoresRunWidth | api/v1/chat/completions.js:1006-1016 | Widening or narrowing a run of whitespace between two words does not change the result. |
| Identity.MakeSessionContextAliasKey | api/v1/chat/completions.js:980-988 | The context alias key extends the token-model alias key with "::ctx-". |
| Identity.ContextKeyIgnoresSurroundingSpace | api/v1/chat/completions.js:980-988 | Whitespace around the system text or the first user message does not change the context key. |
| Identity.CreateEphemeralSessionId | api/v1/chat/completions.js:990-993 | An ephemeral id starts with "auto-". |
| Identity.AutoIsNotDefault | api/v1/chat/completions.js:990-993 | An "auto-" id is never "default-session". |
| Identity.FirstUserText | api/v1/chat/completions.js:995-1004 | The result is trimmed. It is empty exactly when no user turn has text and the fallback is blank. |
| Identity.FirstUserTurnContent | api/v1/chat/completions.js:995-1004 | The loop computes `FirstUserText`. |
| Identity.DeriveImplicitSessionId | api/v1/chat/completions.js:1018-1034 | The derived id is "default-session" exactly when both the system text and the user source are blank; otherwise it starts with "auto-". |
| Identity.ResolvedSession | api/v1/chat/completions.js:1298-1330 | The precedence ladder never ends at "default-session". |
| Identity.ExplicitWins | api/v1/chat/completions.js:1298-1301 | An explicit session id always wins. |
| Identity.ContextAliasReturns | api/v1/chat/completions.js:1302-1308 | Without an explicit id, the session remembered for the same opening comes back, ahead of every later source. |
| Identity.NothingGivesEphemeral | api/v1/chat/completions.js:1327-1330 | A request with nothing to go on gets the ephemeral id. |
| Identity.RememberSession | api/v1/chat/completions.js:1332-1349 | Each alias store is written only when its switch is on, with its eviction check. The context alias and the token-model alias then map to the resolved id. Every other entry of either store keeps its value or is evicted, and stores of non-empty keys stay within their caps of 10000 and 5000. |
| Identity.ResolveSession | api/v1/chat/completions.js:1259-1356 | The session-resolution block returns the id of the precedence ladder, never "default-session". It updates both alias stores, and a fresh reset is forced exactly for a short history start under a session the client did not name. Both written aliases then map to the resolved id, every other entry keeps its value or is evicted, and both stores stay within their caps. |
| Upstream.CacheKeySeparatesSessions | lib/cai.js:6-8 | Two sessions of the same account and character never share a cached client. |
| Upstream.CacheKeySeparatesCharacters | lib/cai.js:6-8 | Two characters never share a cached client for one account and session. |
| Upstream.ReplayUserTurnsLimit | lib/cai.js:91-97 | A missing or non-positive setting is 0 (no limit); a positive one is floored. |
| Upstream.ClampReplayUserTurns | lib/cai.js:99-112 | The turns are truncated exactly when 0 < limit < count. The result is then the newest `limit` turns, and otherwise all of them. |
| Upstream.KeptTurns | lib/cai.js:99-112 | Clamping clean turns keeps a non-empty run of clean turns: the newest ones, in order. |
| Upstream.ClampedReplay | lib/cai.js:99-166 | The messages built from the clamped turns are non-empty, one per kept turn, and the first one ends with the oldest kept turn. |
| Upstream.NormalizeReplayUserTurns | lib/cai.js:114-123 | Every turn to replay is non-empty and trimmed. |
| Upstream.NormalizeReplayUserTurnsEmpty | lib/cai.js:114-123 | There is nothing to replay exactly when every user turn is blank. |
| Upstream.MakeReplayBootstrapMessage | lib/cai.js:125-137 | The message is empty exactly when the user text is blank. It is trimmed and ends with the trimmed user text. With system text and injection on, it opens with "SYSTEM:" and the trimmed system text; otherwise it is the trimmed user text. |
| Upstream.ReplayMessagesOf | lib/cai.js:164-166 | Only the first replay message differs from its user turn, and it ends with that turn. None of the messages is empty. |
| Upstream.PlanReplayShape | lib/cai.js:158-170 | A replay exists exactly when some user turn has text. It sends between one message and `limit` messages (when limited), none empty, so the "failed to build" error is unreachable. It reports truncation exactly when 0 < limit < count. |
| Upstream.PlanReplayNewest | lib/cai.js:158-166 | The replay keeps the newest user turns, in order: the oldest one kept closes the bootstrap message, and the others are sent verbatim. |
| Upstream.AcquireClientLog | lib/cai.js:187-191 | A cached client is reused without a login. Otherwise one login is logged, and a failed login leaves no client. |
| Upstream.SendOnLog | lib/cai.js:193-198 | The log gets a new conversation when a reset is asked for, then the message, and the reply is the service's next reply. |
| Upstream.RetrySendLog | lib/cai.js:200-209 | The retry logs in a fresh client (the next one the service creates), caches it, opens a new conversation on a reset, and sends through it. A failed login ends with a connect error and nothing sent. |
| Upstream.SendOutcomeClients | lib/cai.js:184-211 | The cached client is always one the service has created. |
| Upstream.SendOutcomeLog | lib/cai.js:184-211 | `sendCharacterMessage` only appends to the log and sends only this message, at most twice. The second send goes through a fresh client, logged in after the first send failed. With a reset, a new conversation precedes each send. On success, the last event is the message through the client left in the cache. |
| Upstream.SendFirstTry | lib/cai.js:184-199 | When the cached client answers, its reply is returned, nothing else is sent and no client is created. |
| Upstream.SendAllInOrder | lib/cai.js:172-175 | The replay messages go out in order through one client, up to and including the first that fails. When none fails, the reply returned is the one to the last message. |
| Upstream.RunPlanLog | lib/cai.js:153-182 | One replay logs only an optional new conversation and a prefix of the replay messages. Without user turns it fails before sending. On success it has sent them all and reports their count and the truncation flag. |
| Upstream.RetryReplayLog | lib/cai.js:237-248 | The retry of a replay logs in a fresh client, caches it and replays through it. |
| Upstream.ReplayOutcomeClients | lib/cai.js:213-249 | The cached client is always one the service has created. |
| Upstream.ReplayOutcomeLog | lib/cai.js:213-249 | `sendCharacterMessageWithReplaySync` only appends to the log. On success, its last actions were the full replay, in order, through the client left in the cache. |
| Upstream.ReplayWithoutUserTurns | lib/cai.js:213-249 | A history with no user turn to replay fails without sending any message, yet a fresh client still replaces the cached one. |
| Upstream.Gateway.constructor | lib/cai.js:3-4 | The cache starts empty. |
| Upstream.Gateway.CreateClient | lib/cai.js:50-59 | One login and connect against the service; the cache is untouched. |
| Upstream.Gateway.CreateNewConversationIfNeeded | lib/cai.js:145-151 | The new conversation is recorded and never fails. |
| Upstream.Gateway.SendRawCharacterMessage | lib/cai.js:139-143 | One message is sent and the service's next reply is returned. |
| Upstream.Gateway.GetOrCreateClient | lib/cai.js:187-191 | The cached client, or a new one that is created and cached. |
| Upstream.Gateway.SendThrough | lib/cai.js:193-198 | An optional new conversation, then the message, on the given client. |
| Upstream.Gateway.ReconnectAndSend | lib/cai.js:200-209 | The cache entry is dropped, a fresh client is created and cached, and the message is sent once more. |
| Upstream.Gateway.SendReplayMessages | lib/cai.js:172-175 | The loop computes `SendAll`: each message in turn, stopping at the first failure. |
| Upstream.Gateway.BuildReplay | lib/cai.js:158-166 | Builds `PlanReplay`: the user turns cut to the limit, and their messages. |
| Upstream.Gateway.RunReplaySync | lib/cai.js:153-182 | `runReplaySync` through a client computes `RunPlan` on the built replay. |
| Upstream.Gateway.ReconnectAndReplay | lib/cai.js:237-248 | The cache entry is dropped, a fresh client is created and cached, and the whole replay runs once more. |
| Upstream.Gateway.SendCharacterMessage | lib/cai.js:184-211 | The reply, the service and the cache are those of `SendOutcome`, about which `SendOutcomeLog` and `SendFirstTry` are proved. The cache only ever holds clients the service created. |
| Upstream.Gateway.SendCharacterMessageWithReplaySync | lib/cai.js:213-249 | The report, the service and the cache are those of `ReplayOutcome`, about which `ReplayOutcomeLog` and `ReplayWithoutUserTurns` are proved. |

## Left out

- Request coercion (`coerceMessagesToArray`, `normalizeMessageContent`): the model starts from messages whose content is already text. What `normalizeMessageList` does afterwards is modelled.
- The global multi-line counting regexes are read line by line. These are the rough turn count and the explicit and generic role-line counts of `looksLikeSerializedConversation`. A match of `[^:\n]{1,64}` that spans a `\r` or crosses a line end (the rough count allows `\s*` after the colon to reach the next line) is not counted the way the regex engine would count it.
- Blob.UnmarkedBlob: states the count of label-like lines under the line-by-line reading above.
- `toLowerCase` covers ASCII and the basic Cyrillic block (U+0400-U+042F) only. String lengths count Unicode scalar values where JavaScript counts UTF-16 code units, so the 64-, 80-, 700-, 800- and `maxChars` cuts differ for text outside the Basic Multilingual Plane.
- Labels.NormalizeRoleToken: its contract states only that no label names the system. The hint lists are in its body, and `TokenOfWord`, `UserLabel` and `AssistantLabel` state what it returns for words.
- SHA-1, `Date.now()` and `Math.random()` are parameters. Keys and ids are proved in terms of the digest function, not of SHA-1 itself.
- The character service is a scripted oracle. Time-outs (`withTimeout`, `withSoftTimeout`, the time-out settings), `extractText` (replies are already text), `probeCharacterConnection` and the `cainode` client are not modelled. A login or connect that fails or times out is one failed login.
- Upstream.ReplayUserTurnsLimit: takes the setting as an optional number. Parsing `CAI_REPLAY_MAX_USER_TURNS` with `Number(...)` is left out, and so are non-finite values, which are given as a missing setting.
- Reconcile.ClampAssistantText: takes `CAI_MAX_ASSISTANT_CHARS` as an integer. Fractional and non-finite settings are not modelled.
- Identity.GetRuntimeState reads records of the modelled shape only. A stored value of another type is not modelled.
- Reconcile.ShouldApplyRewrite: takes the body's rewrite signal as a boolean. `HasExplicitRewriteSignal` computes that signal from the body.
- The environment switches are passed as the strings they hold, with "" for unset. `readSingleHeaderValue`'s array case is folded into the header string given to `ResolveSyncMode`.
- What the handler does with a non-string result of `resolveCharacterId` (an inherited member such as `toString`) is not part of this model.
- Memory.SessionStore: takes `CAI_MEMORY_MAX_TURNS` and `CAI_MEMORY_MAX_CHARS` as the numbers `Number(...)` makes of them; parsing the strings is left out. A fractional value is given by its truncation toward zero, which is all that `clampText`'s comparison and `slice` see of it. Idempotence and the append shortcut are stated for whole-number caps only: under a negative character cap a second clamp can cut further.
- JSON parsing of `CAI_MODEL_MAP_JSON` is left out: `ParseModelMap` takes the parsed entries in `Object.entries` order, or nothing for input that is missing, not JSON or not an object.
- `listModels`, `getDefaultModel` and the rest of the request handler are not part of this model. That covers HTTP, streaming, the leak guard's scrubbing of replies, and writing the runtime state and the reply after the upstream call.
- Concurrency: the stores are process-wide and requests may interleave at every `await`. The model runs one request at a time.

## Where the documentation and the code differ

The model follows the code in each case:

- **Order of writes.** The documentation says the turn store is updated only after a confirmed reply. The code writes the reconciled turns before it calls upstream (`api/v1/chat/completions.js:1379-1428`).
- **Early divergence.** The documentation treats any divergence from the stored history as a rewrite. The code's heuristic fires only when the histories share their first turn and diverge within the last two turns (`RewriteNeedsNearTailChange`, `DifferentStartIsNoRewrite`).
- **Appends without a reset.** The append-only case proceeds without a reset only when authoritative history is off. In prompt mode it is on by default, and then a bootstrapped thread with two or more turns is reset (`AuthoritativeReplaces`, `DefaultPromptHistoryResets`). In replay mode it is off by default, and an extension keeps the thread (`DefaultReplayExtensionKeepsThread`).
- **The example rewrite.** In the documented rewrite example, the reset comes from the authoritative branch, not from the rewrite heuristic.
- **Replay with no user turn.** The documentation says such a replay fails without retrying. The code's retry path still creates and caches a fresh client, and then fails again without sending (`ReplayWithoutUserTurns`).
- **Session id whitespace.** `resolveSessionId` trims before it cuts to 80 characters, so an id can end in whitespace.
- **Turn cap of 0.** `CAI_MEMORY_MAX_TURNS` set to 0 keeps every turn, because `slice(-0)` is the whole list.
