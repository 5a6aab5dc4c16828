# Verified model of the assistant's core

This project models the parts of the repository where a mistake would be hardest to see, and proves what they promise:

- **DSML recovery** (`Dsml*.dfy`): tool calls that the model writes as markup inside its text. There is a batch parser
  and a streaming accumulator; the second must do the job of the first for every way the text is cut. `DsmlGrammar` and
  `DsmlPrint` say independently what a tag is.
- **The model stream** (`Bytes`, `SseFrames`, `ToolDeltas`, `ModelStream`): server-sent event frames, native tool calls
  assembled from fragments, and the accumulators between the chunks and the turn loops.
- **Conversation history** (`Messages`, `ToolSequence`, `RepairLaws`, `RepairFixpoints`, `Interrupted`, `Requests`,
  `Sessions`, `SessionLaws`, `SessionRuns`, `FeishuHistory`): the repair of a message list before it is sent, the
  session that stores it, and the Feishu path's own clean-up.
- **Turn loops** (`Turns`, `AcpTools`, `AcpTurn`, `TuiTools`, `TuiTurn`, `TuiTranscript`, `FeishuTurn`,
  `FeishuTranscript`): what is stored and sent, whatever is rejected, fails or is cancelled, and what is asked and
  carried out.
- **Protocols** (`ChatQueue`, `ChatQueueLaws`, `ChatQueueAnswers`, `TwoQueues`, `AcpProtocol`, `AcpProtocolLaws`,
  `AcpReplies`, `Scheduler`, `ScheduleRows`, `Pausing`): step relations over all interleavings. `AcpHandles` has the
  ACP session's shared objects and `TaskTable` the task rows, updated in place.
- **Compact pieces** (`AuditLog`, `Coordinates`): the audit tail reader against a full scan, and screenshot coordinates.

`Wrappers`, `Sequences` and `Text` hold what several of these share.

`dafny verify dfyconfig.toml` checks everything.

## How to read it

Code that works in place is a method or a class. Its `ensures` tie the result or the new state to a function, and
lemmas prove what the source promises about that function. A step that is left open (a model's answer, a user's
decision, a failing write, a cancelled wait) is an input: turn loops take a script with one entry per request, and a
script that ends early is a loop that was stopped or is still waiting at that point. Protocols have an event type, an
`Enabled` predicate and a `Next` function; a run is any sequence of enabled events.

Text is a sequence of Unicode scalar values. Where the source measures bytes (the 64-byte limit on a held tag), the
UTF-8 length is computed. The bar of a DSML marker is U+FF5C. JSON values stay text: an argument is either marked as a
string or "JSON, else the text itself". The id of a recovered call is a fresh random value in the source and is not
part of the model.

## Where the code departs from its comments

The model follows the code. Each departure is stated with its exact condition or a concrete input.

- Text in front of an opening tag is lost when the block is still open at the end of the delta that completes the tag
  (`DsmlRuns.NothingLostIff`, `DsmlRuns.RunLossExactly`, `DsmlRoundTrip.TextBeforeOpenTagIsLost`).
- A closed block without a call is kept by the batch parser and dropped by the stream (`DsmlRuns.NothingDroppedIff`,
  `DsmlRoundTrip.EmptyBlockIsDropped`).
- An outer opening tag is held back across deltas exactly when it is bare and short (`DsmlPartial.HeldExactlyWhenBare`,
  `DsmlRuns.CutTagIsSeenIff`, `DsmlRuns.EveryCuttingIff`). Text in front of a block and behind it can meet to form a tag
  that is shown (`DsmlRoundTrip.HalvesMeet`, `DsmlShown.ShownHoldsTagIff`).
- Tool calls inside reasoning are recovered and thrown away (`ModelStream.ReasoningCallsAreDropped`). A skipped index
  yields an empty native call (`ToolDeltas.SkippedIndexIsEmitted`). Fragments of native calls that no finish follows are
  never sent (`ModelStream.NativeCallsAreWholeIff`). Frames behind the end marker are handled if they share its chunk
  (`SseFrames.FramesBehindDone`).
- With a repeated call id the repair replaces real results and is not idempotent (`RepairFixpoints.RepairTwice`,
  `RepairFixpoints.RepeatedIdLosesResults`).
- The Feishu clean-up counts results instead of matching ids. Behind a summary it misses leading orphans. A compression
  inside a turn leaves a history that it cannot repair (`FeishuHistory.SanitizedIsValid`,
  `FeishuHistory.SummaryHidesOrphans`, `FeishuTurn.CompressionInsideTurnIsRejected`).
- A message enqueued while a chat's consumer leaves is lost, and can put two consumers on one chat
  (`ChatQueueLaws.WindowLosesExactly`, `ChatQueueLaws.SingleIffNeverDoubles`, `ChatQueueLaws.TwoConsumersOfOneChat`). A
  panic turns the chat's next message away (`ChatQueueLaws.CrashTurnsNextAway`). Webhook and scheduler use two queues,
  so one chat can be processed in both at once (`TwoQueues.OneConsumerIff`, `TwoQueues.TwoQueuesRace`).
- A cancel before the turn has taken its token is lost (`AcpProtocolLaws.CancelReaches`). Notifications other than
  prompt and cancel are answered (`AcpProtocolLaws.NullRepliesExactly`).
- In the terminal an answer that is neither yes nor no runs the command that was asked about
  (`TuiTurn.CommandsNeedYesIff`).
- A pause or deletion of a listed task does not stop it (`Pausing.PauseStopsIff`, `Pausing.DeleteStopsIff`). A resume
  after its success or while it executes can make a one-shot task succeed twice (`Pausing.ResumeIsSafeIff`). A restart
  or a failed reset strands a task whose row does not say pending (`Pausing.RestartStopsIff`,
  `Scheduler.EndRetiresExactly`).
- The audit tail reader can miss an event whose line is longer than its window (`AuditLog.RecentIsAllIff`,
  `AuditLog.LongLineIsMissed`).

## Model

| member | source | states |
|---|---|---|
| `DsmlTags.FindTag` | crates/arcc-core/src/model/dsml.rs:140-155 | the search over successive `<` returns the first index where a tag of the kind matches, with its end |
| `DsmlTags.MatchEndsAtGt` | crates/arcc-core/src/model/dsml.rs:79-126 | a matched tag ends at the first `>` behind its start, and a closing tag holds no second `<` |
| `DsmlTags.FindStable` | crates/arcc-core/src/model/dsml.rs:140-155 | appending text never moves a tag that was already found |
| `DsmlGrammar.MatchesAreWords` | crates/arcc-core/src/model/dsml.rs:67-126 | wherever it stands in a text, a tag is matched if and only if it is a word of the grammar: bracket, marker, whitespace, name, whitespace or (in opening tags) attributes behind whitespace, and the first `>` |
| `DsmlPartial.LongestPartialOpenTagSuffix` | crates/arcc-core/src/model/dsml.rs:338-352 | the byte scan returns the longest end, on a character boundary and of at most 64 bytes, that could become an opening tag |
| `DsmlPartial.PrefixOfBareIsPartial` | crates/arcc-core/src/model/dsml.rs:160-182 | every proper prefix of a bare outer opening tag passes the partial-tag test |
| `DsmlPartial.HeldExactlyWhenBare` | crates/arcc-core/src/model/dsml.rs:160-182 | every proper prefix of an outer tag is held back if and only if the tag is bare and at most 64 bytes before its `>` |
| `DsmlPrint.PartialIffGrows` | crates/arcc-core/src/model/dsml.rs:160-182 | the test on a held end accepts exactly the proper prefixes of bare outer opening tags |
| `DsmlParse.ExtractToolCalls` | crates/arcc-core/src/model/dsml.rs:193-231 | the loop over what remains computes the cleaned text and the calls of the recursive parser |
| `DsmlParse.ParseInvokeBlocks` | crates/arcc-core/src/model/dsml.rs:234-270 | the loop over invocations computes their calls, skipping one without a name and stopping at one without an end |
| `DsmlParse.ParseParametersLoop` | crates/arcc-core/src/model/dsml.rs:273-311 | the loop over parameters computes the argument map, later values replacing earlier ones |
| `DsmlParse.ExtractUnfinished` | crates/arcc-core/src/model/dsml.rs:207-213 | text whose first block never closes comes back unchanged, without calls |
| `DsmlRefinement.ExtractShift` | crates/arcc-core/src/model/dsml.rs:193-231 | plain text in front of a document is put in front of its cleaned text and changes none of its calls |
| `DsmlRefinement.SettleRefines` | crates/arcc-core/src/model/dsml.rs:376-467 | what one ingest hands out and keeps, together with the rest of the stream, is what the batch parser makes of it all |
| `DsmlRefinement.ClosedBlock` | crates/arcc-core/src/model/dsml.rs:415-425 | parsing a closed block alone yields the calls the batch parser finds in it |
| `DsmlStream.DsmlAccumulator.Ingest` | crates/arcc-core/src/model/dsml.rs:376-467 | in place, including the re-feed of the text behind a block: the new buffer, the visible text and the calls |
| `DsmlStream.DsmlAccumulator.Flush` | crates/arcc-core/src/model/dsml.rs:471-479 | the buffer is returned and emptied; with nothing buffered nothing changes |
| `DsmlRuns.StreamRefinesBatch` | crates/arcc-core/src/model/dsml.rs:376-479 | for every cutting, with bare short tags: same calls in the same order, and emitted, lost and dropped text make up the cleaned text |
| `DsmlRuns.CuttingIsIrrelevant` | crates/arcc-core/src/model/dsml.rs:376-479 | two cuttings of the same text hand out the same calls |
| `DsmlCuts.StreamTold` | crates/arcc-core/src/model/dsml.rs:376-467 | after any cutting the accumulator's state is a function of the whole text; the lost runs are those told by the cuts, in order, and the dropped blocks those of the text without a call |
| `DsmlCuts.Forward` | crates/arcc-core/src/model/dsml.rs:376-467 | one more delta: the new state, the run it loses and the blocks it drops, from the text before it and the text with it |
| `DsmlCuts.LosesWithTag` | crates/arcc-core/src/model/dsml.rs:384-389 | a delta that loses text brings the end of an opening tag but not the end of its block |
| `DsmlRuns.VisibleIsCleaned` | crates/arcc-core/src/model/dsml.rs:376-479 | with bare short tags, the visible text is the cleaned text if and only if every closed block of the text holds a call and no delta, judged by the text before it and with it, loses text |
| `DsmlRuns.NothingDroppedIff` | crates/arcc-core/src/model/dsml.rs:425-425 | no block is dropped if and only if every closed block of the text holds a call, wherever the text is cut |
| `DsmlRuns.NothingLostIff` | crates/arcc-core/src/model/dsml.rs:463-466 | no text is lost if and only if no delta ends inside a block it opened with text in front of the tag that is not settled yet |
| `DsmlRuns.RunLossExactly` | crates/arcc-core/src/model/dsml.rs:384-389 | over every stream, whatever its tags: text is lost exactly when some buffer holds an opening tag behind some text and no end of its block |
| `DsmlRuns.CutTagIsSeenIff` | crates/arcc-core/src/model/dsml.rs:338-403 | an outer tag cut before its last character opens a block if and only if it is bare and short |
| `DsmlRuns.EveryCuttingIff` | crates/arcc-core/src/model/dsml.rs:338-403 | a text with one outer tag whose block closes and holds a call: every cutting hands out the batch parser's calls if and only if the tag is bare and short |
| `DsmlRuns.OneCharVisible` | crates/arcc-core/src/model/dsml.rs:376-479 | fed one character at a time, emitted text and flush equal the cleaned text if and only if every closed block holds a call |
| `DsmlRuns.RunKeeps` | crates/arcc-core/src/model/dsml.rs:376-467 | over every run: outside a block the buffer is empty or a proper prefix of a bare outer opening tag, of at most 64 bytes; inside it starts with an opening tag and holds no closing one |
| `DsmlShown.RunShowsNoTag` | crates/arcc-core/src/model/dsml.rs:384-403 | no emitted piece of any run contains a complete outer opening tag |
| `DsmlShown.ShownTogetherHasNoTag` | crates/arcc-core/src/model/dsml.rs:384-403 | while no block has closed, all emitted pieces put together contain none either |
| `DsmlShown.CleanedHoldsTagIff` | crates/arcc-core/src/model/dsml.rs:193-231 | when every block closes and holds a call, the cleaned text holds an outer opening tag if and only if one reaches over a place where a block was taken out |
| `DsmlShown.ShownHoldsTagIff` | crates/arcc-core/src/model/dsml.rs:376-479 | the same for what a stream that loses nothing shows, flush included |
| `DsmlRuns.StreamAll` | crates/arcc-core/src/model/dsml.rs:363-479 | a whole stream through a new accumulator, flushed at the end, hands out the batch parser's calls |
| `DsmlPrint.TagMatches` | crates/arcc-core/src/model/dsml.rs:79-126 | a printed tag is recognised with its full length, in every accepted marker and spacing |
| `DsmlPrint.NameReadBack` | crates/arcc-core/src/model/dsml.rs:315-330 | the name attribute of a printed tag reads back as the name, in either kind of quotes |
| `DsmlPrint.StringReadBack` | crates/arcc-core/src/model/dsml.rs:281-287 | the string attribute of a printed tag reads back, whatever name precedes it |
| `DsmlPrint.StringNotThere` | crates/arcc-core/src/model/dsml.rs:285-287 | a printed parameter without a string attribute has none, whatever its name, so its value is JSON or text |
| `DsmlRoundTrip.ParamsRoundTrip` | crates/arcc-core/src/model/dsml.rs:273-311 | printed parameters parse back to the same map, with and without a string attribute and in either kind of quotes |
| `DsmlRoundTrip.InvocationsRoundTrip` | crates/arcc-core/src/model/dsml.rs:234-270 | printed invocations parse back to the same calls in order |
| `DsmlRoundTrip.DocumentRoundTrip` | crates/arcc-core/src/model/dsml.rs:193-231 | text interleaved with printed blocks parses to that text and those calls, for any text in which no outer opening tag starts |
| `DsmlRoundTrip.StreamedDocument` | crates/arcc-core/src/model/dsml.rs:376-479 | any cutting of a printed document hands out its calls; one character per delta also shows exactly its text |
| `DsmlRoundTrip.TextBeforeOpenTagIsLost` | crates/arcc-core/src/model/dsml.rs:463-466 | a delta that ends with an opening tag loses all text it brought in front of it |
| `DsmlRoundTrip.EmptyBlockIsDropped` | crates/arcc-core/src/model/dsml.rs:220-223 | a closed block without a call stays in the batch result and vanishes from the stream |
| `DsmlRoundTrip.HalvesMeet` | crates/arcc-core/src/model/dsml.rs:193-231 | with one half of a tag in front of a block and the other behind it, the cleaned text is an opening tag |
| `SseFrames.ReadFrames` | crates/arcc-core/src/model/deepseek.rs:561-590 | the draining loop handles the frames of all bytes read, up to the chunk with the end marker, and leaves no blank line in the buffer |
| `SseFrames.DrainKeepsBytes` | crates/arcc-core/src/model/deepseek.rs:585-590 | frames and rest together are the bytes received, in order |
| `SseFrames.DrainMore` | crates/arcc-core/src/model/deepseek.rs:585-590 | bytes that arrive later never change a complete frame |
| `SseFrames.CuttingIsIrrelevant` | crates/arcc-core/src/model/deepseek.rs:561-609 | for any two cuttings of the same bytes the frames handled up to the end marker are the same |
| `SseFrames.FramesBehindDone` | crates/arcc-core/src/model/deepseek.rs:585-609 | a frame behind the end marker is handled if it is in the same chunk, and not if it comes later |
| `ToolDeltas.Assemble` | crates/arcc-core/src/model/deepseek.rs:670-704 | the loops over fragments emit, at each finish, the calls of the fragments since the last one; their fields are those of `ToolDeltas.CallFields` |
| `ToolDeltas.CallFields` | crates/arcc-core/src/model/deepseek.rs:670-704 | what a finish emits, by positions in the fragments: a call for every index up to the largest, with the id and the name of the last fragment of its index that carries one and the arguments of exactly those fragments in order |
| `ToolDeltas.BuilderNext` | crates/arcc-core/src/model/deepseek.rs:672-688 | a fragment changes its own builder only: latest id and name, arguments appended |
| `ToolDeltas.InterleavingIsIrrelevant` | crates/arcc-core/src/model/deepseek.rs:670-704 | calls depend only on the order of each call's own fragments |
| `ToolDeltas.EmittedOnce` | crates/arcc-core/src/model/deepseek.rs:692-704 | what a finish emits is not emitted again |
| `ToolDeltas.EveryFragmentIsSentIff` | crates/arcc-core/src/model/deepseek.rs:573-609 | every fragment becomes part of a call that is sent if and only if none comes behind the last choice that finishes with tool calls |
| `ToolDeltas.FragmentBehindFinishIsLost` | crates/arcc-core/src/model/deepseek.rs:573-609 | a call whose fragment no such finish follows is never sent |
| `ModelStream.ReadChoices` | crates/arcc-core/src/model/deepseek.rs:622-729 | chunk by chunk, everything sent for a reply, with flushes at each finish and at the end; and the same seen channel by channel |
| `ModelStream.SentInOrder` | crates/arcc-core/src/model/deepseek.rs:622-729 | the chunks of each choice are reasoning, content, recovered calls and, if it finishes with tool calls, the native calls and what was held back; the end sends held text only |
| `ModelStream.ReplyIsRuns` | crates/arcc-core/src/model/deepseek.rs:622-729 | for every reply, the recovered calls, the content and the reasoning sent are those of the stretches between two finishes, each read by a new accumulator and flushed |
| `ModelStream.ReplyIsWhole` | crates/arcc-core/src/model/deepseek.rs:622-729 | however a reply is cut and wherever it finishes, if the outer tags of each stretch of content between two finishes are bare and short: the recovered calls sent are those of the batch parser on each stretch, and the text sent is what the stretches show |
| `ModelStream.NativeCallsAreWholeIff` | crates/arcc-core/src/model/deepseek.rs:670-704 | the native calls sent are made of runs of fragments, which are all of the reply's if and only if none comes behind the last choice that finishes with tool calls |
| `ModelStream.ReasoningCallsAreDropped` | crates/arcc-core/src/model/deepseek.rs:628-637 | without content no recovered call is sent, whatever the reasoning holds |
| `Messages.WireValidMeans` | crates/arcc-core/src/session.rs:24-38 | the recursive definition of an accepted list says: every call turn is followed at once by its results in call order, and every result belongs to a turn |
| `ToolSequence.SanitizeToolCallSequence` | crates/arcc-core/src/session.rs:39-106 | the nested loops compute the repair, for every list |
| `RepairLaws.RepairOfTurn` | crates/arcc-core/src/session.rs:64-102 | what becomes of a turn: its window ends at the next assistant message or when all calls have results, each first occurrence of an id gets the last matching result, the rest is made up or moved behind |
| `RepairLaws.WindowIsUnique` | crates/arcc-core/src/session.rs:70-89 | that window is determined by the messages alone |
| `RepairLaws.RepairIsWireValid` | crates/arcc-core/src/session.rs:39-106 | every list is repaired into an accepted one |
| `RepairLaws.RepairKeepsNonTools` | crates/arcc-core/src/session.rs:54-60 | messages other than results are kept exactly and in order |
| `RepairLaws.RepairUsesOnce` | crates/arcc-core/src/session.rs:67-102 | every message of the result that is not made up is an original one, used at most as often |
| `RepairFixpoints.RepairIsIdentity` | crates/arcc-core/src/session.rs:39-106 | on an accepted list the repair is the identity if and only if results of repeated ids are all made up |
| `RepairFixpoints.RepairTwice` | crates/arcc-core/src/session.rs:39-106 | for every list, repairing twice equals repairing once if and only if no repeated id had a real result before the next assistant message |
| `RepairFixpoints.DistinctIsStable` | crates/arcc-core/src/session.rs:39-106 | with distinct ids the repair is idempotent, and the identity on accepted lists |
| `RepairFixpoints.RepeatedIdLosesResults` | crates/arcc-core/src/session.rs:72-82 | two calls with one id: the first pass loses one result, the second pass the other |
| `Interrupted.RepairFills` | crates/arcc-core/src/session.rs:91-100 | on ordered histories with cut-short turns the repair only adds the missing results |
| `Interrupted.RepairOfStored` | crates/arcc-core/src/session.rs:54-60 | if the front was cut off as well, it also drops the orphaned results, and does nothing else |
| `Interrupted.StoredSuffix` | crates/arcc-core/src/session.rs:283-289 | such histories stay such histories however much is dropped in front |
| `Interrupted.FilledMeans` | crates/arcc-core/src/session.rs:91-100 | filling in changes nothing exactly when the history was accepted already |
| `Requests.PreparedIsAcceptable` | crates/arcc-core/src/session.rs:377-396 | whatever is stored, the prepared list is accepted and every call turn has reasoning that is not blank |
| `Requests.PreparedSaysTheSame` | crates/arcc-core/src/session.rs:377-396 | apart from results every stored message is sent in order, unchanged unless it has calls and no reasoning or a blank one, and then with the placeholder as reasoning |
| `Requests.RetainKeepsValid` | crates/arcc-acp/src/prompt.rs:411-411 | dropping system messages keeps a list accepted |
| `Requests.RequestIsAcceptable` | crates/arcc-acp/src/prompt.rs:408-413 | the built request starts with the system message, has no other, and is accepted |
| `Requests.RequestSaysTheSame` | crates/arcc-acp/src/prompt.rs:408-413 | apart from results the request is the fresh system message and then everything stored that is no system message, in order |
| `Sessions.Session.PushMessage` | crates/arcc-core/src/session.rs:177-181 | the message is appended and its tokens counted |
| `Sessions.Session.Compress` | crates/arcc-core/src/session.rs:226-292 | summary or truncation, and nothing on an empty session |
| `Sessions.Session.PrepareForRequest` | crates/arcc-core/src/session.rs:377-396 | returns the prepared list, acceptable in every state, and leaves the session unchanged |
| `Sessions.Session.PruneImages` | crates/arcc-core/src/session.rs:403-417 | the backward loop leaves images on the newest bearers and marks the others |
| `Sessions.Session.AttachReasoning` | crates/arcc-core/src/session.rs:426-443 | reasoning goes to the newest assistant message that needs it |
| `SessionLaws.TruncationIsMinimal` | crates/arcc-core/src/session.rs:282-290 | truncation drops the fewest oldest messages that reach the limit, and keeps two |
| `SessionLaws.PrunedExactly` | crates/arcc-core/src/session.rs:403-417 | images stay on exactly the newest k bearers; nothing else changes but one marker |
| `SessionLaws.PruneTwice` | crates/arcc-core/src/session.rs:403-417 | pruning to k and then to j is pruning to the smaller, as equality of states |
| `SessionLaws.FirstReasoningStays` | crates/arcc-core/src/session.rs:436-441 | real reasoning once attached is not replaced |
| `SessionLaws.AttachedExactly` | crates/arcc-core/src/session.rs:426-443 | attaching changes the newest assistant message alone, and that only if its reasoning is missing, blank or the placeholder and the text is not empty |
| `SessionRuns.RunTells` | crates/arcc-core/src/session.rs:177-443 | after every run from an empty session: it holds what was pushed since it was last cleared or compressed, all of it unless a compression failed, but for pruned images and attached reasoning; the summary is the last compression's and, unless one failed, the token count that of what was pushed |
| `SessionRuns.FailedCompressionDropsLeast` | crates/arcc-core/src/session.rs:276-290 | a compression without a summary drops the fewest oldest messages that bring the count within the limit, takes their tokens off, and keeps two |
| `SessionRuns.RequestAfterCompression` | crates/arcc-core/src/session.rs:226-275 | the request behind a successful compression is the summary and the note of it, and nothing else |
| `SessionLaws.RunStaysHealthy` | crates/arcc-core/src/session.rs:177-443 | every run of pushes in turn order, compressions, truncations, prunings, attachments and resets keeps the history ordered up to a cut front |
| `SessionLaws.NextRequest` | crates/arcc-core/src/session.rs:377-396 | after any such run the next request is the stored history with missing results and reasoning filled in and cut-off results dropped |
| `Turns.ReadStream` | crates/arcc-acp/src/prompt.rs:120-185 | the stream loop returns the concatenated content, reasoning and calls, or why there is no reply |
| `Turns.AssistantSpeaks` | crates/arcc-acp/src/prompt.rs:194-220 | the stored assistant message has the text of the content chunks as content, that of the reasoning chunks as reasoning, and the started calls, each in order; no calls and no reasoning if there are none |
| `AcpTurn.RunPrompt` | crates/arcc-acp/src/prompt.rs:38-335 | for every script: which messages are stored and counted, which requests are sent, what is asked and run, and the stop reason; each of these is told from the script by `AcpTurn.TurnStores`, `AcpTurn.RoundCounts`, `AcpTurn.RequestSees`, `AcpTurn.TurnDoes` and `AcpTurn.StopIs` |
| `AcpTurn.TurnStores` | crates/arcc-acp/src/prompt.rs:194-330 | round by round, up to the one it stops in, a turn stores nothing without a complete reply, else the assistant's message and one result for each call that was settled: the output, `error: ` and the error, or the rejection |
| `AcpTurn.TurnDoes` | crates/arcc-acp/src/prompt.rs:226-330 | round by round, a turn asks about exactly the calls that need leave and runs exactly those that have or need none, up to the first that is cut off |
| `AcpTurn.RoundCounts` | crates/arcc-acp/src/prompt.rs:205-330 | a round counts the tokens of its content, its reasoning and the outputs of its commands, and nothing for rejections and errors |
| `AcpTurn.StopIs` | crates/arcc-acp/src/prompt.rs:99-335 | a turn ends as cancelled if and only if the round it stops in was not started, was cut in mid-stream or was cut off at a call, and as ended if and only if that round was refused, broke or called no tools |
| `AcpTurn.RunTools` | crates/arcc-acp/src/prompt.rs:226-330 | one stored result per call in call order, up to a cancellation |
| `AcpTools.CallsHaveLeave` | crates/arcc-acp/src/prompt.rs:238-285 | over the calls of a reply: a command that needs confirmation runs if and only if the client allowed it once, right before |
| `AcpTurn.TurnHasLeave` | crates/arcc-acp/src/prompt.rs:344-402 | the same over a whole turn: a rejection, any other answer, none, or a cancellation keeps the command from running |
| `AcpTurn.EveryRequestIsAcceptable` | crates/arcc-acp/src/prompt.rs:80-97 | every request of every turn is accepted, and all earlier calls of the turn have exactly their results |
| `AcpTurn.RequestSees` | crates/arcc-acp/src/prompt.rs:80-97 | the i-th request is built from the history with the first i rounds complete; only the first offers tools |
| `AcpTurn.RequestsReach` | crates/arcc-acp/src/prompt.rs:80-335 | there is an i-th request if and only if all rounds before it called tools and got all results |
| `AcpTurn.TurnLeavesHealthy` | crates/arcc-acp/src/prompt.rs:194-334 | wherever a turn stops, the next request repeats the old history and this turn with its open calls filled in |
| `TuiTurn.RunToolCallingLoop` | crates/arcc-tui/src/ui/app.rs:1454-1974 | for every script: what is stored, counted, pruned and sent, what is asked and carried out, round by round; told from the script by `TuiTranscript.LoopTells`, `TuiTranscript.LoopLeaves` and `TuiTranscript.RequestTells` |
| `TuiTranscript.LoopTells` | crates/arcc-tui/src/ui/app.rs:1608-1958 | for each round of a loop: the assistant's message, one result per call with the output, the error, the refusal or why it cannot be done, and the newest screenshot once all results are there; each call is asked about and carried out exactly if the settings, the tools offered and the trust left so far say so |
| `TuiTranscript.LoopLeaves` | crates/arcc-tui/src/ui/app.rs:1454-1974 | a loop stops behind the first round that calls no tools or lacks a result; it leaves all rounds up to there, those before the last request with images on the newest bearers alone |
| `TuiTranscript.HeldIs` | crates/arcc-tui/src/ui/app.rs:1481-1495 | when a request is sent the session holds the old history and all messages of the earlier rounds, with images on the newest keep_screenshots bearers; nothing is pruned for the first |
| `TuiTranscript.RequestTells` | crates/arcc-tui/src/ui/app.rs:1481-1495 | every rebuilt request is the fresh system message and what the session holds, without system messages and with results made up only for calls interrupted earlier |
| `TuiTranscript.OffersToolsIff` | crates/arcc-tui/src/ui/app.rs:1960-1972 | a later request offers tools if and only if computer use is on after the round before it and fewer than max(1, max_rounds) requests have offered tools |
| `TuiTranscript.RoundCounts` | crates/arcc-tui/src/ui/app.rs:1631-1958 | a round counts the tokens of its content, its reasoning, the outputs of what was carried out, and a screenshot's caption and 1024 more |
| `TuiTurn.RunTools` | crates/arcc-tui/src/ui/app.rs:1643-1940 | each call gets one result on every branch of its guards, and the last screenshot is remembered |
| `TuiTools.ToolsAreAllowed` | crates/arcc-tui/src/ui/app.rs:1652-1939 | over the calls of a reply: a dangerous command or an action that is not read-only is carried out only with the leave the settings require, given for it or for good and not withdrawn, and nobody is asked without need |
| `TuiTurn.CommandsNeedYesIff` | crates/arcc-tui/src/ui/app.rs:1678-1688 | over every loop, a dangerous command that needs the user's yes runs without it if and only if some question about a command was answered with neither yes nor no |
| `TuiTurn.LoopIsAllowed` | crates/arcc-tui/src/ui/app.rs:1652-1939 | the same over all rounds of a loop; the trust left at the end is what the answers and withdrawals amount to |
| `TuiTurn.NoActionWithoutTools` | crates/arcc-tui/src/ui/app.rs:1776-1791 | no computer action is performed in a round whose request offered no tools |
| `TuiTurn.ToolRequestsAreBounded` | crates/arcc-tui/src/ui/app.rs:1960-1972 | at most max(1, max_rounds) requests of a loop offer tools |
| `TuiTurn.RequestFollowsResults` | crates/arcc-tui/src/ui/app.rs:1471-1538 | when a request is sent, every call of the earlier rounds has exactly one result, in order |
| `TuiTurn.LoopStaysHealthy` | crates/arcc-tui/src/ui/app.rs:1608-1958 | wherever the loop stops or is aborted, the history stays repairable by adding results |
| `TuiTurn.LaterRequestsAreAcceptable` | crates/arcc-tui/src/ui/app.rs:1481-1495 | every rebuilt request is accepted and shows at most keep_screenshots messages with images |
| `TuiTurn.OpeningIsAcceptable` | crates/arcc-tui/src/ui/app.rs:694-708 | the first request of a submitted prompt is accepted and shows no image |
| `FeishuHistory.SanitizeHistory` | crates/arcc-server/src/feishu/webhook.rs:52-89 | the removals in place compute the clean-up, for every list |
| `FeishuHistory.SanitizedIsValid` | crates/arcc-server/src/feishu/webhook.rs:52-89 | for every list the result is accepted if and only if each run of results is shorter than the calls before it or answers exactly those |
| `FeishuHistory.SanitizedIsKept` | crates/arcc-server/src/feishu/webhook.rs:52-89 | message by message: a result stays if and only if the turn it belongs to has enough of them, and a message with fewer results than calls loses its calls |
| `FeishuHistory.SanitizeRepairsStored` | crates/arcc-server/src/feishu/webhook.rs:52-89 | every history a turn loop left, interrupted or cut off in front, becomes accepted |
| `FeishuHistory.SanitizeKeepsValid` | crates/arcc-server/src/feishu/webhook.rs:52-89 | an accepted history is left alone |
| `FeishuHistory.SummaryHidesOrphans` | crates/arcc-server/src/feishu/webhook.rs:53-56 | behind a summary message the result is accepted if and only if the cut did not fall inside a turn |
| `FeishuHistory.SanitizedSaysTheSame` | crates/arcc-server/src/feishu/webhook.rs:81-86 | every message that is not a result is kept, at most without its calls |
| `FeishuTurn.ProcessChat` | crates/arcc-server/src/feishu/webhook.rs:576-855 | for every script: what a chat stores and counts, which model calls it makes, how it ends |
| `FeishuTranscript.ChatStores` | crates/arcc-server/src/feishu/webhook.rs:757-840 | round by round: the reply as the model gave it (a blank one with calls as "working"), its calls in the first ten rounds only, and their results in call order |
| `FeishuTranscript.CallShows` | crates/arcc-server/src/feishu/webhook.rs:703-840 | there is an i-th model call if and only if all rounds before got all results; it is shown the opening and everything those stored |
| `FeishuTranscript.StopIs` | crates/arcc-server/src/feishu/webhook.rs:703-855 | a chat ends with a reply if and only if the round it stops in calls no tools or is past the tenth, and with a failure if and only if that call failed |
| `FeishuTranscript.OpeningSays` | crates/arcc-server/src/feishu/webhook.rs:639-664 | the opening is the system message, the memory if there is any, and of the cleaned-up history exactly the messages that are no system messages and the summaries, in order |
| `FeishuTurn.ToolLoop` | crates/arcc-server/src/feishu/webhook.rs:703-855 | the loop stores what it shows the model and stops as specified |
| `FeishuTurn.CallsAreBounded` | crates/arcc-server/src/feishu/webhook.rs:694-704 | at most MAX_TOOL_ROUNDS + 1 model calls, the last of which has no tools |
| `FeishuTurn.EveryCallIsValid` | crates/arcc-server/src/feishu/webhook.rs:788-840 | if the opening is accepted, so is every model call of the chat |
| `FeishuTurn.OpeningIsValid` | crates/arcc-server/src/feishu/webhook.rs:639-664 | for stored histories the opening is accepted if and only if there is no summary or no orphan in front |
| `FeishuTurn.ChatLeavesHealthy` | crates/arcc-server/src/feishu/webhook.rs:757-776 | serial chats keep the history ordered, and accepted if they ran to their end |
| `FeishuTurn.CompressionInsideTurnIsRejected` | crates/arcc-server/src/feishu/webhook.rs:833-840 | a compression between a call and its result leaves a history whose next opening is rejected |
| `ChatQueue.StepIsValid` | crates/arcc-server/src/feishu/chat_queue.rs:84-160 | every step keeps each message at one place and each waiter's answers equal to what is due |
| `ChatQueueLaws.ReachableIsValid` | crates/arcc-server/src/feishu/chat_queue.rs:77-160 | so does every run from an empty queue |
| `ChatQueueLaws.WaiterHearsOnce` | crates/arcc-server/src/feishu/chat_queue.rs:77-82 | in every run a waiter hears at most once, and exactly once when its message is settled; what it hears is told by `ChatQueueAnswers.AnswersAreTold` |
| `ChatQueueAnswers.AnswersAreTold` | crates/arcc-server/src/feishu/chat_queue.rs:142-160 | in every run a waiter has heard `true` if and only if a step ended the processing of its message with success, and `false` if and only if a step ended it with failure, refused the message or lost it |
| `ChatQueueAnswers.TicketsAreMessages` | crates/arcc-server/src/feishu/chat_queue.rs:84-104 | the waiters of a run are those of its enqueued messages, in order |
| `ChatQueueLaws.ProcessedAtMostOnce` | crates/arcc-server/src/feishu/chat_queue.rs:116-140 | over every run each message is processed at most once |
| `ChatQueueLaws.FirstInFirstOut` | crates/arcc-server/src/feishu/chat_queue.rs:126-140 | on one channel a message starts only after all earlier ones are done |
| `ChatQueueLaws.QuietRunIsSerial` | crates/arcc-server/src/feishu/chat_queue.rs:84-112 | runs without a panic, and without an enqueue between a consumer's end and its entry's removal, keep one consumer per chat and lose nothing |
| `ChatQueueLaws.SingleIffNeverDoubles` | crates/arcc-server/src/feishu/chat_queue.rs:84-112 | over every run, panics included: a chat never has two consumers if and only if no message for a chat without an entry arrives while a consumer of the chat is still there |
| `ChatQueueLaws.OwnedIffNeverEvicts` | crates/arcc-server/src/feishu/chat_queue.rs:84-112 | over every run, panics included: each consumer keeps its chat's entry if and only if no message arrives between the drop of a receiver and the removal of its entry |
| `ChatQueueLaws.SerialPerChat` | crates/arcc-server/src/feishu/chat_queue.rs:1-9 | in such states messages of a chat are processed one at a time and in order |
| `ChatQueueLaws.SerialLosesNothing` | crates/arcc-server/src/feishu/chat_queue.rs:84-112 | in such states no accepted message is lost |
| `ChatQueueLaws.WindowLosesExactly` | crates/arcc-server/src/feishu/chat_queue.rs:91-98 | in every state, a message is doomed if and only if it finds an entry whose consumer has ended or panicked |
| `ChatQueueLaws.DoomedForever` | crates/arcc-server/src/feishu/chat_queue.rs:126-140 | a doomed message is not processed in any continuation |
| `ChatQueueLaws.CrashLosesExactly` | crates/arcc-server/src/feishu/chat_queue.rs:126-140 | a panic loses the message in processing and those waiting behind it, and no other |
| `ChatQueueLaws.CrashTurnsNextAway` | crates/arcc-server/src/feishu/chat_queue.rs:91-98 | after a panic the entry stays; the next message of the chat is turned away and clears it |
| `ChatQueueLaws.AtomicRunIsSerial` | crates/arcc-server/src/feishu/chat_queue.rs:106-111 | with receiver drop and entry removal as one step every run without a panic is serial, so loses nothing |
| `ChatQueueLaws.AtomicRunIsOwned` | crates/arcc-server/src/feishu/chat_queue.rs:106-111 | with that one step each consumer keeps its entry and a chat has one consumer at most, in every run, panics included |
| `ChatQueueLaws.TwoConsumersOfOneChat` | crates/arcc-server/src/feishu/chat_queue.rs:108-109 | a run of eight steps that loses a message and has two consumers of one chat at work |
| `TwoQueues.OneConsumerIff` | crates/arcc-server/src/feishu/executor.rs:15-18 | over every run of the webhook's and the scheduler's queue side by side, panics included: a chat never has two consumers, in one queue or over both, if and only if no message starts a consumer of a chat while either queue still has one |
| `TwoQueues.SoloWorksAlone` | crates/arcc-server/src/feishu/webhook.rs:32-35 | as long as no chat has two consumers, one at most is at work on a chat, over both queues |
| `TwoQueues.CrossingWorks` | crates/arcc-server/src/feishu/executor.rs:15-18 | after a start beside the other queue's consumer the chat is processed in both queues: at once if that one is at work, with its next message if it waits and has its entry |
| `TwoQueues.TwoQueuesRace` | crates/arcc-server/src/feishu/executor.rs:15-18 | one user message and one due task of a chat suffice for that |
| `AcpProtocol.StepIsGuarded` | crates/arcc-acp/src/lib.rs:219-286 | every step keeps the running flag equal to "some turn holds the guard", with at most one holder |
| `AcpProtocolLaws.OneRunningTurn` | crates/arcc-acp/src/lib.rs:231-238 | two turns that run on one session are the same turn |
| `AcpProtocolLaws.PromptStartsIff` | crates/arcc-acp/src/lib.rs:219-286 | a prompt starts a turn if and only if it is a well-formed request with text for an open session no turn is running on |
| `AcpProtocolLaws.OneResponse` | crates/arcc-acp/src/lib.rs:116-168 | a request with an id has exactly one response, or a turn that is not over, and never two; what it says is told by `AcpReplies.ServerSendsRightly` |
| `AcpReplies.ServerSendsRightly` | crates/arcc-acp/src/lib.rs:116-381 | in every run each step sends exactly what it should: each of the six errors, success and silence exactly under its condition on the sessions opened and closed by the messages so far and the turns still running; a finished turn's response is its result |
| `AcpReplies.RunTurnsSucceed` | crates/arcc-acp/src/lib.rs:279-283 | over every run, no response to the prompt of a turn says anything but success |
| `AcpReplies.PromptAfterClose` | crates/arcc-acp/src/lib.rs:219-381 | a close of an open session succeeds, and whatever follows, a later prompt of that session is told that there is none |
| `AcpProtocolLaws.NullRepliesExactly` | crates/arcc-acp/src/lib.rs:131-168 | over every run, exactly one reply without an id is sent for each message without an id that is neither a prompt nor a cancel; requests that cannot be read and values that are no objects count as malformed messages, a line that is no JSON is not part of the model |
| `AcpProtocolLaws.StepKeepsSequence` | crates/arcc-acp/src/lib.rs:273-284 | no message of a turn follows its response, over all steps |
| `AcpProtocolLaws.GuardClearedFirst` | crates/arcc-acp/src/lib.rs:276-283 | when a turn answers, its session is marked running only if another turn holds the guard by then |
| `AcpProtocolLaws.NotBusyAfterwards` | crates/arcc-acp/src/lib.rs:276-278 | after all turns of a session cleared the guard a prompt is not turned away as busy |
| `AcpProtocolLaws.CancelledLater` | crates/arcc-acp/src/session.rs:51-63 | a turn that sees a cancellation was cancelled after it took its token, on its own session |
| `AcpProtocolLaws.CancelReaches` | crates/arcc-acp/src/session.rs:57-63 | a cancel or a close reaches the running turn if and only if that has taken its token |
| `AcpReplies.CancelledExactly` | crates/arcc-acp/src/session.rs:51-63 | over all steps: a token is cancelled by a cancel or a close of the session that holds it, and by nothing else |
| `AcpProtocolLaws.AnswerReachesAsker` | crates/arcc-acp/src/permission.rs:36-50 | a permission answer is used at most once and moves only the turn that asked and still waits |
| `AcpProtocolLaws.NobodyWaitsAfterClose` | crates/arcc-acp/src/permission.rs:54-59 | closing the input wakes every waiting turn |
| `AcpProtocolLaws.ReachableIsGood` | crates/arcc-acp/src/lib.rs:175-381 | all these invariants hold in every state reachable from the server's start |
| `AcpHandles.CancelBeforeStart` | crates/arcc-acp/src/session.rs:51-63 | on the shared objects: a cancel before the turn takes its token hits the old token and leaves the new one alone |
| `AcpHandles.CancelDuringTurn` | crates/arcc-acp/src/session.rs:51-63 | a cancel during a turn reaches its token; neither the token before nor the one after is touched |
| `AcpHandles.AcceptPrompt` | crates/arcc-acp/src/lib.rs:231-268 | on the shared flag: a prompt starts exactly if no turn is running and it has text, and otherwise leaves the flag as it was |
| `AcpHandles.AcpSessionRegistry.Remove` | crates/arcc-acp/src/session.rs:98-105 | the handle is dropped and the token it holds is cancelled; an unknown id changes nothing |
| `AcpHandles.PermRegistry.Resolve` | crates/arcc-acp/src/permission.rs:36-50 | only an answer under a pending id is taken, it goes to that request's channel, and no channel is used twice |
| `AcpHandles.PermRegistry.CancelAll` | crates/arcc-acp/src/permission.rs:54-59 | every pending request gets null exactly once, and nothing else is sent |
| `Scheduler.RetiredNeverRuns` | crates/arcc-server/src/scheduler.rs:72-143 | a task that is neither pending, queued nor running is not executed again without a resume, whatever else happens |
| `Scheduler.EndRetiresExactly` | crates/arcc-server/src/scheduler.rs:87-142 | an execution leaves its task retired unless the row exists and a write that makes it pending succeeded |
| `Scheduler.OneShotSucceedsOnce` | crates/arcc-server/src/scheduler.rs:136-142 | a one-shot task succeeds at most once, over failing writes, restarts, pauses and deletions, unless it is resumed after its success or while it executes |
| `Pausing.ResumeIsSafeIff` | crates/arcc-storage/src/db/queries.rs:386-392 | a resume leaves a one-shot task with one success at most, in every continuation, if and only if it has no row or has neither succeeded nor is executing |
| `Scheduler.AtMostTenFailures` | crates/arcc-server/src/scheduler.rs:87-109 | without a resume: at most ten consecutive failures in one process, and no execution after the tenth |
| `Scheduler.RestartStrands` | crates/arcc-server/src/scheduler.rs:76-85 | a restart leaves a task retired exactly if its row does not say pending, so in particular the one that was executing |
| `Pausing.RestartStopsIff` | crates/arcc-server/src/scheduler.rs:62-85 | after a restart a task never starts again, in every continuation without a resume, if and only if its row does not say pending |
| `Pausing.PauseStopsIff` | crates/arcc-server/src/scheduler.rs:76-80 | a pause keeps a task that is not executing from ever starting again, in every continuation without a resume, if and only if it was not listed yet |
| `Pausing.PauseRetiresIff` | crates/arcc-storage/src/db/queries.rs:377-383 | a pause retires a task exactly if it is neither listed nor executing |
| `Pausing.PauseDuringExecution` | crates/arcc-server/src/scheduler.rs:87-142 | a pause during an execution survives it unless a write that makes the task pending again succeeds |
| `Pausing.DeleteStopsIff` | crates/arcc-storage/src/db/queries.rs:371-374 | a deletion keeps a task from ever starting again, in every continuation, if and only if it was not listed yet |
| `Scheduler.ResumeRevives` | crates/arcc-storage/src/db/queries.rs:386-392 | a resume, a query without a caller, makes any existing task pending again, a completed one-shot task included |
| `Scheduler.StepIsValid` | crates/arcc-storage/src/db/queries.rs:257-392 | queued and running tasks stay known, distinct and with their own cron expression |
| `ScheduleRows.RowsAreTold` | crates/arcc-server/src/scheduler.rs:62-143 | over every run: the listed and the executing task, the failures in a row, which rows there are, and their status and due time are those the events tell, the last write winning |
| `ScheduleRows.RunsAgainAtItsTime` | crates/arcc-server/src/scheduler.rs:114-119 | after a success a recurring task is pending, due exactly when cron says, with the old due time as last run; it is listed from that time on, and in every continuation it does not start before a listing at that time |
| `TaskTable.ScheduledTasks.ListDueTasks` | crates/arcc-storage/src/db/queries.rs:280-306 | returns exactly the pending tasks whose time has come, each once, the longest due first |
| `TaskTable.RescheduledIsListed` | crates/arcc-storage/src/db/queries.rs:331-339 | a task that was given its next run is listed again from that time on and not before, and no other task's listing changes; before that time the listing without it is a listing |
| `AuditLog.ReadRecent` | crates/arcc-storage/src/audit/reader.rs:16-60 | the tail reader computes the events of its window, or falls back to the full scan |
| `AuditLog.ReadAll` | crates/arcc-storage/src/audit/reader.rs:63-84 | the full scan returns the last parseable events |
| `AuditLog.LinesTorn` | crates/arcc-storage/src/audit/reader.rs:28-44 | a window that starts inside a line sees the end of that line first and all later lines whole |
| `AuditLog.RecentIsAllIff` | crates/arcc-storage/src/audit/reader.rs:16-60 | on a log whose lines parse, tail reader and full scan agree if and only if the window does not start inside a needed line whose rest parses differently |
| `AuditLog.RecentIsNewest` | crates/arcc-storage/src/audit/reader.rs:16-84 | on any log, unless the window cuts a line it needs, the tail reader returns the newest of the full scan's events, those on the last lines, and all of them if and only if as many of these parse |
| `AuditLog.LongLineIsMissed` | crates/arcc-storage/src/audit/reader.rs:28-51 | one event on a line of at least 200 bytes is not shown when one event is asked for |
| `Coordinates.MapImagePoint` | crates/arcc-core/src/computer/coord.rs:16-52 | both coordinates and the clamp flag, including an image without pixels; where the point lies is told by `Coordinates.MapIsNearest` |
| `Coordinates.MapIsNearest` | crates/arcc-core/src/computer/coord.rs:25-49 | an in-image pixel goes to the point nearest to its exact place, halves up, or to the last one of the screen if that lies behind it; one outside the image goes where the image's nearest pixel goes |
| `Coordinates.LandsOnScreen` | crates/arcc-core/src/computer/coord.rs:37-49 | the point is always on the monitor |
| `Coordinates.MapIsMonotone` | crates/arcc-core/src/computer/coord.rs:25-49 | a pixel further right is mapped no further left |
| `Coordinates.MapIsInjective` | crates/arcc-core/src/computer/coord.rs:31-35 | on a screen at least as large as the image no two pixels share a point |
| `Coordinates.NeverClampedIff` | crates/arcc-core/src/computer/coord.rs:42-49 | no in-image pixel is reported as clamped if and only if twice the screen exceeds the image, or there is no screen |
| `Coordinates.FitWidthKeepsShape` | crates/arcc-core/src/computer/capture.rs:181-188 | a picture that fits, or has no limit, keeps its size; else it gets the limit as width and the height nearest to the exact ratio, or one only if that is below three halves |

## Left out

- HTTP, standard input and output, SQLite, subprocesses, screen capture and clocks: they are inputs or outcomes.
- Update in place in the step relations: chat queue, ACP turns and scheduler are values changed by steps, so
  locks and aliasing appear only as the atomicity of a step.
- Ids of recovered calls, JSON parsing, cron arithmetic, token counting: fresh or opaque values.
- Overflow of the token counter and of 32-bit screen coordinates: integers are unbounded.
- Rounding of `f64` in the coordinate mapping: exact rationals instead.
- Persistence of messages and summaries, and the session manager's lookup: no property beyond a write.
- Progress of the loops: recovered calls in a request without tools can start another round of the ACP and TUI loops, so
  their requests are not bounded; a message that waits in a live channel is not proved to be processed.
- Frames behind the end marker inside one chunk are not fed to `ModelStream`; `SseFrames` states when they occur.
- A model provider that is not registered: the ACP turn panics there, which the protocol shows as a turn that never ends.
- An audit log that grows between the two reads of the fallback.
- The audit scan's treatment of carriage returns, lines of white space and invalid UTF-8, which makes the full scan fail.
- The text the Feishu path stores for a scheduled trigger, message cards and replies to the user.
- A line on standard input that is no JSON: it gets one reply without an id and changes nothing.
- What slash commands and other loops do to the terminal's switches and approvals: inputs read before each call.
- Updates a turn sends to the client are events of the protocol model and not part of the turn-loop model.
- Rendering, slash commands, configuration, migrations, memory records, model choice, the MCP scheduler: thin or without
  transitions worth proving.
