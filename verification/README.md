# Session layer of the agent crate: model and proofs

The agent crate turns provider feeds that race, arrive in chunks and repeat each other into one
canonical event stream. This project models that layer in Dafny and proves what its clients rely
on: turns that open and close in a sane order, text and tool cards that add up, subagents that
settle after their transcripts, readers and buffers for which chunking makes no difference, and
windows, manifests and diffs that mean what they say.

Objects that the program updates in place are classes here (`State`, `ObservedWriter`, `Terminal`,
`MapperState`, `TranscriptMapper`, the readers, `ManifestState`, ...). Each of their methods is
proved equal to a function on values, and the statements about whole runs are proved about those
functions. A lock-protected handler is one atomic step, so a run is a sequence of steps in
whatever order the scheduler chose.

| file | part of the program |
|---|---|
| Text, Events, ByteLines | numerals, lines and ids; the canonical events; lines of a byte stream |
| AcpSession, AcpTurns, AcpText, AcpTools | the session state, and turns, streamed text and tool cards over whole runs |
| Grok | Grok's notifications on top of the session state: its own turns and its background count |
| PromptAck, TerminalBuffer, UnifiedDiff | the observed writer, the bounded terminal buffer, the single-hunk diff |
| DiffSplitter | the multi-file diff splitter |
| Transcript, LineReaders | the transcript mapper, and the incremental transcript and goal readers |
| ChildDedupe, ChildUpdates, ChildBlocks | Claude's child items on two feeds: what is accepted, when two copies are one, which blocks survive |
| SubagentGate, TailProtocol | subagents, commands and tools of the mapper; the actor with its tail tasks and held terminal snapshots |
| TerminalReports, SubagentTasks | what a held snapshot shows, read off the messages; tasks, spawns and tails message by message |
| RequestUsage, ClaudeBackground, BlockNumbers | Claude's context usage, background liveness and block ids |
| ContextWindow, LaunchWindow, Manifest | the token grammar, launch flags that realise a window, the model manifest |

## Where the code and its comments part

The model follows the code. Nine statements one would expect hold only under a condition. Each
condition is proved exact, and each failure has its input.

1. A drained background count is meant to be withheld until the follow-up turn is over, but a
   second empty report publishes the zero at once: for Grok under an open sent turn exactly when
   nothing was tracked before the report (`Grok.ZeroUnderSentTurn`, `Grok.RepeatedReportIsEarly`),
   for Claude before any result (`ClaudeBackground.WithheldZeroAppears`).
2. A disk cache first looked at after a successful fetch brings its own, older fetch time, and the
   next fetch may come before the last one went stale (`Manifest.HarmfulCacheArrives`).
   `Manifest.PaceLostIffHarmful` gives the condition; a run whose first round has a cache directory
   always meets it (`Manifest.CacheFirstIsHarmless`).
3. The transcript mapper numbers blocks anew in each record. Over a child's assistant records every
   text or thinking block that is not empty survives deduplication if and only if no two of them
   share their message and their number within their record
   (`ChildBlocks.BlocksSurviveIffNumberedApart`, `ChildBlocks.SplitChildMessageKeepsFirst`).
4. On the main thread the message being streamed is forgotten when a turn begins or a compaction
   ends. The remaining deltas of its blocks then go to another item than the completed blocks
   (`BlockNumbers.DeltaIdIffUndisturbed`, `BlockNumbers.ClearedGoalSplitsBlock`).
5. When only the `diff --git` line names a file, its path is reported if and only if it is not
   empty, does not contain the separator ` b/`, and does not end in a carriage return unless the
   file is deleted (`DiffSplitter.HeaderPathRecovered`, `DiffSplitter.HeaderPathsLost`).
6. The kind of a change is also read off hunk lines: a removed line `-- /dev/null` makes a modified
   file a created one (`DiffSplitter.HunksKeepKind`, `DiffSplitter.RemovedLineCreates`).
7. Grok's test for an open sent turn goes wrong with the first prompt of Grok's own that starts
   while an earlier one's turn is the open turn, and not before (`Grok.TestLostIffOverlap`,
   `Grok.TwoPromptsOverlap`).
8. The end of a client's prompt ends the turn it belongs to if and only if no turn was sent since
   and that turn has not completed; otherwise it ends the one sent last if that is open
   (`Grok.ClientEndCompletesOwnTurn`, `Grok.SecondSendIsCompleted`).
9. Two copies of a feed are accepted as one if and only if an item's updates before its first
   completion carry one content (`ChildUpdates.ConfluentIffOneContent`). Transcripts emit no
   updates (`Transcript.TranscriptIsOrderly`), so their two feeds always agree.

## Model

| member | source | states |
|---|---|---|
| AcpTurns.EveryCompletionIsCurrent | crates/agent/src/acp_session.rs:1791-1835 | in every interleaving of sends, prompt results and agent turns, each completion names the turn started last, which is still open; a turn is parked only behind an open one; only a sent turn replaces an open one |
| AcpTurns.SentTurnHasOneFate | crates/agent/src/acp_session.rs:1037-1073 | a sent turn starts exactly once and is either open, completed once or replaced once, never two of these |
| AcpTurns.StartsAreAccountedFor | crates/agent/src/acp_session.rs:1819-1835 | for any turn id, starts equal completions plus replacements plus the one still open |
| AcpTurns.OnlyLatestSentIsOpen | crates/agent/src/acp_session.rs:1037-1073 | an open sent turn is always the latest one sent |
| AcpTurns.ResultSettlesTurn | crates/agent/src/acp_session.rs:1229-1246 | after its prompt result a sent turn is over: completed exactly once, or replaced earlier and never completed |
| AcpTurns.CompletionOpensParked | crates/agent/src/acp_session.rs:1819-1835 | a completion adds exactly one completion to any log and starts the parked turn exactly once |
| AcpTurns.ParkedOpensAtNextCompletion | crates/agent/src/acp_session.rs:1791-1835 | over any further run that neither ends nor replaces a parked turn, it stays parked until the next completion of any turn, starts exactly once with it and never again |
| AcpTurns.OpenIffLatestUncompleted | crates/agent/src/acp_session.rs:1037-1073 | a sent turn is open if and only if it is the latest sent and has not completed |
| AcpTurns.EveryOutcomeIsGiven | crates/agent/src/acp_session.rs:1807-1835 | in every run each completion carries the status and usage that some result or end gave that turn, right behind its message if it has one |
| AcpSession.State.BeginAgentTurn | crates/agent/src/acp_session.rs:1791-1800 | opens a turn, or parks it behind the open one without an event |
| AcpSession.State.CompleteTurn | crates/agent/src/acp_session.rs:1819-1835 | flushes text, reports an error, completes, then starts the parked turn; the whole new state |
| AcpSession.State.EndTurn | crates/agent/src/acp_session.rs:1807-1815 | drops the turn from the parking place; completes it only when it is the open one, else just flushes |
| AcpSession.State.HandleSendTurn | crates/agent/src/acp_session.rs:1037-1073 | numbers the turn, opens it over whatever is open and leaves text and parked turn alone |
| AcpSession.State.HandlePromptResult | crates/agent/src/acp_session.rs:1229-1246 | completes the turn only if it is still the open one |
| AcpSession.State.FlushText | crates/agent/src/acp_session.rs:1868-1887 | the open text item is closed; a completion is emitted unless it is empty |
| AcpSession.State.PushText | crates/agent/src/acp_session.rs:1890-1914 | extends the open item of the same kind, else flushes and opens the next number |
| AcpSession.State.ApplyChunk | crates/agent/src/acp_session.rs:1923-1936 | empty chunks change nothing, others are pushed |
| AcpSession.State.ApplyToolCall | crates/agent/src/acp_session.rs:1937-1961 | replaces the whole card, starting it or updating it |
| AcpSession.State.ApplyToolPatch | crates/agent/src/acp_session.rs:1962-2001 | merges a patch, then starts, updates or completes the card |
| AcpSession.State.NotePermission | crates/agent/src/acp_session.rs:2476-2494 | merges title, kind and input silently and does not count as an announcement |
| AcpText.EveryRunIsAccepted | crates/agent/src/acp_session.rs:1868-1914 | every run's log passes an observer that demands fresh increasing numbers, at most one open item, completion with exactly the streamed text, and none open at a turn's completion |
| AcpText.AcceptedIsFaithful | crates/agent/src/acp_session.rs:1868-1914 | an observer-accepted log completes each streamed item at most once, with the concatenation of its deltas; only the open one is uncompleted |
| AcpText.StreamedTextIsFaithful | crates/agent/src/acp_session.rs:1890-1914 | in every run an item that streamed text is the open one holding all its deltas, or was completed exactly once with their concatenation |
| AcpText.NoTextOpenAtCompletion | crates/agent/src/acp_session.rs:1819-1830 | when a turn completes, every item that ever streamed was already completed with its whole text |
| AcpText.EveryChunkIsStreamed | crates/agent/src/acp_session.rs:1923-1936 | in every run the deltas are, in order, kind and text, exactly the chunks that arrived and were not empty |
| AcpText.SameKindContinues | crates/agent/src/acp_session.rs:1890-1914 | chunks of one kind go to one item, with their texts in order, as long as nothing else is shown in between |
| AcpTools.CardIsMerge | crates/agent/src/acp_session.rs:1937-2001 | the known card equals, field by field, the latest value written by any call, update or permission request since the last whole call |
| AcpTools.CardEventsAreExpected | crates/agent/src/acp_session.rs:1937-2001 | the events of a card are exactly one per call or update, each carrying the merge up to then, of the kind its status asks for |
| AcpTools.CardStartsOnce | crates/agent/src/acp_session.rs:2476-2494 | each card gets exactly one start, as its first event, even when a permission request came before it |
| Grok.Dialect.OnQueueChanged | crates/agent/src/grok.rs:236-263 | tells client prompts from Grok's own and begins an agent turn for the latter; session and activity as one decision |
| Grok.Dialect.OnTurnCompleted | crates/agent/src/grok.rs:268-287 | ends the agent's turn, or the sent turn that is open, or nothing |
| Grok.Dialect.OnBackgroundTasks | crates/agent/src/grok.rs:344-360 | publishes the count, or withholds a zero under an open sent turn that had tasks |
| Grok.Dialect.OnNotification | crates/agent/src/grok.rs:702-727 | handles one notification, then releases a withheld zero if no sent turn is open |
| Grok.RunsAreLegal | crates/agent/src/grok.rs:236-287 | whatever Grok signals, it performs only session operations the turn theorems cover |
| Grok.GrokTurnsAreSafe | crates/agent/src/grok.rs:236-287 | in every Grok run completions are current, no sent turn completes twice and no parked turn is stranded |
| Grok.PublishedCountIsTracked | crates/agent/src/grok.rs:344-360 | in every reachable state the published count is the tracked one, or nothing is tracked and the published one is still positive |
| Grok.WithheldZeroIsReleased | crates/agent/src/grok.rs:721-725 | without further reports a withheld zero is published once, by the first notification that leaves no sent turn open, and no count before it |
| Grok.ZeroUnderSentTurn | crates/agent/src/grok.rs:344-360 | a report of no tasks publishes its zero under an open sent turn if and only if nothing was tracked before |
| Grok.RepeatedReportIsEarly | crates/agent/src/grok.rs:344-360 | a second empty report publishes the withheld zero while the sent turn is open |
| Grok.SentTurnWithTask | crates/agent/src/grok.rs:344-360 | the state in which that happens is reached by a send and one report |
| Grok.SentTurnTestIsExact | crates/agent/src/grok.rs:141-143 | in every run in which Grok starts no prompt of its own over an open turn of its own, the test holds exactly when the open turn is one the client sent |
| Grok.OverlapFoolsTheTest | crates/agent/src/grok.rs:236-263 | in any state where the test is exact, a prompt of its own over an open turn of its own makes it wrong |
| Grok.TestLostIffOverlap | crates/agent/src/grok.rs:141-143 | the first signal of a run after which the test is wrong is the first one that starts such a prompt, and every such one is |
| Grok.TwoPromptsOverlap | crates/agent/src/grok.rs:236-263 | two prompts in a row from the start of a session are enough |
| Grok.ClientEndCompletesOwnTurn | crates/agent/src/grok.rs:265-287 | over every run the end of a client's prompt completes sent turn n if and only if nothing was sent after n and n has not completed, and no other sent turn |
| Grok.SecondSendIsCompleted | crates/agent/src/grok.rs:265-287 | a turn sent while the first prompt runs is the one that prompt completes |
| Grok.WaitingPromptIsClients | crates/agent/src/grok.rs:236-263 | a prompt that was listed in the queue at any time and has not run since is the client's when it runs, and opens no turn |
| Grok.UnlistedPromptIsOwn | crates/agent/src/grok.rs:236-263 | a prompt that no notification ever listed is Grok's own and begins a turn of its id |
| Grok.OwnEndCompletesItsTurn | crates/agent/src/grok.rs:268-287 | the end of Grok's own prompt ends the turn of that id and forgets the prompt |
| Grok.EndedIsForgotten | crates/agent/src/grok.rs:268-287 | a prompt that ended is no running prompt any more, and the queue stays |
| Grok.GrokResultSettles | crates/agent/src/acp_session.rs:1229-1246 | in a Grok run too, the result of a sent turn leaves it completed once or replaced |
| Grok.BackgroundedKeepsStatus | crates/agent/src/grok.rs:548-584 | later output of a command that went on in the background changes its card as it says, but never its status |
| Grok.BackgroundedIsRemembered | crates/agent/src/grok.rs:702-727 | whatever follows, a command reported as gone to the background stays known as such |
| Grok.UpdateIsTaken | crates/agent/src/grok.rs:548-584 | any other live update is taken as it is |
| Grok.ReplayedIsSilent | crates/agent/src/grok.rs:548-584 | a replayed update changes and shows nothing |
| PromptAck.ObservedWriter.FinishCurrentLine | crates/agent/src/acp_session.rs:1323-1340 | a finished prompt line acknowledges the oldest waiting id, if any; every line is forgotten |
| PromptAck.ObservedWriter.PollWrite | crates/agent/src/acp_session.rs:1341-1359 | looks at exactly the bytes the inner writer took and passes its answer on |
| PromptAck.Deliveries.PushBack | crates/agent/src/acp_session.rs:1052-1055 | a sent turn's id joins the queue shared with the writer at its end |
| PromptAck.OnlyTheStreamMatters | crates/agent/src/acp_session.rs:1341-1359 | however writes are cut, refused or partial, the state is that of the accepted bytes one by one |
| PromptAck.IdsAreConserved | crates/agent/src/acp_session.rs:1323-1340 | at all times acknowledged ids followed by waiting ids are the ids sent, in order |
| PromptAck.EveryLineAckedIffInTime | crates/agent/src/acp_session.rs:1323-1340 | every prompt line was acknowledged if and only if each id was queued before its line was finished |
| PromptAck.LineAcksItsTurn | crates/agent/src/acp_session.rs:1323-1359 | when ids are queued in time, n prompt lines have acknowledged exactly the first n ids |
| TerminalBuffer.Terminal.AppendBytes | crates/agent/src/acp_session.rs:2732-2745 | appends decoded text, drains from the front to a character boundary and remembers truncation |
| TerminalBuffer.NextBoundary | crates/agent/src/acp_session.rs:2732-2745 | the boundary search ends inside the buffer at the first boundary at or after the cut |
| TerminalBuffer.EncodeIsChar | crates/agent/src/acp_session.rs:2732-2745 | a scalar's UTF-8 encoding (section 3 of RFC 3629) is one lead byte followed by continuation bytes only |
| TerminalBuffer.EncodedIsRead | crates/agent/src/acp_session.rs:2732-2745 | reading a scalar's bytes by the lead byte's length gives the scalar back, in the fewest bytes (section 3 of RFC 3629) |
| TerminalBuffer.CutIsLongestSuffix | crates/agent/src/acp_session.rs:2732-2745 | the byte-level cut leaves exactly the longest suffix of whole characters that fits |
| TerminalBuffer.LongestSuffixIsLongest | crates/agent/src/acp_session.rs:2732-2745 | the reference suffix is a suffix and one more character would not fit |
| TerminalBuffer.SuffixOfSuffix | crates/agent/src/acp_session.rs:2732-2745 | truncating first and appending later loses nothing that a single truncation would keep |
| TerminalBuffer.OutputIsLongestSuffix | crates/agent/src/acp_session.rs:2732-2745 | after any appends the output is the longest fitting suffix of everything appended and the flag says whether more than fits was appended |
| TerminalBuffer.ChunksDoNotMatter | crates/agent/src/acp_session.rs:2732-2745 | two ways of cutting the same text leave the same buffer |
| UnifiedDiff.WriteUnifiedDiff | crates/agent/src/acp_session.rs:2278-2331 | the text written is the file header, the counts and the hunk of the two files' lines |
| UnifiedDiff.HunkHasBothSides | crates/agent/src/acp_session.rs:2281-2331 | without '+' lines the hunk is the old file, without '-' lines the new one; kept lines are the trimmed prefix and suffix |
| UnifiedDiff.TrimIsOptimal | crates/agent/src/acp_session.rs:2281-2331 | no single contiguous replacement turning old into new keeps more lines |
| UnifiedDiff.HunkIsPatch | crates/agent/src/acp_session.rs:2281-2331 | applied to the old file the hunk gives the new one, reversed it gives the old one back |
| UnifiedDiff.DiffTextReadsBack | crates/agent/src/acp_session.rs:2281-2331 | parsing the body text restores the hunk, and the header's counts are those of its two sides |
| UnifiedDiff.HeaderReadsBack | crates/agent/src/acp_session.rs:2281-2305 | the header parses into three lines that name the file on each side unless that side is empty, and give each range as 1 or 0 and its line count |
| DiffSplitter.SplitSections | crates/agent/src/lib.rs:2217-2300 | the accumulating loop yields the sections of the diff's lines, each line newline-terminated |
| DiffSplitter.ScanPaths | crates/agent/src/lib.rs:2217-2300 | a side's path is its last rename line, else its last file line, wherever they stand |
| DiffSplitter.FileChangesFromUnifiedDiff | crates/agent/src/lib.rs:2217-2300 | the whole splitter: empty for a blank diff, an error without sections or at the first unreadable one, else one change a section |
| DiffSplitter.SectionsConserve | crates/agent/src/lib.rs:2217-2300 | sections start with a header and hold no other, concatenate to all lines from the first header on, and number as many as there are headers |
| DiffSplitter.SectionsUnique | crates/agent/src/lib.rs:2217-2300 | those conditions leave only one way to cut |
| DiffSplitter.SplitConserves | crates/agent/src/lib.rs:2217-2300 | on success one change per header, diffs joining to every line from the first header on; a non-blank diff without a header is always an error; failure if and only if some section cannot be read |
| DiffSplitter.SectionIsReported | crates/agent/src/lib.rs:2246-2297 | with each side named by its last rename line, else its first file line, else the header: created and modified files are reported at the new side, deleted ones at the old, others as renames to the new; an unknown new side gives way to the old |
| DiffSplitter.HeaderlessFails | crates/agent/src/lib.rs:2259-2264 | a section that leaves a side to a header it does not have is an error |
| DiffSplitter.RenameIsReported | crates/agent/src/lib.rs:2246-2297 | `rename from A` and `rename to B` report B as Rename |
| DiffSplitter.ModificationIsReported | crates/agent/src/lib.rs:2246-2297 | `--- a/P` and `+++ b/P` report P as Modify |
| DiffSplitter.CreationIsReported | crates/agent/src/lib.rs:2246-2297 | `--- /dev/null` and `+++ b/P` report P as Create |
| DiffSplitter.DeletionIsReported | crates/agent/src/lib.rs:2246-2297 | `--- a/P` and `+++ /dev/null` report P as Delete |
| DiffSplitter.HeaderPathRecovered | crates/agent/src/lib.rs:2259-2296 | a section whose body names no side reports the path of its header if and only if that is not empty, does not contain the separator, and does not end in a carriage return unless the file is marked deleted |
| DiffSplitter.HeaderPathsLost | crates/agent/src/lib.rs:2259-2296 | a path ending in a carriage return and one containing the separator are reported as other files, as renames |
| DiffSplitter.HunksKeepKind | crates/agent/src/lib.rs:2271-2285 | hunk lines leave the kind alone if and only if none reads `--- /dev/null` while it is not Create, or `+++ /dev/null` while it is neither Create nor Delete |
| DiffSplitter.HunksKeepSides | crates/agent/src/lib.rs:2246-2258 | hunk lines never change a side that the lines before them name |
| DiffSplitter.SectionKeepsKind | crates/agent/src/lib.rs:2246-2297 | the same condition for the kind a whole section is given when its head names both sides |
| DiffSplitter.RemovedLineCreates | crates/agent/src/lib.rs:2271-2285 | a modified file that loses the line `-- /dev/null` is taken for a created one |
| Transcript.TranscriptMapper.MapValue | crates/agent/src/subagent_tail.rs:46-58 | dispatches a record and notes the model it names; the whole new state and events |
| Transcript.TranscriptMapper.MapAssistant | crates/agent/src/subagent_tail.rs:60-148 | numbers and maps every block in order and remembers opened tools |
| Transcript.TranscriptMapper.MapUser | crates/agent/src/subagent_tail.rs:150-255 | completes known tools by their results, numbers user messages, skips noise and background launches |
| Transcript.TranscriptMapper.TakeModel | crates/agent/src/subagent_tail.rs:301-303 | hands out the noted model once and changes nothing else |
| Transcript.TranscriptIsOrderly | crates/agent/src/subagent_tail.rs:60-255 | any transcript maps to starts and completions of the parent's children, never updates, and each tool or nested completion answers an earlier start of the same name and input |
| Transcript.EveryEventIsTold | crates/agent/src/subagent_tail.rs:60-272 | every event of a transcript shows one of its blocks: a text or thought under its message and number, a call by name and input, a result with its output and whether it failed |
| Transcript.OpenCallIsAnswered | crates/agent/src/subagent_tail.rs:150-255 | a result of an open call closes it and is shown with its output and outcome, unless it only tells of a background launch |
| Transcript.UserTextIsShown | crates/agent/src/subagent_tail.rs:150-255 | a user text is shown under the next number unless it is command noise |
| LineReaders.TailReader.ReadAppended | crates/agent/src/subagent_tail.rs:305-330 | one read maps exactly the new finished lines and stops before the unfinished one; a shorter file restarts from 0 |
| LineReaders.ReadsAreOnePass | crates/agent/src/subagent_tail.rs:301-330 | any reads of a growing file, with the model taken in between or not, give the events and mapper state of one pass over the final file's finished lines, and no model seen is lost; the offset is 0 or just past a newline |
| ByteLines.CompleteAppend | crates/agent/src/subagent_tail.rs:305-330 | finished lines of a longer file are those of its prefix plus those of the unfinished rest with the new bytes |
| LineReaders.GoalTranscript.ReadAppended | crates/agent/src/claude_goal.rs:51-105 | folds exactly the new finished lines, as history only on a resumed session's first read, and answers the goal if it changed |
| LineReaders.GoalTranscript.Dismiss | crates/agent/src/claude_goal.rs:45-47 | forgets the goal |
| LineReaders.GoalTranscript.ClearGoal | crates/agent/src/claude.rs:972-988 | a goal that is met or impossible is dismissed, any other one left alone |
| LineReaders.GoalReadsAreTwoPasses | crates/agent/src/claude_goal.rs:45-171 | with the user clearing goals between the reads, the goal is one historical pass over the first read's lines and one live pass over the rest, or one live pass over what follows the last goal cleared; the reported changes add up to it |
| LineReaders.FreshGoalReadsAreOnePass | crates/agent/src/claude_goal.rs:25-72 | a session that was not resumed sees one live pass over the final file, or over what follows the last goal cleared |
| LineReaders.PassTells | crates/agent/src/claude_goal.rs:111-171 | a pass over any lines leaves the goal its last record tells: none for a met sentinel or an end read as history, Complete, Blocked or Active otherwise, with objective, reason, tokens, seconds and iterations of that record, and the number of unmet checks of its objective at the end |
| LineReaders.GoalIsTold | crates/agent/src/claude_goal.rs:45-171 | over every run of reads and clearings the goal is what the records since the last clearing, or since the first read, tell |
| ChildDedupe.AcceptedIsWellShaped | crates/agent/src/claude.rs:2131-2150 | for any interleaving of feeds an item's accepted events are Started? Updated* Completed? without two equal updates in a row |
| ChildDedupe.ItemsAreIndependent | crates/agent/src/claude.rs:2131-2150 | what is accepted of an item depends on its own events only |
| ChildDedupe.TwoCopiesAreOne | crates/agent/src/claude.rs:2131-2150 | any shuffle of a feed with a copy or a prefix of it is accepted, for an item whose updates before its first completion carry one content, exactly as the feed alone |
| ChildDedupe.BothFeedsAreOne | crates/agent/src/claude.rs:2096-2150 | the same for a transcript's mapped events on both feeds, one possibly cut short |
| ChildUpdates.ConfluentIffOneContent | crates/agent/src/claude.rs:2131-2150 | every shuffle of two copies of a feed is accepted, for one item, as one copy if and only if the item's updates before its first completion carry one content |
| ChildBlocks.CompletionsSurviveIffDistinct | crates/agent/src/claude.rs:2131-2150 | of any events, every completion is accepted if and only if no item is completed twice |
| ChildBlocks.BlocksSurviveIffNumberedApart | crates/agent/src/subagent_tail.rs:60-148 | of any assistant records of a child, every shown block is accepted if and only if no two share their message and their number within their record |
| ChildBlocks.SplitChildMessageKeepsFirst | crates/agent/src/subagent_tail.rs:60-148 | a child message whose second block is shown keeps both blocks on one record, and on two records if and only if its first block is not shown |
| SubagentGate.MapperState.AdvanceChildItem | crates/agent/src/claude.rs:2131-2150 | accepts a stage that is news and records it |
| SubagentGate.MapperState.FoldChildEvents | crates/agent/src/claude.rs:2096-2128 | folds a feed's events one by one: dedupe, remember nested spawns, gate their completions |
| SubagentGate.MapperState.GateSubagentTerminal | crates/agent/src/claude.rs:2080-2090 | holds a terminal snapshot of a tailed subagent, replacing an earlier one, else emits it |
| SubagentGate.MapperState.UpdateSubagent | crates/agent/src/claude.rs:2039-2078 | updates the known snapshot and emits it, gated if terminal |
| SubagentGate.MapperState.NoteSubagentModel | crates/agent/src/claude.rs:2179-2206 | fills in model and effort and re-emits only if either changed |
| SubagentGate.MapperState.OnToolUse | crates/agent/src/claude.rs:2536-2615 | a tool use starts its item and remembers what its result refers to |
| SubagentGate.MapperState.OnUser | crates/agent/src/claude.rs:2617-2780 | every tool result in turn: background launches keep the item, other results remove and complete it, subagents through the gate |
| SubagentGate.MapperState.OnTaskStarted | crates/agent/src/claude.rs:1888-1913 | ties a task to its spawn and marks it tailed together with the request to start the tail |
| SubagentGate.MapperState.OnTaskUpdated | crates/agent/src/claude.rs:1940-1957 | updates a known task's subagent; a terminal status asks the tail to stop |
| SubagentGate.MapperState.OnTaskNotification | crates/agent/src/claude.rs:1959-2007 | asks the tail to stop, then settles the background command or the subagent |
| SubagentGate.MapperState.CompleteBackgroundCommand | crates/agent/src/claude.rs:2009-2037 | completes a background command once, showing the summary when its output is blank |
| SubagentGate.MapperState.OnTailNotice | crates/agent/src/claude.rs:2155-2166 | model, then child items, then, if stopped, the held snapshot; nothing stays held or tailed |
| SubagentGate.MapperState.TakePendingSubagentTerminals | crates/agent/src/claude.rs:2170-2175 | teardown emits each held snapshot once, in whatever order the map gives, and holds and tails nothing any more |
| SubagentGate.ResultsAreShown | crates/agent/src/claude.rs:2617-2780 | each card event of a message of results shows one of its blocks: output, outcome, and exit code 1 or 0 unless the command runs on |
| TailProtocol.RunsKeepInv | crates/agent/src/claude.rs:566-816 | in every run of actor, tails and channel, only tailed subagents are held and each tailed one has exactly one acknowledgement to come |
| TailProtocol.StepKeepsInv | crates/agent/src/claude.rs:777-894 | a stdout line, a received notice, one poll of a tail and teardown each keep that invariant |
| TailProtocol.NothingTerminalWhileTailed | crates/agent/src/claude.rs:2080-2166 | no terminal snapshot of a tailed subagent is emitted except by its stopped notice, there as the last event, and then it is no longer tailed |
| TailProtocol.StoppedNoticeReleasesLatest | crates/agent/src/claude.rs:2155-2166 | a stopped notice emits its child items first and the latest held snapshot last, and nothing stays held |
| TailProtocol.HeldUntilReleased | crates/agent/src/claude.rs:635-661 | over any moves between being held and released, none of the subagent's terminal snapshots is emitted and the latest one is what is held |
| TailProtocol.HeldIsReleasedOnce | crates/agent/src/claude.rs:2155-2166 | over any moves from being held up to and including the stopped notice, exactly one terminal snapshot of the subagent is emitted: the latest one gated, as the last event |
| TailProtocol.TeardownReleasesAll | crates/agent/src/claude.rs:721-729 | teardown emits one terminal snapshot for every held subagent and none else |
| TailProtocol.HeldIsReleasedAtTeardown | crates/agent/src/claude.rs:721-729 | over any moves from being held up to and including teardown, exactly one terminal snapshot of the subagent is emitted, the latest one gated |
| TerminalReports.HeldIsToldLast | crates/agent/src/claude.rs:2039-2090 | in every run a snapshot of a subagent is held if and only if a terminal status was told of it by a task message, result, nested completion or news of its model since its tail started, and it shows the status told last and the last summary given |
| TerminalReports.ReleasedIsToldLast | crates/agent/src/claude.rs:2155-2166 | the stopped notice emits one terminal snapshot with exactly that status and summary as its last event, or none if nothing was told |
| TerminalReports.TornDownIsToldLast | crates/agent/src/claude.rs:2170-2175 | teardown does so for every subagent |
| TerminalReports.NotificationIsHeld | crates/agent/src/claude.rs:1959-2007 | in any run, a notification with a summary for a tailed subagent is what is held right afterwards, whatever was held before |
| TerminalReports.UntailedIsShownAtOnce | crates/agent/src/claude.rs:2039-2090 | a report on a subagent without a tail is shown at once, with everything else known of it |
| TerminalReports.UntailedModelIsShownAtOnce | crates/agent/src/claude.rs:2179-2206 | a model or effort that is news is shown at once with everything else as it was; one that is not shows nothing |
| TerminalReports.UntailedResultIsShownAtOnce | crates/agent/src/claude.rs:2617-2780 | a result settles a subagent without a tail at once, its summary winning over the result's text |
| TerminalReports.UntailedChildIsShownAtOnce | crates/agent/src/claude.rs:2096-2128 | an accepted child event of an item without a tail is passed on unchanged |
| SubagentTasks.StartedTaskIsTailed | crates/agent/src/claude.rs:1888-1913 | a started task is tied to the first spawn it named, whose tail runs from then on unless the task is a shell command |
| SubagentTasks.TerminalUpdateAsksStop | crates/agent/src/claude.rs:1940-1957 | a terminal update asks exactly the task's tail to stop, any other update asks none |
| SubagentTasks.NotificationAsksStop | crates/agent/src/claude.rs:1959-2007 | a notification always asks the task's tail to stop, and no other |
| SubagentTasks.SpawnIsReadBack | crates/agent/src/claude.rs:1606-1650 | a spawn read back ties its task and becomes known, unless the task already has a known subagent or the id an item |
| SubagentTasks.LaunchTiesAgent | crates/agent/src/claude.rs:2617-2780 | a background launch ties the agent id to the spawn, which stays known and in progress |
| SubagentTasks.UseIsShown | crates/agent/src/claude.rs:2536-2615 | a tool use is remembered and shown started, without any outcome |
| SubagentTasks.BackgroundCommandEnds | crates/agent/src/claude.rs:2009-2037 | a background command is shown running with its output and completed by its notification with that output, or the summary if it was blank, and exit code 0 exactly if it completed |
| TailProtocol.TranscriptFeedsAreOk | crates/agent/src/subagent_tail.rs:257-330 | a transcript's mapped events, cut into batches anywhere, meet the condition the protocol puts on feeds |
| RequestUsage.UsageMapper.ObserveRequestUsage | crates/agent/src/claude.rs:2289-2350 | merges an observation into the request in progress, starts a new one or ignores it, and answers the usage to report |
| RequestUsage.UsageMapper.StartTurn | crates/agent/src/claude.rs:1448-1464 | a new turn closes the request and turns current usage into last known |
| RequestUsage.UsageMapper.OnCompacting | crates/agent/src/claude.rs:1765-1796 | while compacting the shown usage is marked so and stays |
| RequestUsage.UsageMapper.OnCompactBoundary | crates/agent/src/claude.rs:1765-1796 | after compaction nothing is known until the next observation |
| RequestUsage.UsageMapper.OnResult | crates/agent/src/claude.rs:3033-3079 | a result changes only the window, and only if it names one |
| RequestUsage.RequestIsInProgress | crates/agent/src/claude.rs:2289-2350 | over whole runs the tracked message is the last one first seen since the last turn start or compaction, and its counts summarise exactly its reports |
| RequestUsage.CurrentIsTheRequest | crates/agent/src/claude.rs:2289-2350 | current freshness implies a request in progress whose last reported input, cache-read and cache-creation sum, saturating, to the used tokens |
| RequestUsage.ObservationIsCurrent | crates/agent/src/claude.rs:2289-2350 | an observation of the request in progress makes the usage current exactly once its input was reported |
| RequestUsage.FreshnessFollows | crates/agent/src/claude.rs:1448-1464 | what turns, compactions and results do to the freshness and to the shown counts |
| RequestUsage.WindowIsLastNamed | crates/agent/src/claude.rs:3033-3079 | the window shown is the last one a result named |
| RequestUsage.OutputNeverDecreases | crates/agent/src/claude.rs:2289-2350 | within a request output tokens never decrease |
| RequestUsage.SupersededChangesNothing | crates/agent/src/claude.rs:2289-2350 | an observation for a superseded message changes nothing at all |
| RequestUsage.NeverResumed | crates/agent/src/claude.rs:2289-2350 | a superseded message stays superseded whatever follows |
| ClaudeBackground.BackgroundMapper.OnBackgroundTasksChanged | crates/agent/src/claude.rs:1915-1938 | replaces the tracked tasks and publishes their number, unless the last one just went |
| ClaudeBackground.BackgroundMapper.OnResult | crates/agent/src/claude.rs:3015-3126 | every result but a repeated one publishes the tracked number |
| ClaudeBackground.PublishedIsTracked | crates/agent/src/claude.rs:1915-1938 | in every reachable state the published count is the tracked one, or none is tracked and the published one is positive |
| ClaudeBackground.TrackedIsLastReport | crates/agent/src/claude.rs:1915-1938 | in every run the tracked tasks are exactly those of the last report, each once |
| ClaudeBackground.ResultRestores | crates/agent/src/claude.rs:3015-3126 | a result that is no duplicate restores equality and keeps what is tracked; a duplicate changes nothing |
| ClaudeBackground.OffIffWithheld | crates/agent/src/claude.rs:1915-1938 | in every run the published count is off if and only if the last report drained the tasks and only duplicates followed |
| ClaudeBackground.WithheldZeroAppears | crates/agent/src/claude.rs:1915-1938 | after the draining report the zero appears with the first new result or second empty report, and with nothing else |
| BlockNumbers.BlockCounter.OnAssistant | crates/agent/src/claude.rs:2434-2512 | the line's blocks continue their message's numbering; a line outside any turn opens one first |
| BlockNumbers.BlockCounter.StartTurn | crates/agent/src/claude.rs:1448-1464 | a turn begins and the streaming message is forgotten |
| BlockNumbers.BlockCounter.SynthesizedTurnStarted | crates/agent/src/claude.rs:1744-1752 | what streams outside any turn of a known session begins one |
| BlockNumbers.BlockCounter.OnMessageStart | crates/agent/src/claude.rs:2211-2224 | the message that starts is the streaming one |
| BlockNumbers.BlockCounter.OnDelta | crates/agent/src/claude.rs:2230-2272 | a delta is numbered under the streaming message, or under the nameless one |
| BlockNumbers.BlockCounter.OnCompactBoundary | crates/agent/src/claude.rs:1765-1769 | a compaction forgets the streaming message |
| BlockNumbers.BlockCounter.OnResult | crates/agent/src/claude.rs:3023-3028 | a result closes the turn and drops the counters, and keeps the streaming message |
| BlockNumbers.SplittingDoesNotMatter | crates/agent/src/claude.rs:2434-2512 | however a turn's messages are split over lines and interleaved, block k of message m gets the id m:k |
| BlockNumbers.LineContinues | crates/agent/src/claude.rs:2434-2512 | in every run a line's blocks get the ids that follow their message's blocks since the last result |
| BlockNumbers.DeltaIdIffUndisturbed | crates/agent/src/claude.rs:2352-2357 | in every run the delta of block k of message m gets the id m:k if and only if no turn began and no compaction ended since m started |
| BlockNumbers.DeltaIdInSession | crates/agent/src/claude.rs:1744-1752 | in a session that has begun, that is if and only if no turn start, compaction or result lies in between |
| BlockNumbers.ClearedGoalSplitsBlock | crates/agent/src/claude.rs:898-988 | clearing the goal while a message streams sends its later deltas to another item |
| BlockNumbers.CompletionsMatchDeltas | crates/agent/src/claude.rs:2352-2357 | over any runs, a completed block of a message has the id of a streamed delta of it if and only if the numbers are equal and no turn began and no compaction ended between the message's start and the delta |
| BlockNumbers.BlockIdInjective | crates/agent/src/claude.rs:2352-2357 | equal block ids mean equal message and number, even if message ids contain colons |
| ContextWindow.ParseTokens | crates/agent/src/context_window.rs:17-38 | never answers fewer than the minimum |
| ContextWindow.WrittenIsRead | crates/agent/src/context_window.rs:17-38 | whitespace, an optional plus, digits and an optional unit letter read as their meaning, with the overflow and minimum checks |
| ContextWindow.ReadIsWritten | crates/agent/src/context_window.rs:17-38 | every text that is read as tokens is written that way |
| ContextWindow.LargestIsGreatest | crates/agent/src/context_window.rs:74-83 | the largest preset is the greatest window that any preset names |
| ContextWindow.ParseOfFormat | crates/agent/src/context_window.rs:17-47 | for every u64, parsing the printed window in either case gives it rounded down to a thousand, or nothing below the minimum |
| ContextWindow.FixedSelectorResolves | crates/agent/src/claude_manifest.rs:333-351 | a fixed window's generated selector resolves to it if and only if it is a whole thousand of at least the minimum |
| LaunchWindow.LaunchRealisesWindow | crates/agent/src/claude.rs:499-515 | any window up to the largest launches so that what the slug opens, capped by the early compaction, is that window |
| LaunchWindow.WindowsRealisedIffCovered | crates/agent/src/claude_manifest.rs:222-258 | all windows are realised if and only if every option above the default has a suffix no smaller option shares |
| LaunchWindow.UnreachableIsNotRealised | crates/agent/src/claude_manifest.rs:241-258 | an option without such a suffix is itself a window that is not realised |
| LaunchWindow.SessionRunsAtSelection | crates/agent/src/claude_manifest.rs:486-497 | a covered model's session runs at the window its selection names, by a text of the grammar or a number of at least the minimum |
| LaunchWindow.SessionRunsAtDefault | crates/agent/src/claude_manifest.rs:486-497 | without a selection that names a window it runs at the model's default |
| LaunchWindow.DefaultlessRuns | crates/agent/src/claude_manifest.rs:486-497 | a model without a known default runs at the window named, or at 200000, if the options from there on are reachable |
| LaunchWindow.CompactsEarlyIffSmaller | crates/agent/src/claude.rs:512-515 | an early compaction is asked for exactly below the largest window |
| Manifest.ManifestState.LoadCache | crates/agent/src/claude_manifest.rs:593-611 | looks at the disk once and adopts a cache at least as new, with its fetch time |
| Manifest.ManifestState.BeginFetch | crates/agent/src/claude_manifest.rs:614-628 | grants and records an attempt outside both windows; a time in the future counts as expired |
| Manifest.ManifestState.Install | crates/agent/src/claude_manifest.rs:635-648 | an invalid body changes nothing, an older one only the fetch time, any other is adopted |
| Manifest.ManifestState.Fetch | crates/agent/src/claude_manifest.rs:651-684 | a reply, an unchanged reply from the remembered body, an oversized or failed one: state and answer |
| Manifest.ManifestState.Refresh | crates/agent/src/claude_manifest.rs:690-729 | one round: cache, grant, all sources in turn, and what is written back |
| Manifest.NewestWins | crates/agent/src/claude_manifest.rs:635-648 | after any installs the catalog in effect is the last of the newest candidates, invalid bodies being none |
| Manifest.DateIsMaximum | crates/agent/src/claude_manifest.rs:635-648 | the date in effect is the greatest of the initial and all valid bodies' dates |
| Manifest.OrderDoesNotMatter | crates/agent/src/claude_manifest.rs:635-648 | the same bodies, as a multiset, in any order and at any times leave the same date in effect |
| Manifest.SourcesInTurn | crates/agent/src/claude_manifest.rs:690-729 | a round ends with the manifest it adopted last in effect, and only a good reply moves the fetch time |
| Manifest.RoundCachesManifestInEffect | crates/agent/src/claude_manifest.rs:690-729 | what a round writes decodes to the catalog in effect, stamped with the round's time |
| Manifest.CacheIsAdoptedIfNew | crates/agent/src/claude_manifest.rs:593-611 | opening the cache adopts its manifest with its time exactly if it is the first look, valid and at least as new |
| Manifest.DateNeverGoesBack | crates/agent/src/claude_manifest.rs:690-729 | over any rounds the manifest in effect never goes back in date |
| Manifest.RememberedIsLastTagged | crates/agent/src/claude_manifest.rs:651-684 | what is remembered of a source is the last valid manifest it sent in full, if that came with an etag |
| Manifest.UnchangedIsSentAgain | crates/agent/src/claude_manifest.rs:651-684 | an unchanged reply does what sending that manifest again would, and is an error without one |
| Manifest.GrantsAreApart | crates/agent/src/claude_manifest.rs:614-628 | under a monotone clock granted fetches are at least RETRY_MS apart, whatever caches were loaded |
| Manifest.StaleIsFetched | crates/agent/src/claude_manifest.rs:614-628 | with the network on a fetch is granted if and only if the last grant and the fetch time in effect are RETRY_MS and TTL_MS ago, absent, or ahead of the clock |
| Manifest.GrantsAwaitStaleness | crates/agent/src/claude_manifest.rs:593-628 | under a monotone clock and without a harmful late cache a fetch is granted at least TTL_MS after the last good one |
| Manifest.PaceLostIffHarmful | crates/agent/src/claude_manifest.rs:593-611 | opening the cache in any such run keeps that spacing if and only if the cache's own time lies between the last good fetch and the end of the retry gap, or that gap already outlasts TTL_MS |
| Manifest.HarmfulCacheArrives | crates/agent/src/claude_manifest.rs:593-628 | two rounds after which a fetch is granted five minutes after a good one |
| Manifest.CacheFirstIsHarmless | crates/agent/src/claude_manifest.rs:690-729 | a run whose first round has a cache directory never meets a harmful cache |

## Left out

- JSON decoding: records, prompts and manifests are decoded by a function that is a parameter, so the proofs hold for every decoder.
- Lossy UTF-8 decoding of a terminal chunk is a parameter as well; characters cut by a chunk are whatever that decoding makes of them.
- Processes, standard streams, timers, HTTP, the file system and transcript discovery: their effects arrive as arguments in any order.
- Read errors and invalid UTF-8 in the readers: reads succeed.
- LineReaders.ReadsAreOnePass: assumes that the file grows; a file that became shorter restarts the reader in the method.
- AcpSession.State.HandleSendTurn: sets the turn and emits its start in one step; the program sends the start after releasing the state's lock, so that another handler's events may come in between.
- ChildBlocks.BlocksSurviveIffNumberedApart: speaks of assistant records; with tool results and user texts in between, `ChildBlocks.CompletionsSurviveIffDistinct` is the statement.
- AcpTools.CardEventsAreExpected: a card carries its merged fields; rendering those fields and live terminal output into an item is not modelled.
- SubagentGate.MapperState.OnToolUse: the tool-name classification and the plan tools are decided before the call, and file changes are kept as a tool's name and input.
- Transcript.TranscriptMapper.MapUser: images of a tool result are not modelled.
- SubagentGate.MapperState.OnUser: structured patches of file changes, images in results and turn checkpoints are not modelled.
- RequestUsage.UsageMapper.OnResult: processed tokens, cost and duration of a result are not modelled; they do not reach the used tokens.
- Claude's mapper is one record in the program. Its usage, background, block and subagent fields, which no handler mixes, are separate classes here.
- A preferred transcript path changes only which file a tail reads, so the request is modelled without effect.
- That a stop is eventually requested, and that acknowledgements eventually arrive, is not claimed: the statements are about safety.
- Plans, usage and option updates of ACP sessions appear only as events that concern no turn, text or card.
- Approvals, user input, steering, goal polling, the ACP handshake, model selection and MCP registration: request plumbing.
- Which of a session's selections is the context window, effort, fast mode, thinking and alias lookup of a launch; capability and permission tables; Cursor's dialect, whose update mapping lives in a module of its own.
- Overflow of the goal's 32-bit check counter: the model's counter is unbounded.
