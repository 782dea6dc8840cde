# Verification of the app server's stateful cores

A Dafny model of the parts of the app server whose rules are decided by state, and proofs of
what those parts promise.

| file | what it models |
|---|---|
| `TranscriptModel`, `TranscriptIndex`, `TranscriptEntries`, `TranscriptPage`, `TranscriptWalk`, `TranscriptReader`, `TranscriptService`, `Base64` | The agent transcript pager: a cheap entry index, lazy materialization, a byte ceiling and opaque cursors, compared with the full-projection reference; and what each entry shows of the messages. |
| `SealedHistory` | A sealed prefix on disk followed by the live tail in memory: the generator and the reader agree. |
| `History`, `Projector`, `ProjectorCalls`, `ProjectorDurations`, `ProjectorSteps`, `ProjectorHistory`, `ProjectorFinish`, `ProjectorRuns`, `ProjectorCallbacks`, `EventProjector` | Public history entries, the patches on them, the event projector as a value and as an object, what each call does to the history and when it raises, and what holds over its runs. |
| `HistoryClient`, `StreamedText`, `Speech` | The client's reducer, the text chunks an ACP client is sent, and how both relate to the events. |
| `RootRecovery`, `RootRecoveryLaws`, `RootRecoveryRuns`, `RootRecoveryTakeover`, `RootRecoveryDecisions`, `RootRecoveryGate` | Automatic recovery of failed root turns: a state machine split at the awaits, its laws, its runs, what it decides call by call, and the gate object. |
| `Lineage`, `LineageMoves`, `LineageCounts` | Recurrence counts of the child recovery controller: their laws, exactly what migrates along predecessor chains, and the two dictionaries. |
| `SessionList`, `SessionRoots` | Session-list paging over changing sessions, and root resolution over any parent relation. |
| `FileRevisionRegistry` | The bounded registry of last-known file revisions. |
| `EventStream` | The watermark of the backend's event stream. |
| `Wrappers`, `Dicts` | Option and Result, decimal rendering, joined text, dictionaries with an order. |

How the source's terms appear here:

- A function the model does not look into (digests, presentation, JSON text, path spelling, which bytes are
  UTF-8, which text is a date) is a function-valued field of a `Rules` or `Formats` record, and every theorem
  holds for all of them. `Rules.CursorLaw` is the one assumption on them: the JSON library reads back the cursor
  object it wrote. Serialized text is a string of bytes, so its length is its size.
- A clock reading, a random draw, a fresh identifier, the live configuration, session view and availability are
  parameters. Times and durations are reals.
- A raised exception is a result: `failed` in a `State`, `ok` or an `Option` in a method.
- Runs are stated over a step function with a stated law, and then applied to the model's own step
  (`Projector.StepIsLawful`, `RootRecoveryRuns.TakeIsLawful`).
- `Projector.State.trace` holds every update the projector made; a `Silent` one is an addition whose update the
  source throws away.
- Recovery episodes are addressed by handle, so that two episodes with one id are two.

Three promises do not hold of the code in general. Each is stated with the condition under which it does:

- A client that replays the returned updates gets the projector's history exactly when no compaction end adds an
  entry of its own: `_project_compaction_completed` drops that addition (`HistoryClient.RunRebuilt`,
  `HistoryClient.UnstartedCompactionIsLost`).
- `finalize` raises exactly when the turn's duration is headed for a message that is not the assistant's, and leaves
  an effect running or a callback open exactly when it was completed that way before. Both take a streamed text whose
  new id is already in the history: the call raises, but files the id first. A later `finalize` then raises
  (`ProjectorFinish.FinalizeOutcome`, `ProjectorRuns.CollisionRaises`); or, after a tool call has completed the running
  effect under that id as if it were a text, returns with the effect completed and still running
  (`ProjectorFinish.FinalizeSettles`, `ProjectorRuns.CollisionLeavesRunning`). Without such a text, and with effects
  completed in settled states only, neither happens (`ProjectorRuns.FinishNeverRaises`).
- Paging the session list shows every session exactly when the last session of every page that has a successor has a
  cursor that decodes: no NUL in its two parts, valid text, a date, an id that is not empty. Behind a page that ends in
  another session nothing more is shown (`SessionList.PagingEnds`, `SessionList.FollowMissesIff`,
  `SessionList.UncleanBoundaryMisses`); where all sessions have such cursors nothing is missed, however the list changes
  (`SessionList.CleanIsComplete`).

Five more facts a maintainer may want to know:

- A completion that is delivered to the client again is drained if the effect succeeded, and refused if it failed, was
  cancelled or was skipped (`HistoryClient.RedeliveredCompletion`).
- An entry's cursor is short enough for a response exactly when the JSON text it encodes takes at most 3072 bytes
  (`TranscriptPage.CursorFits`).
- Answering a callback leaves the blocked effect as it was only if it had no output yet
  (`ProjectorCallbacks.AskAndAnswer`).
- A recurrence count that has moved to a package key stays there for good (`Lineage.MovedCountStays`).
- A walk through a transcript shows everything exactly when every entry fits on a page alone
  (`TranscriptWalk.WalkIsComplete`).

## Model

| member | source | states |
|---|---|---|
| `Base64.RoundTrip` | chartreux/app_server/_agent_transcript.py:1295-1311 | Any bytes survive URL-safe base64 with the padding stripped and restored from the length (sections 3.2 and 5 of RFC 4648). |
| `Base64.PadsFromLength` | chartreux/app_server/_agent_transcript.py:1302-1303 | The stripped length modulo four tells how much padding there was. |
| `Base64.EncodedSize` | chartreux/app_server/_agent_transcript.py:1295-1303 | Three bytes make four characters, and a rest of one or two one more. |
| `Base64.CursorIsUrlSafe` | chartreux/app_server/_agent_transcript.py:1295-1297 | A cursor is made of the URL-safe alphabet alone. |
| `TranscriptModel.BoundedIdentity` | chartreux/app_server/_agent_transcript.py:1288-1292 | No entry id is longer than 512 characters. |
| `TranscriptEntries.BoundedDistinct` | chartreux/app_server/_agent_transcript.py:1288-1292 | A short identity is kept as it is; two long ones are told apart as far as the digest tells their texts apart. |
| `TranscriptEntries.JoinLinesNext` | chartreux/app_server/_agent_transcript.py:1266-1275 | The parts of a text that count are joined by line breaks; the others leave no trace. |
| `TranscriptEntries.DumpKeeps` | chartreux/app_server/_agent_transcript.py:450-459 | The record of a live message reads as the message does, and different messages have different records. |
| `TranscriptIndex.CallsByIdLast` | chartreux/app_server/_agent_transcript.py:357-432 | The index leads each call id to the last call that carries it, and knows no other id. |
| `TranscriptIndex.ResultsByIdLast` | chartreux/app_server/_agent_transcript.py:357-432 | The index leads each call id to its last result message, and knows no other id. |
| `TranscriptIndex.CallLocations` | chartreux/app_server/_agent_transcript.py:482-535 | Every indexed call location lies inside the transcript. |
| `TranscriptIndex.CallsAgree` | chartreux/app_server/_agent_transcript.py:682-708 | The index and the reference pair the same calls with the same projections. |
| `TranscriptIndex.ResultsAgree` | chartreux/app_server/_agent_transcript.py:682-708 | The index and the reference pair the same result messages. |
| `TranscriptIndex.IndexFindsProjection` | chartreux/app_server/_agent_transcript.py:653-708 | Descriptor i materializes to entry i of the full projection, with the same id; descriptors are numbered in order. |
| `TranscriptEntries.PartsExact` | chartreux/app_server/_agent_transcript.py:653-680 | The parts that have an entry are the texts, reasoning, calls and results there are, each once: message by message, and in a message reasoning, then text, then the calls in order. |
| `TranscriptEntries.EntriesShow` | chartreux/app_server/_agent_transcript.py:653-800 | For every message list, entry n of the projection shows part n and is numbered n: a call with its projection and the last result of its id, pending exactly where there is none; a result with the projection of the last call of its id; each under its own identity. |
| `TranscriptEntries.ReferenceShows` | chartreux/app_server/_agent_transcript.py:590-602 | Whatever the cursor, what is answered shows consecutive parts. |
| `TranscriptPage.CursorRoundTrip` | chartreux/app_server/_agent_transcript.py:1295-1311 | A cursor gives back the id and digest it was made from. |
| `TranscriptPage.CursorFits` | chartreux/app_server/protocol/transcript.py:180-182 | A cursor keeps within the 4096 characters a response may carry exactly when its JSON text takes at most 3072 bytes. |
| `TranscriptPage.WireTextSize` | chartreux/app_server/_agent_transcript.py:1350-1361 | The serialized response is as long as its parts. |
| `TranscriptPage.SizeFormulaExact` | chartreux/app_server/_agent_transcript.py:1364-1387 | The incremental size formula is the exact length of the serialized response: null cursor replaced, commas counted, has_more flipped. |
| `TranscriptPage.TriedSizeIsPageSize` | chartreux/app_server/_agent_transcript.py:565-587 | At every step of the selection loop the size tried is the size of the page it would give. |
| `TranscriptPage.PageIsGreedy` | chartreux/app_server/_agent_transcript.py:1324-1347 | A page holds the newest entries, stopping only at the limit, at the oldest entry, or where one more would break the ceiling. |
| `TranscriptPage.PageWithinCeiling` | chartreux/app_server/_agent_transcript.py:1324-1347 | Every page, serialized, fits in 512 KiB. |
| `TranscriptPage.FirstWithId` | chartreux/app_server/_agent_transcript.py:1314-1321 | The boundary search stops at the first entry with the id. |
| `TranscriptPage.CursorFindsItsEntry` | chartreux/app_server/_agent_transcript.py:1314-1321 | A cursor leads back to its entry exactly when no earlier entry has the same id. |
| `TranscriptPage.ReadWithinCeiling` | chartreux/app_server/_agent_transcript.py:590-602 | Whatever the cursor, an available answer fits in 512 KiB. |
| `TranscriptWalk.CursorContinues` | chartreux/app_server/_agent_transcript.py:544-563 | With distinct ids, an entry's cursor asks for exactly the entries before it. |
| `TranscriptWalk.ChangedExactly` | chartreux/app_server/_agent_transcript.py:544-563 | A read is refused as changed exactly when its cursor does not decode, names no entry, or names one whose digest is another; otherwise the candidates are the entries before the one named. |
| `TranscriptWalk.CursorMovesBack` | chartreux/app_server/_agent_transcript.py:544-587 | Following the oldest cursor always leaves fewer entries, so a walk ends. |
| `TranscriptWalk.WalkIsComplete` | chartreux/app_server/_agent_transcript.py:544-587 | A walk from the newest page shows the entries once and in order back to the first that fits on no page; it shows all exactly when each entry fits alone. |
| `TranscriptWalk.HasMoreIsExact` | chartreux/app_server/_agent_transcript.py:1390-1401 | A page is the newest part of the entries before its cursor, and has_more is true exactly when older entries remain. |
| `TranscriptReader.DescribeSavedMessages` | chartreux/app_server/_agent_transcript.py:357-432 | One pass over saved records builds the index of the specification. |
| `TranscriptReader.DescribeLiveMessages` | chartreux/app_server/_agent_transcript.py:289-354 | One pass over live messages builds the index of their dumped records. |
| `TranscriptReader.EntryMaterializer.constructor` | chartreux/app_server/_agent_transcript.py:438-448 | A new materializer has dumped nothing. |
| `TranscriptReader.EntryMaterializer.MessageAt` | chartreux/app_server/_agent_transcript.py:450-459 | The record at an index, dumped once and kept; every other cached dump stays. |
| `TranscriptReader.EntryMaterializer.MaterializeCall` | chartreux/app_server/_agent_transcript.py:482-513 | A call descriptor yields the specified entry, with its last result. |
| `TranscriptReader.EntryMaterializer.MaterializeResult` | chartreux/app_server/_agent_transcript.py:515-534 | A result descriptor yields the specified entry, with the projection of its last call. |
| `TranscriptReader.EntryMaterializer.MaterializeEntry` | chartreux/app_server/_agent_transcript.py:461-480 | A descriptor yields the specified entry, whatever was cached before. |
| `TranscriptReader.FindDescriptor` | chartreux/app_server/_agent_transcript.py:544-558 | The descriptor search finds the first entry with the id, without projecting any. |
| `TranscriptReader.SelectEntries` | chartreux/app_server/_agent_transcript.py:565-587 | The selection loop takes exactly the entries of the reference page. |
| `TranscriptReader.ReadSelectedEntries` | chartreux/app_server/_agent_transcript.py:537-602 | For every message list, cursor and limit the lazy reader answers what the full-projection reference answers, and the entries answered show consecutive parts of the messages. |
| `TranscriptService.ReadSaved` | chartreux/app_server/_agent_transcript.py:164-200 | A limit outside 1 to 200 is an error; without authority, before or after loading, nothing is shown; a file too large or not loaded has its own answer; a loaded transcript is read as the reference reads it, and what is answered shows its parts. |
| `TranscriptService.ReadLive` | chartreux/app_server/_agent_transcript.py:203-227 | A live transcript, sealed or not, is read as the reference reads its records. |
| `TranscriptService.ReadArchivedLive` | chartreux/app_server/_agent_transcript.py:230-263 | A prefix too large has its own answer and a broken one is refused; otherwise what is answered shows parts of the archived records followed by the live tail. |
| `TranscriptService.SystemLeftOut` | chartreux/app_server/_agent_transcript.py:203-227 | What is read of a live list is what is not a system message. |
| `TranscriptService.LiveAgreesWithSaved` | chartreux/app_server/_agent_transcript.py:203-263 | A live transcript, sealed after any number of messages that the reader takes, answers like the same transcript once saved. |
| `TranscriptService.ReadersAgree` | chartreux/app_server/_projection.py:587-628 | Where the archive holds what its descriptor counts, the messages the generator shows, system messages aside, are the records the transcript is read from. |
| `TranscriptService.BrokenReadersPart` | chartreux/app_server/_projection.py:605-628 | Where it breaks after some records, the generator shows those and goes on live after as many; the transcript reader shows nothing. |
| `SealedHistory.ArchivedThenLive` | chartreux/app_server/_projection.py:587-628 | The generator puts archived records in the non-system slots of the live list, and goes on live where the archive breaks or runs out. |
| `SealedHistory.LiveTailAfterArchivedPrefix` | chartreux/app_server/_agent_transcript.py:145-161 | The tail is what follows the given number of non-system messages. |
| `SealedHistory.TailDropsSealed` | chartreux/app_server/_agent_transcript.py:145-161 | The tail drops exactly the sealed non-system messages, and keeps the rest in order. |
| `SealedHistory.InterleavedContent` | chartreux/app_server/_projection.py:587-628 | System messages aside, the rebuilt conversation is the archived records shown followed by the live ones after as many: nothing is lost or doubled. |
| `SealedHistory.SystemKeepsSlot` | chartreux/app_server/_projection.py:587-628 | System messages keep their place. |
| `SealedHistory.GeneratorShows` | chartreux/app_server/_projection.py:587-628 | Whatever happens to the archive, the non-system messages shown are the readable records, up to the count, followed by the live ones from there. |
| `SealedHistory.GeneratorMeetsTail` | chartreux/app_server/_agent_transcript.py:145-161 | Of an intact archive they are its records followed by the live tail. |
| `History.TimingOnlyFreezes` | chartreux/app_server/_patch.py:64-103 | A timing-only patch always applies, and moves nothing but an assistant message's turn duration or a timed effect's duration. |
| `History.ReplayIffUnchanged` | chartreux/app_server/_patch.py:79-103 | A status or state operation counts as a replay exactly when applying it changes nothing, durations aside. |
| `History.ApplyKeepsIdentity` | chartreux/app_server/_projector.py:666-676 | No patch changes an entry's type, id, session, turn or creation time, nor a message's speaker and blocks. |
| `History.StampedAlike` | chartreux/app_server/_projector.py:654-665 | Adding the update stamp does not change whether a completed entry takes a patch. |
| `History.ProperKeepsTidy` | chartreux/app_server/_projector.py:278-294 | A patch that completes an entry together with its state never leaves a completed effect running or a completed callback open. |
| `History.ApplyAllExtends` | chartreux/app_server/_patch.py:183-194 | No patch shortens or rewrites a text that is one piece; it can only be appended to. |
| `Projector.Emit` | chartreux/app_server/_projector.py:634-694 | Making an update keeps the ledger equal to what the updates so far rebuild, and takes no entry away. |
| `Projector.Patch` | chartreux/app_server/_projector.py:650-694 | A patch keeps the ledger accounted for and the set of entries unchanged. |
| `ProjectorSteps.ResultEnds` | chartreux/app_server/_tool_projection.py:144-173 | Where a tool result returns, its effect has completed: cancelled, skipped, failed or succeeded as the result was, with its reason or the usual one, its error or output, the text streamed so far or else the transcript, and its duration in milliseconds. |
| `ProjectorCalls.ResultDoes` | chartreux/app_server/_projector.py:791-804 | The same with the rest of the history, and exactly when it raises: without an effect to complete, without a presentation, or where the effect completed otherwise. |
| `ProjectorCalls.StartDoes` | chartreux/app_server/_projector.py:233-255 | Starting an effect adds it, running; one that is filed gets the new detail while it is open, and raises when it is not. |
| `ProjectorCalls.AppendDoes` | chartreux/app_server/_projector.py:269-276 | Output is appended to an open effect whose state has output; it raises for any other. |
| `ProjectorCalls.CompleteDoes` | chartreux/app_server/_projector.py:278-294 | An open effect is completed in the state given; a completed one takes the same state again, durations aside, and raises for another. |
| `ProjectorCalls.UserMessageDoes` | chartreux/app_server/_projector.py:707-739 | A user message is added, and names the session if it is the first with something to show. |
| `ProjectorCalls.AssistantDoes` | chartreux/app_server/_projector.py:741-761 | A text goes to the end of the message filed for it, or is a new message in progress; it raises exactly where that message is not open or the new id is taken. |
| `ProjectorCalls.ReasoningDoes` | chartreux/app_server/_projector.py:763-777 | The same of reasoning. |
| `ProjectorCalls.CompactionDoes` | chartreux/app_server/_projector.py:822-853 | A compaction end completes the checkpoint it is filed for, or its own, added first where it is not there. |
| `ProjectorSteps.LinkDoes` | chartreux/app_server/_projector.py:152-171 | A child is linked once: again does nothing, another raises. |
| `ProjectorSteps.RelinkDoes` | chartreux/app_server/_projector.py:173-190 | Only the child that is linked is replaced. |
| `ProjectorSteps.UnlinkDoes` | chartreux/app_server/_projector.py:192-209 | Only the child that is linked is unlinked. |
| `ProjectorSteps.AskDoes` | chartreux/app_server/_projector.py:315-346 | Asking files an open callback, and blocks the effect it belongs to if that is there and can be. |
| `ProjectorSteps.FinishCallbackDoes` | chartreux/app_server/_projector.py:348-447 | An open callback takes its answer, a completed one no other; the effect it belongs to goes on running, with the output it had while blocked. |
| `ProjectorSteps.CloseDoes` | chartreux/app_server/_projector.py:449-500 | Only an open callback is withdrawn, and only a blocked effect goes on. |
| `ProjectorSteps.ToolCallDoes` | chartreux/app_server/_projector.py:115-119 | A tool call completes every streamed text in progress and nothing else, then starts its effect; without a presentation it raises after that. |
| `ProjectorDurations.TurnTimedExactly` | chartreux/app_server/_projector.py:575-592 | The turn's message has the turn's duration in milliseconds; every other entry is as it was. |
| `ProjectorDurations.ToolsTimedExactly` | chartreux/app_server/_projector.py:593-618 | An ended effect keeps its duration or takes the first its results have; where timing is replayed, the last. |
| `ProjectorDurations.FinalizeExactly` | chartreux/app_server/_projector.py:502-619 | Where `finalize` returns, what was open is completed, effects cut short with what they had streamed, callbacks withdrawn for the reason of the turn's end; and each duration is the one given. |
| `ProjectorSteps.StepDoes` | chartreux/app_server/_projector.py:104-619 | What every call does to the history, and when it raises: which entry it adds or changes, to what, and that every other entry and dictionary is as it was. |
| `Projector.EndCompaction` | chartreux/app_server/_projector.py:822-853 | A compaction end keeps an update from its caller exactly when its entry was not there. |
| `Projector.Step` | chartreux/app_server/_projector.py:104-619 | What every call keeps, raising or not: accounted history, updates only appended, and which calls may touch streamed text or complete entries. |
| `ProjectorHistory.ReplaySound` | chartreux/app_server/_projector.py:634-694 | Whatever updates are made, `_entries` and the history list hold the same entries, each id once, in first-added order. |
| `ProjectorHistory.RunAccounted` | chartreux/app_server/_projector.py:634-694 | After any run, raising calls included, list and dictionary agree and the history is what the updates rebuild. |
| `ProjectorHistory.RunEvolves` | chartreux/app_server/_projector.py:650-683 | No later run removes or moves an entry, changes its identity, or changes a completed one beyond a duration. |
| `ProjectorHistory.ProjectorEvolves` | chartreux/app_server/_projector.py:89-102 | The same of the projector's own runs, between any two points. |
| `ProjectorHistory.IdentityAlwaysKept` | chartreux/app_server/_projector.py:669-676 | The identity check of a patch can never fail. |
| `HistoryClient.SkippedIsNoChange` | chartreux/app_server/_patch.py:38-61 | A completion the client skips as already reflected would have changed nothing. |
| `HistoryClient.RedeliveredAddition` | chartreux/app_server/events.py:603-610 | An addition delivered again is drained, however far the entry has come since. |
| `HistoryClient.RedeliveredCompletion` | chartreux/app_server/events.py:630-633 | The completion of an effect delivered again is drained exactly if the effect has succeeded; that of any other end is refused. |
| `HistoryClient.ReplayRebuilds` | chartreux/app_server/events.py:603-662 | The client refuses no returned update and holds the projector's entries, all but the silent ones. |
| `HistoryClient.RunRebuilt` | chartreux/app_server/events.py:603-662 | Over normally returning calls the client's history is the projector's without silent entries, and equal to it if and only if no compaction end added its own entry. |
| `HistoryClient.StartsFirstNeverDrops` | chartreux/app_server/_projector.py:806-833 | Where every compaction end follows its start, no addition is kept from the client. |
| `HistoryClient.ProjectorRebuilt` | chartreux/app_server/_projector.py:634-694 | Of the projector itself: replaying the returned updates from nothing rebuilds its history exactly. |
| `HistoryClient.UnstartedCompactionIsLost` | chartreux/app_server/_projector.py:822-833 | A compaction end without a start: the projector has an entry, its client none. |
| `ProjectorFinish.PatchOutcome` | chartreux/app_server/_projector.py:650-683 | A patch raises exactly when the rules refuse it, and otherwise replaces that entry alone. |
| `ProjectorFinish.SettlementApplies` | chartreux/app_server/_projector.py:511-572 | The patch `finalize` makes on an entry is always accepted and ends it as specified. |
| `ProjectorFinish.LoopEndsAll` | chartreux/app_server/_projector.py:511-572 | The loop over the entries ends each of them once and touches nothing else. |
| `ProjectorFinish.TurnDurationOutcome` | chartreux/app_server/_projector.py:575-592 | Setting the turn's duration raises exactly when it is headed for somebody else's message, and changes only durations. |
| `ProjectorFinish.ToolDurationsOutcome` | chartreux/app_server/_projector.py:593-618 | Setting tool durations never raises and changes only durations. |
| `ProjectorFinish.FinalizeOutcome` | chartreux/app_server/_projector.py:502-619 | `finalize` raises exactly when the turn's duration is misplaced; either way each entry ends as specified. |
| `ProjectorFinish.FinalizeSettles` | chartreux/app_server/_projector.py:502-619 | Every entry is completed; no callback is open and no effect running or blocked exactly when none had been completed while open. |
| `ProjectorRuns.CompleteStreamedTidy` | chartreux/app_server/_projector.py:296-313 | Completing streamed text never completes a running effect or an open callback, if the ids lead to texts. |
| `ProjectorRuns.StepReady` | chartreux/app_server/_projector.py:741-777 | A call without a collision keeps the id dictionaries leading to their own kind of entry, even when it raises. |
| `ProjectorRuns.RunReady` | chartreux/app_server/_projector.py:104-619 | So does a run of such calls. |
| `ProjectorRuns.RunFinishes` | chartreux/app_server/_projector.py:502-619 | After any run without collisions, raising calls included, `finalize` returns, settles everything and ends each entry as specified. |
| `ProjectorRuns.FinishNeverRaises` | chartreux/app_server/_projector.py:502-619 | The same of the projector itself, from its creation on: cancelled, timed, replayed or not. |
| `ProjectorRuns.CollisionRaises` | chartreux/app_server/_projector.py:741-761 | A collision, and the `finalize` it makes raise. |
| `ProjectorRuns.CollisionLeavesRunning` | chartreux/app_server/_projector.py:296-313 | An effect, a reasoning text under its id, a tool call: `finalize` then returns and leaves the effect completed and running. |
| `ProjectorCallbacks.AskBlocks` | chartreux/app_server/_projector.py:315-346 | Opening a callback files it and blocks its running effect. |
| `ProjectorCallbacks.AnswerUnblocks` | chartreux/app_server/_projector.py:348-447 | Answering or expiring a callback completes it and puts its effect, whatever its state, back to running with the output it had while it was blocked. |
| `ProjectorCallbacks.AskAndAnswer` | chartreux/app_server/_projector.py:315-447 | Ask and answer restore the effect if and only if it had no output. |
| `EventProjecting.IsTimingOnlyPatch` | chartreux/app_server/_patch.py:64-103 | The loop decides exactly whether a patch is timing-only. |
| `EventProjecting.ApplyPatch` | chartreux/app_server/_patch.py:106-117 | The loop applies the operations in order, or refuses. |
| `EventProjecting.ReplaceFirst` | chartreux/app_server/_projector.py:678-683 | The first entry with the id is replaced. |
| `EventProjecting.EventProjector.constructor` | chartreux/app_server/_projector.py:90-102 | A new projector has made no call. |
| `EventProjecting.EventProjector.PatchEntry` | chartreux/app_server/_projector.py:650-694 | The whole new state of a patch, raised or applied. |
| `EventProjecting.EventProjector.CompleteStreamedText` | chartreux/app_server/_projector.py:296-313 | Each streamed entry in progress is completed, in list order. |
| `EventProjecting.EventProjector.SettleEntriesCall` | chartreux/app_server/_projector.py:511-572 | The loop over the dictionary's entries. |
| `EventProjecting.EventProjector.SettleToolCalls` | chartreux/app_server/_projector.py:593-618 | The loop over tool durations. |
| `EventProjecting.EventProjector.FinalizeCall` | chartreux/app_server/_projector.py:502-619 | The three parts of `finalize`, in order. |
| `EventProjecting.EventProjector.Perform` | chartreux/app_server/_projector.py:89-619 | Every call of the object does what `ProjectorSteps.StepDoes` says and is the next of its run; raising or not, list and dictionary agree and entries only evolve; what it returns, joined from what its parts return, is every update made, in order, bar the silent ones. |
| `EventProjecting.EventProjector.PerformFinish` | chartreux/app_server/_projector.py:502-619 | The end of the turn raises exactly when the turn's duration is misplaced, and every entry has ended either way. |
| `StreamedText.ChunksMakeText` | chartreux/acp/session_updates.py:163-198 | The chunks sent for a message or reasoning entry whose text is one piece concatenate to its text, whatever updates arrived. |
| `StreamedText.AddedChunksText` | chartreux/acp/session_updates.py:193-208 | The chunks of a new entry are its text. |
| `StreamedText.UpdatedChunksText` | chartreux/acp/session_updates.py:171-183 | The chunk of a change is what was appended. |
| `Speech.StepSpeaks` | chartreux/app_server/_projector.py:741-777 | A call that returns adds to the texts exactly what it says. |
| `Speech.RunSpeaks` | chartreux/app_server/_projector.py:741-777 | Over every run of returning calls the texts held are the texts said, key by key. |
| `Speech.TextsAreSaid` | chartreux/app_server/_projector.py:741-777 | The same of the projector itself: each streamed entry's text is its events' contents, in order. |
| `Speech.TextsAreTold` | chartreux/app_server/_projector.py:822-833 | An entry with a text is never one whose addition was kept from the client. |
| `Speech.RunIsHeard` | chartreux/acp/session_updates.py:145-198 | From event to ACP client, over every run of returning calls: the chunks sent for a message are its events' contents, no more and no less. |
| `Speech.ClientHearsWhatIsSaid` | chartreux/acp/session_updates.py:145-198 | The same of the projector itself. |
| `RootRecoveryLaws.JitterWithin` | chartreux/core/utils/retry.py:172-189 | Jitter moves a delay by no more than its fraction, either way. |
| `RootRecoveryLaws.DueCovers` | chartreux/app_server/_root_recovery.py:765-783 | The delay due covers the configured backoff, what is left of the retry-after and, where the model is unavailable, its next check; and it is one of them. |
| `RootRecoveryLaws.KeyInjective` | chartreux/app_server/_root_recovery.py:508-509 | Different attempts have different keys. |
| `RootRecoveryLaws.KeysUpToExact` | chartreux/app_server/_root_recovery.py:191-192 | The admission map of a budget: as many keys as its count, for the attempts 1 to the count. |
| `RootRecoveryLaws.NextAttempt` | chartreux/app_server/_root_recovery.py:578-596 | A pending key that is not admitted yet is the next attempt's. |
| `RootRecoveryLaws.EndKeeps` | chartreux/app_server/_root_recovery.py:785-787 | Ending an episode keeps the dictionary leading to live episodes, also when another episode took over its id. |
| `RootRecoveryLaws.SupersedeKeeps` | chartreux/app_server/_root_recovery.py:313-331 | A takeover consumes nothing and brings no episode back. |
| `RootRecoveryLaws.EpisodeForKeeps` | chartreux/app_server/_root_recovery.py:669-695 | The episode found or made is live, and the bound of sixteen is kept. |
| `RootRecoveryLaws.ScheduleLaw` | chartreux/app_server/_root_recovery.py:395-544 | Only a confirmed transient failure without barriers is scheduled, as the next attempt, within budget, deadline and delay. |
| `RootRecoveryLaws.AdmitLaw` | chartreux/app_server/_root_recovery.py:546-646 | An admission counts one and comes before the deadline; a deferral changes nothing and ends before it; a redelivery gives an earlier attempt. |
| `RootRecoveryLaws.StartLaw` | chartreux/app_server/_root_recovery.py:269-331 | A start links at most one awaited successor, and changes no budget. |
| `RootRecoveryLaws.FinishLaw` | chartreux/app_server/_root_recovery.py:333-379 | A finished turn keeps budgets and links. |
| `RootRecoveryLaws.CancelLaw` | chartreux/app_server/_root_recovery.py:648-663 | So does a cancellation. |
| `RootRecoveryTakeover.StartTakesOver` | chartreux/app_server/_root_recovery.py:313-331 | A turn whose key no live episode has admitted ends every episode filed without a successor in flight and takes it out; every one in flight stays as it was, in its place. |
| `RootRecoveryTakeover.StartLinks` | chartreux/app_server/_root_recovery.py:284-312 | A turn with an admitted key is linked to the first episode that admitted it if that one awaits it; otherwise nothing changes. |
| `RootRecoveryTakeover.TakenOverIsSilent` | chartreux/app_server/_root_recovery.py:313-331 | Over every run, no later outcome concerns an episode that a turn has taken over from. |
| `Dicts.PutAt` | chartreux/app_server/_root_recovery.py:265-267 | Assigning to a dictionary sets the value of that key and of no other, and moves no key. |
| `RootRecoveryDecisions.RetryableExactly` | chartreux/app_server/_root_recovery.py:436-490 | A failure may be retried exactly when it is transient, confirmed, of an enabled class, with settled effects and no barrier, in a sound transcript and a quiet session. |
| `RootRecoveryDecisions.DueExactly` | chartreux/app_server/_root_recovery.py:765-782 | The delay due is the longest of the configured cooldown, what is left of the retry-after and the next check of an unavailable model. |
| `RootRecoveryDecisions.DelayExactly` | chartreux/core/utils/retry.py:172-189 | The draw moves it by its fraction at most, by nothing in the middle, and never below zero. |
| `RootRecoveryDecisions.ScheduleExactly` | chartreux/app_server/_root_recovery.py:395-544 | What a schedule decides: an indexed turn is never scheduled again, a failure that may not be retried stops its episode, and one that may is charged to the episode whose retry it was or to a new one, and scheduled exactly if that one can afford it. |
| `RootRecoveryDecisions.AdmitExactly` | chartreux/app_server/_root_recovery.py:546-646 | What an admission decides, in every case: refused, answered again, admitted, put off, or the episode stops; and what becomes of the episode. |
| `RootRecoveryDecisions.FinishExactly` | chartreux/app_server/_root_recovery.py:333-379 | A failed successor is no longer in flight and its episode goes on; a completed or interrupted one ends it. |
| `RootRecoveryDecisions.CancelExactly` | chartreux/app_server/_root_recovery.py:648-663 | A cancellation stops the live episode it names, unless a successor is in flight. |
| `RootRecoveryDecisions.TakeExactly` | chartreux/app_server/_root_recovery.py:255-663 | The decisions of every call, together. |
| `RootRecoveryLaws.TakeLaw` | chartreux/app_server/_root_recovery.py:255-663 | Every step keeps every budget, deadline and dictionary in order, and ended episodes unchanged. |
| `RootRecoveryRuns.RunTold` | chartreux/app_server/_root_recovery.py:255-663 | Over every interleaving the admissions of an episode are 1, 2, ... up to its count, in order and in time; its links and deferrals match the log. |
| `RootRecoveryRuns.BudgetsExact` | chartreux/app_server/_root_recovery.py:480-517 | Admissions, count and keys agree, stay within the maximum, and bound the successors linked and awaited. |
| `RootRecoveryRuns.RunEvolves` | chartreux/app_server/_root_recovery.py:160-194 | From any point to any later one an episode keeps its deadline and policy, and once ended does not change. |
| `RootRecoveryRuns.EndedIsSilent` | chartreux/app_server/_root_recovery.py:785-787 | After its end an episode is never again admitted, linked, scheduled, deferred or answered for. |
| `RootRecoveryRuns.StaysHeld` | chartreux/app_server/_root_recovery.py:515-517 | A scheduled turn stays in the index of terminal turns for the next 63 schedules. |
| `RootRecoveryRuns.ScheduledOnce` | chartreux/app_server/_root_recovery.py:410-428 | Unless everything is invalidated in between, a failed turn is scheduled again only after 64 schedules of other turns. |
| `RootRecoveryRuns.RunInOrder` | chartreux/app_server/_root_recovery.py:611-635 | On a clock that does not go back the deferrals of an episode come in the order of time, none before its failed call began. |
| `RootRecoveryRuns.DeferralsFit` | chartreux/app_server/_root_recovery.py:611-635 | On such a clock the delays of the honoured deferrals sum to less than the window, whatever the others do; those for a probe number less than the window over the recheck interval. |
| `RootRecoveryGates.RootRecoveryGate.constructor` | chartreux/app_server/_root_recovery.py:219-249 | A new gate has taken no step. |
| `RootRecoveryGates.RootRecoveryGate.Perform` | chartreux/app_server/_root_recovery.py:255-663 | Every call of the object decides what `RootRecoveryDecisions.TakeExactly` says, is the next step of its run, keeps the laws of the gate, and adds its outcome to the log the laws of runs speak of. |
| `RootRecoveryGates.RootRecoveryGate.CaptureTerminal` | chartreux/app_server/_root_recovery.py:255-267 | The projection is kept, the oldest beyond 64 dropped. |
| `RootRecoveryGates.RootRecoveryGate.FindEpisode` | chartreux/app_server/_root_recovery.py:677-679 | The first live episode with a property, in dictionary order. |
| `RootRecoveryGates.RootRecoveryGate.SupersedeAll` | chartreux/app_server/_root_recovery.py:315-330 | The takeover loop ends every idle episode and leaves every other in its place. |
| `RootRecoveryGates.RootRecoveryGate.EpisodeOf` | chartreux/app_server/_root_recovery.py:669-695 | The linked episode or a new one, the oldest beyond 16 dropped. |
| `RootRecoveryGates.RootRecoveryGate.IndexTerminalTurn` | chartreux/app_server/_root_recovery.py:515-517 | The turn is indexed, the oldest beyond 64 dropped. |
| `Lineage.CountSlack` | chartreux/app_server/_recovery_controller.py:791-805 | Counting an admission raises a key's count and its agent's attribution together. |
| `Lineage.CountTotal` | chartreux/app_server/_recovery_controller.py:791-805 | It raises the sum of all counts by one. |
| `Lineage.TakeFromKeeps` | chartreux/app_server/_recovery_controller.py:595-610 | Taking an ancestor's count takes that ancestor's attribution under its old key, lowers the key's count by exactly as much, and touches no other. |
| `Lineage.ResolveConserves` | chartreux/app_server/_recovery_controller.py:554-614 | Resolving keeps the sum of counts and every key's cover of its agents, over any records, cyclic chains included. |
| `Lineage.ResolveSlack` | chartreux/app_server/_recovery_controller.py:601-613 | What no agent contributed under a key rises by exactly what is moved to it, and never falls. |
| `Lineage.ResolveTakesOwn` | chartreux/app_server/_recovery_controller.py:568-572 | Only attributions of agents on the predecessor chain go, and none under the resolved key. |
| `Lineage.ResolveIsIdempotent` | chartreux/app_server/_recovery_controller.py:565-566 | Resolving again moves nothing. |
| `Lineage.RunBalanced` | chartreux/app_server/_recovery_controller.py:554-614 | Over every run the counts sum to the counted admissions and each key covers its agents. |
| `Lineage.RunSlack` | chartreux/app_server/_recovery_controller.py:554-614 | Over every run what no agent contributed under a key is exactly what has been moved there. |
| `Lineage.MovedCountStays` | chartreux/app_server/_recovery_controller.py:601-613 | What has moved to a key by some point of a run stays under it ever after, besides what its agents contribute. |
| `LineageMoves.LatestIs` | chartreux/app_server/_recovery_controller.py:584-594 | The failure an ancestor's key is read from is that of its current run if that has failed, else of the last failed run in its history. |
| `LineageMoves.ChainWalks` | chartreux/app_server/_recovery_controller.py:577-611 | The chain is the walk along the predecessors, none twice, to where a record is missing or met before. |
| `LineageMoves.WalkTakesMoving` | chartreux/app_server/_recovery_controller.py:583-611 | The walk takes exactly the attributions of the chain's agents under the keys of their latest failures, where these are other keys; and their sum. |
| `LineageMoves.ResolveExactly` | chartreux/app_server/_recovery_controller.py:554-614 | The key is "pkg:" and the package, else the brief, else the agent. In the package case the count of the key rises by exactly that sum and every other count falls by what it gave; otherwise nothing changes. |
| `LineageCounts.RecurrenceCounts.CountAdmission` | chartreux/app_server/_recovery_controller.py:796-805 | The key's count and the agent's attribution rise by one and no others; the object's counts sum to its admissions, and each is what the agents contributed and what was moved there. |
| `LineageCounts.RecurrenceCounts.TakeAncestor` | chartreux/app_server/_recovery_controller.py:584-610 | One ancestor's step of the walk. |
| `LineageCounts.RecurrenceCounts.TakePredecessors` | chartreux/app_server/_recovery_controller.py:576-611 | The walk ends, also on a cycle, and takes what the chain contributed. |
| `LineageCounts.RecurrenceCounts.ResolveLineageKey` | chartreux/app_server/_recovery_controller.py:554-614 | The failure's key, and what `LineageMoves.ResolveExactly` says of the books; the run laws hold of the object afterwards. |
| `SessionList.SortSorts` | chartreux/app_server/_host.py:600-602 | Sorting gives the same sessions, newest first, ids deciding between equal times. |
| `SessionList.TextLessExactly` | chartreux/app_server/_host.py:600-602 | Of two texts the lesser is the one with the smaller byte where they first differ, or the one that is a beginning of the other. |
| `SessionList.PageNewestFirst` | chartreux/app_server/_host.py:600-626 | Of two sessions on a page the first has the later update time, or the same and the greater id; a page holds as many as asked for, fewer only where no more are left. |
| `SessionList.FollowNewestFirst` | chartreux/app_server/_host.py:583-628 | The same of all sessions shown by following cursors, whatever happens in between. |
| `SessionList.SplitRoundTrip` | chartreux/app_server/_host.py:660-670 | A cursor's payload splits back into its two parts exactly when neither contains NUL. |
| `SessionList.CursorRoundTrip` | chartreux/app_server/_host.py:660-678 | A session's cursor decodes to its sort key where its two parts are free of NUL, valid text, a date and a non-empty id; any other cursor is refused. |
| `SessionList.IndexBelow` | chartreux/app_server/_host.py:679-686 | The index of the first session below the key. |
| `SessionList.PageInOrder` | chartreux/app_server/_host.py:603-626 | A page is in order and below its cursor, and its next cursor follows its last session. |
| `SessionList.PageShows` | chartreux/app_server/_host.py:603-626 | What a page leaves out below its cursor comes after it, and the page says that there is more. |
| `SessionList.FollowInOrder` | chartreux/app_server/_host.py:583-628 | Whatever the sessions do between the requests, what is shown is strictly descending. |
| `SessionList.FollowMissesIff` | chartreux/app_server/_host.py:665-686 | A session that is there at each request under its key is shown by the end exactly when no page before its own ends in a session whose cursor is refused. |
| `SessionList.FollowIsComplete` | chartreux/app_server/_host.py:583-628 | Paging a changing list to its end shows a session whose key stays exactly once if and only if it is not cut off by such a page. |
| `SessionList.PagingIsComplete` | chartreux/app_server/_host.py:583-628 | The same of the session list itself. |
| `SessionList.CleanNeverCuts` | chartreux/app_server/_host.py:665-678 | Where all sessions at all requests have cursors that decode, no session is cut off. |
| `SessionList.CleanIsComplete` | chartreux/app_server/_host.py:583-628 | Then every session that stays is shown exactly once, however the list changes. |
| `SessionList.ReachesAllIff` | chartreux/app_server/_host.py:665-678 | A walk over an unchanging list reaches its end if and only if the last session of every page with a successor is clean. |
| `SessionList.PagingEnds` | chartreux/app_server/_host.py:583-628 | Paging an unchanging list ends, and shows exactly the sorted list if and only if the last session of every page with a successor is clean. |
| `SessionList.UncleanBoundaryMisses` | chartreux/app_server/_host.py:667-678 | Two sessions, one to a page, the newer with a cursor that is refused: the older is never shown. |
| `SessionRoots.RootOf` | chartreux/app_server/_host.py:648-656 | The walk ends for every parent map; the result is the topmost listed ancestor, or the session itself on an endless chain. |
| `SessionRoots.RootsOf` | chartreux/app_server/_host.py:644-657 | Every listed session gets its root. |
| `SessionRoots.RootExactly` | chartreux/app_server/_host.py:648-656 | A root is the topmost of the ways up from a session through listed parents; the session itself where no way up ends. |
| `SessionRoots.ParentsLast` | chartreux/app_server/_host.py:645 | A listed id leads to the parent of its last listing. |
| `SessionRoots.Repeats` | chartreux/app_server/_host.py:651-653 | A chain that meets a session twice never ends. |
| `SessionRoots.RootUnique` | chartreux/app_server/_host.py:644-657 | A session has one root. |
| `SessionRoots.RootOfRoot` | chartreux/app_server/_host.py:644-657 | A root is its own root. |
| `SessionRoots.RootOfParent` | chartreux/app_server/_host.py:644-657 | On a chain that ends, a session shares its parent's root. |
| `FileRevisionRegistries.RecentsInOrder` | chartreux/app_server/_file_revision_registry.py:101-120 | The list of recents holds each path accepted and not forgotten since, once, with its last acceptance, in the order of last acceptances. |
| `FileRevisionRegistries.StepIsRecent` | chartreux/app_server/_file_revision_registry.py:138-193 | Evicting, forgetting or clearing step by step leaves the newest part of that list; where it was full or complete, all but forgetting keep it so. |
| `FileRevisionRegistries.RegistryIsRecent` | chartreux/app_server/_file_revision_registry.py:101-193 | Over every run the registry holds the last accepted revisions of the most recently accepted distinct paths, less those forgotten since; as many as fit, unless a path was ever forgotten. |
| `FileRevisionRegistries.PublishLaw` | chartreux/app_server/_file_revision_registry.py:112-141 | A publication is accepted exactly when it has no number, nothing is held of its path, or its number is not below the one held; it takes effect with its own number, else the one held, else zero. Any other changes nothing; no held path's sequence falls. |
| `FileRevisionRegistries.FileRevisionRegistry.Create` | chartreux/app_server/_file_revision_registry.py:94-99 | A bound below one is refused. |
| `FileRevisionRegistries.FileRevisionRegistry.PublishRevision` | chartreux/app_server/_file_revision_registry.py:101-141 | The new registry and whether the publication was accepted; the path then has that revision, and a rejection changes nothing; the object is what its run makes it, and so holds the most recent paths. |
| `FileRevisionRegistries.FileRevisionRegistry.ExternalBump` | chartreux/app_server/_file_revision_registry.py:159-173 | A bump is reported exactly of a held path to a worker whose baseline does not match. |
| `FileRevisionRegistries.FileRevisionRegistry.Forget` | chartreux/app_server/_file_revision_registry.py:185-188 | The path becomes unknown, the others stay. |
| `FileRevisionRegistries.FileRevisionRegistry.Clear` | chartreux/app_server/_file_revision_registry.py:190-193 | Nothing is held. |
| `EventStream.Stream` | chartreux/app_server/_session_backend_impl.py:960-999 | For every queue, what is yielded, and where and why the stream ends: at a close, at a number without a session, or where numbers are missing, with the number expected and the one received. |
| `EventStream.ReadsOn` | chartreux/app_server/_session_backend_impl.py:960-999 | Items are read on exactly as long as none of them ends the stream. |
| `EventStream.InTwo` | chartreux/app_server/_session_backend_impl.py:972-999 | A queue can be judged in parts. |
| `EventStream.SegmentExact` | chartreux/app_server/_session_backend_impl.py:986-999 | Within a session the numbered events shown are exactly watermark + 1, watermark + 2 and so on. |
| `EventStream.StretchesShown` | chartreux/app_server/_session_backend_impl.py:972-999 | For every queue content read, over any number of sessions, the numbered events shown are, stretch by stretch, exactly the numbers after its watermark. |
| `EventStream.NewSessionStartsOver` | chartreux/app_server/_session_backend_impl.py:983-985 | Another session's first numbered event starts the count at zero. |
| `EventStream.DroppedWasSeen` | chartreux/app_server/_session_backend_impl.py:986-987 | A dropped event was shown before or lies at or below the watermark. |
| `EventStream.UnnumberedKept` | chartreux/app_server/_session_backend_impl.py:977-980 | Unnumbered events are all shown, in order. |
| `EventStream.UnnumberedInPlace` | chartreux/app_server/_session_backend_impl.py:977-980 | An unnumbered event is shown between what the items before it and the items after it show, and changes neither. |

## Left out

- Presentation, truncation, effect detail and digests: functions the model leaves open.
- The pydantic validators, and that a response whose cursor is over 4096 characters is an error (`TranscriptPage.CursorFits` says which): validation is taken to accept what the model builds, and to refuse an effect state on a callback entry and the reverse.
- How a saved transcript's file is loaded and checked, the 16 MiB input limit included: a `Load` says what it comes to.
- How sealed records are verified on disk and hydrated into messages: an `Archive` says which could be read and whether they all could. A record that cannot be hydrated breaks the archive of the generator, not that of the transcript reader, and `history_messages` falls back to the live list before either.
- The identities of live descriptors: an empty string and an absent value are one.
- `rebind_session`: the projector's laws are between rebinds.
- `make_json_patch` and the diff builder behind it: an external library.
- JSON documents as such: patches are the thirteen operations the projector emits, on typed entries; `add`, `remove` and `test` operations are not among them.
- Emission times and event numbers of updates, the text of notices and hook messages.
- The client's callback list, session title and turns: only its history is modelled.
- Chunks that are not text (images, resources, tool calls, plans), and messages with several text blocks, whose text has separators that no chunk carries.
- EventProjecting.EventProjector.PatchEntry: a position search that finds nothing leaves the list as it is, where the source would raise; `ProjectorHistory.ReplaySound` shows that it always finds the entry.
- EventProjecting.EventProjector.Perform: an inner method that returns one update returns the list of it.
- The handlers behind EventProjecting.EventProjector.Perform and RootRecoveryGates.RootRecoveryGate.Perform have no rows of their own: each is proved to take its branch of the state machine.
- RootRecoveryGates.RootRecoveryGate.Perform: the end of an episode after its notice may come at any time after its notice was awaited, or never; episode objects are records addressed by handle, so aliasing is by handle.
- Milestone notices of the recovery gate and their exactly-once set, and the texts of declined answers.
- The rest of the child recovery controller: its episodes, timers, availability and backoff.
- The filters, previews and `--continue` pointer of the session list: a page is over the sessions that pass the filters.
- FileRevisionRegistries.RegistryIsRecent: does not say how many paths are held once one was forgotten; forgetting frees a place that an evicted path does not get back.
- Locks, the idle and subscription flags of the event stream, logging, and `paths`, `snapshot` and `len` of the registry.
- The ACP agent, request dispatch, compaction, relocation, draining, authentication, git and configuration.
