# A verified model of ConvoMeow's store and services

ConvoMeow keeps the conversations of messenger accounts in one SQLite database and lets browsers read and
answer them. The same person or chat can be known under several JIDs, and links between JIDs arrive at any
time; messages are sent once although requests, workers and processes may be repeated or fail; files move
between uploads, attachments and photos while a cleaner deletes what nobody refers to. This project models that
logic in Dafny and proves what the code is built to keep.

The database has one connection, so a transaction is one step. Tables are maps and sets. Code that updates
tables or variables in place is a class whose methods are proved against functions or relations on the tables;
protocols between goroutines, the database and the provider are state machines, in which every transaction,
every section under a lock and every call outside is one action, and the theorems hold for all action sequences.

| file | what it models |
|---|---|
| links.dfy, merging.dfy, reports.dfy, participants.dfy, reading.dfy | linked JIDs, and reactions and receipts that converge under them |
| schema.dfy, merge_rows.dfy, merge_plan.dfy, conversation_*.dfy, conversations.dfy | conversations that are found, united and filled |
| message_columns.dfy | what saving a message does to each column, once and over a whole batch |
| history.dfy | the transactions that bring live events and whole history batches, and their convergence |
| shown.dfy | what readers are shown after any run, in terms of the events that happened |
| outbox.dfy, send_pipeline.dfy | sending with idempotency keys, upload workers and crash recovery, over the state, key and job of each message |
| send_outcomes.dfy | why a message is sent, failed or uncertain, over whole runs of the pipeline |
| send_refinement.dfy, sending.dfy | the service over the conversation store, simulated by that pipeline |
| totals.dfy, storage.dfy, storage_tables.dfy, storage_quota.dfy, storage_sizes.dfy | stored objects, their owners, cleanup, the byte quota and what it counts |
| storage_leaks.dfy, storage_readers.dfy | conservation of objects over runs, and what is left behind or forgotten |
| message_order.dfy, paging.dfy | the order of messages as SQLite compares it, and pages and windows of it |
| account.dfy, avatar_fence.dfy | logins and connection events, and the fence around photo fetches |
| notifications.dfy | browser subscriptions, revocations and notification jobs |
| realtime_cache.dfy | the browser's invalidation cache |
| changes.dfy | edits and deletions |

Some promises do not hold as widely as one may read them. For each there is a concrete run, and a lemma that says
exactly when the promise holds:

- An import refreshes the cached last message of its own conversation only: `History.ImportLeavesStale`, `ConversationRows.ElsewhereExactlyWhen`. A ghost field of `Conversations.Store`, `stale`, names the conversations left behind; every other cached last message is right in every valid store, and `Sending.ServeWithoutHistory` shows that nothing else leaves one behind.
- An upload that is deleted while it is stored can leave an object behind: `StorageLeaks.LateUploadLeaks`, `StorageLeaks.PartialUploadLeaks`, `StorageLeaks.UploadLeaksExactlyWhen`.
- So can any worker that ends between its Put and its row: `StorageLeaks.CrashedFetchLeaks`. `StorageLeaks.Conservation` and `StorageLeaks.LeavesExactlyWhen` list every way.
- A row that is marked as having no object can lose one that is in the store: `StorageReaders.RefusedDownloadForgets`, `StorageReaders.DownloadForgetsExactlyWhen`, `StorageReaders.ReaderForgetsExactlyWhen`.
- A connected account can carry the identity of a session that a new login replaced: `Account.ConnectedMayBelongToAnother`, `Account.PairedMayBelongToAnother`, `Account.SettlesOwnExactlyWhen`, `Account.ConnectedIsOwnExactlyWhen`.
- A photo fetched by a session can be stored after a login replaced the session: `AvatarFence.ReplacedSessionCommits`, `AvatarFence.CommitIsStaleExactlyWhen`.
- A revoked browser session can register once more after it has expired: `Notifications.RevokedSessionReturns`, `Notifications.RevokedSessionReturnsExactlyWhen`.

A job may also outlive the queued state of its message (`SendPipeline.JobsOutliveQueued`); the test of the claim, not
the existence of the job, is what keeps a message from being sent twice.

## Assumptions

- UUIDs and generated provider message IDs are new. Row IDs are natural numbers; where the code breaks ties by the text of an ID, the model breaks them by the number.
- No JID is the literal "self". Texts compare unit by unit, as in Go and in SQLite's BINARY collation.
- The event ID of an edit determines its text. The ID of a browser session determines its expiry and generation.
- Row values compare lexicographically; the scalar SQL min of a NULL is NULL.
- A provider never reports an attachment as already stored. SHA-256 and the media key functions are injective.

## Model

| member | source | states |
|---|---|---|
| `Links.LinkedJids` | internal/store/sqlite/aliases.go:90-122 | The worklist over jid_links ends and returns every linked JID once, and nothing else: exactly the reachable set of the seeds. |
| `Links.ComponentIsReachable` | internal/store/sqlite/aliases.go:90-122 | Being in a component and being reachable over links are the same, so the reachable set is a definition independent of the search. |
| `Links.ComponentWithin` | internal/store/sqlite/aliases.go:90-122 | A component is the smallest set that contains a JID and is closed under links. |
| `Links.LinkJoinsComponents` | internal/store/sqlite/aliases.go:124-133 | One new link unites the components of its two ends and changes no other component. |
| `Links.SameComponent` | internal/store/sqlite/aliases.go:90-122 | Everyone in a component has the same component, because links are stored in both directions. |
| `Merging.CorrectUnique` | internal/store/sqlite/reactions.go:16-19 | A table whose rows hold the join of what was reported for a person is determined by the reports and the links alone. |
| `Merging.UpsertCorrect` | internal/store/sqlite/reactions.go:65-90 | Saving one more report under its person’s least name keeps the table the join of everything reported. |
| `Merging.RekeyCorrect` | internal/store/sqlite/reactions.go:92-109 | Moving the rows of one name under another keeps the table correct for the people after the link. |
| `Reports.LatestIsSemilattice` | internal/store/sqlite/reactions.go:14-19 | Keeping the later reaction is commutative, associative and idempotent; what the order is, Reading.LatestReactionCounts tells by the columns. |
| `Reports.LatestIsAttained` | internal/store/sqlite/reactions.go:14-19 | What a reaction row holds is one of the reports, and the greatest. |
| `Reports.EarliestIsSemilattice` | internal/store/sqlite/receipts.go:14-16 | COALESCE(min(a, b), a, b) per column and max of the group flag form a semilattice, NULLs included. |
| `Reports.EarliestIsAttained` | internal/store/sqlite/receipts.go:14-16 | A joined receipt has a time exactly if some report has one, and then the earliest; it is a group receipt exactly if some report was. |
| `Reports.ImprovesIffChanges` | internal/store/sqlite/receipts.go:90-92 | The guard of the receipt upsert holds exactly when the row would change, so the changed flag is right. |
| `Participants.Tables.AddLink` | internal/store/sqlite/aliases.go:124-139 | Storing a link and re-keying both tables leaves every row under the least JID of its person, holding the join of all that was reported for the person. |
| `Participants.MergeParticipants` | internal/store/sqlite/reactions.go:92-109 | After a link every row of the component is under its least name, for reactions and for receipts. |
| `Participants.Tables.Representative` | internal/store/sqlite/reactions.go:65-90 | The name under which a row is stored is the least JID of everyone linked with the sender. |
| `Participants.Tables.RecordReaction` | internal/store/sqlite/reactions.go:65-90 | Once its links are stored, an accepted reaction adds exactly its report under its person’s least name and changes no other chat; it replaces what the person’s row there holds if it is later, or of the same time and a removal where the row is none, never if it is earlier, and says so exactly when it did. |
| `Participants.Tables.RecordReceipt` | internal/store/sqlite/receipts.go:73-103 | Once its links are stored, an accepted receipt adds exactly one report for each message, changes no other chat, and says that it changed the table exactly when it did: no later message of the list undoes an earlier change. |
| `Participants.Tables.UpsertReceipt` | internal/store/sqlite/receipts.go:88-99 | The guarded upsert says that it changed the table exactly when it did. |
| `Participants.KnowledgeDecides` | internal/store/sqlite/reactions.go:16-19 | What was reported and linked decides both tables: no two tables agree with the same knowledge. |
| `History.SaveEvent` | internal/store/sqlite/reactions.go:65-90 | addChatLinkTx and the upserts together keep the whole database good, conversations included; conversations are united as the link demands, and the changed flag compares the tables before and after the upserts. |
| `History.SaveLive` | internal/store/sqlite/reactions.go:21-63 | A reaction or receipt is refused without a trace or committed; the conversations it returns are enough, as wherever a message of another conversation looks for reactions and receipts nothing changed; no cached last message becomes wrong. |
| `History.LinkedAgainChats` | internal/store/sqlite/aliases.go:124-151 | Linking names that are linked already moves no chat to another conversation. |
| `History.ImportHistory` | internal/store/sqlite/history.go:10-89 | A batch is committed or rolled back whole, whichever of its parts is bad; committed, it stores every message, loses none that was stored, adds exactly its links, reports and changes, keeps keys and objects, and leaves a good database. What it does to states and jobs the send pipeline can do too. |
| `History.Replay` | internal/store/sqlite/history.go:10-89 | After any run of live events, changes and batches the store knows exactly the union of what was committed. |
| `History.Converge` | internal/store/sqlite/history.go:10-89 | Convergence: two stores that took the same events and changes, live or from history, in any order, any number of times and in any batches, hold the same links, reactions, receipts and changes. |
| `Reading.ReactionsRefine` | internal/store/sqlite/reactions.go:111-144 | The reactions shown on a message are the last words of its people over all aliases of the conversation: each person counts once and a later removal under one alias hides an older reaction under another. |
| `Reading.LatestReactionCounts` | internal/store/sqlite/reactions.go:14-19 | Told by the columns: of all that a person reported on a message under any alias the latest decides, at one time a removal, then the greatest event ID, then the greatest emoji; the person is counted for its emoji and no other, and for none if it is a removal. |
| `Reading.CountsRefine` | internal/store/sqlite/receipts.go:145-147 | Told by the columns of the reports: the people counted as readers are those with a read mark under any alias, and as receivers those with either mark, each linked person once. |
| `Reading.GroupRefines` | internal/store/sqlite/receipts.go:145 | The group flag of the receipts is set exactly if some report under an alias of the chat was for a group. |
| `Reading.ReadersReceived` | internal/store/sqlite/receipts.go:146-147 | Everyone with a read mark is counted as a reader and as a receiver, so the read count is never above the delivered one. |
| `Reading.AttachDelivery` | internal/store/sqlite/receipts.go:131-169 | An outbound message gets as read count the number of people with a read mark, as delivered count that of people with either mark, the group flag from the conversation or the receipts, and the state that they make, partial exactly in groups and never "read" without a read mark; other messages get none. |
| `Reading.ListedRefine` | internal/store/sqlite/receipts.go:177-178 | The rows joined to a message name exactly the people with a report about it under some alias. |
| `Reading.ListMessageReceipts` | internal/store/sqlite/receipts.go:171-205 | A page of receipts holds, in the order of names after a given one and up to the limit, exactly the people with a report on an outbound message, each with the first times reported under any alias; other messages have none. |
| `Reading.TimesRefine` | internal/store/sqlite/receipts.go:171-205 | The time a receipt list shows for a person is the earliest reported under any alias of the chat. |
| `Shown.LatestEventShows` | internal/store/sqlite/reactions.go:111-144 | After any run: whoever’s latest event on a message is a reaction counts for its emoji alone, and whose is a removal for none, whichever aliases of chat and person the events came under and in whatever order they and the links arrived. |
| `Shown.ReceiptsCount` | internal/store/sqlite/receipts.go:131-169 | After any run: the readers of a message are the people of whom a read receipt names it, the receivers those of whom any receipt does, and the group flag is set exactly if one of these was for a group. |
| `Shown.FirstEventIsListed` | internal/store/sqlite/receipts.go:171-205 | After any run: the receipt list of a message names exactly the people of whom a receipt names it, each with the times of the first read and of the first delivered receipt. |
| `Shown.NamesLink` | internal/store/sqlite/aliases.go:124-133 | After any run: two JIDs are linked directly exactly if a link, a receipt or another’s reaction named them together. |
| `Shown.ChangesTaken` | internal/store/sqlite/message_changes.go:13-20 | The changes that a run stores are, column by column, the accepted ones of its live changes and committed batches. |
| `Shown.RunTakes` | internal/store/sqlite/history.go:10-89 | Every run of a new store ends with tables of exactly the events it took, to which the three theorems above apply. |
| `Schema.NewerTotal` | internal/store/sqlite/messages.go:378-386 | Of two messages with different local orders exactly one is newer. |
| `Schema.NewerTransitive` | internal/store/sqlite/messages.go:378-386 | The message order is transitive, so it is a strict total order. |
| `MergeRows.MergedPartsConserve` | internal/store/sqlite/attachments.go:46-111 | Merging the attachments of two messages keeps or orphans every stored object, never both. |
| `MergeRows.SavedPartsKeepObjects` | internal/store/sqlite/attachments.go:14-44 | Saving provider attachments over stored ones neither drops nor adds a stored object. |
| `MergeRows.RepeatsChangeNothing` | internal/store/sqlite/messages.go:71-133 | A message that is saved again, as an echo or from history, changes nothing more. |
| `MergeRows.SavedPartsColumns` | internal/store/sqlite/attachments.go:14-44 | What the provider describes again fills in and updates a stored attachment column by column: a missing column clears nothing, a stored object stays, a failed download is not fetched again by itself. |
| `MessageColumns.EchoColumns` | internal/store/sqlite/messages.go:72-103 | A repeated outbound message is sent, at the time of the repetition, exactly if it was queued or uncertain; sender and reply are filled in, the provider order is taken, the text stays, and no other row changes. |
| `MessageColumns.ConflictColumns` | internal/store/sqlite/messages.go:113-117 | A message that its conversation has keeps its time and whatever it has of text, sender and reply; only an outbound one that was pending becomes sent. |
| `MessageColumns.NewColumns` | internal/store/sqlite/messages.go:111-133 | A message that its conversation has not gets one new row with all it brings, unread. |
| `MessageColumns.BatchKeeps` | internal/store/sqlite/history.go:48-60 | Over the whole message loop of a batch no stored message loses text, sender, reply, read mark, attachment or object, and time and state change only where a pending outbound message turns out to be sent. |
| `MergePlan.Plan.MergeIsUnion` | internal/store/sqlite/aliases.go:153-240 | After a merge the target holds exactly the provider messages that either conversation held, and the source none. |
| `MergePlan.Plan.Survivor` | internal/store/sqlite/aliases.go:185-231 | Of two duplicates the row of the target stays and that of the source goes, unless the source’s is outbound: then it replaces the target’s. The survivor keeps its own text, sender, state and time, was read at the earlier time, takes the other’s provider order and reply where it has none, and carries the key if either did. |
| `MergePlan.Plan.SurvivingPart` | internal/store/sqlite/attachments.go:14-111 | Every attachment of either duplicate survives: with the kept row’s object, or else the other’s, with the other’s description where it has one, and without the other’s failures. |
| `MergePlan.Plan.KeyedSurvives` | internal/store/sqlite/aliases.go:197-228 | A message with a send key survives under its own ID, so no key is lost or dangles. |
| `MergePlan.Plan.MergedStaysGood` | internal/store/sqlite/aliases.go:153-240 | One row for each provider ID in a conversation, and every key at an outbound message, at every point of the loop. |
| `MergePlan.Plan.OutboundSurvives` | internal/store/sqlite/aliases.go:197-228 | No outbound message is ever dropped by a merge: its duplicate is inbound, without a key, and gives way. |
| `MergePlan.Plan.OthersUntouched` | internal/store/sqlite/aliases.go:153-240 | Rows of other conversations are not changed. |
| `MergePlan.Plan.OnlyOneKeyed` | internal/store/sqlite/aliases.go:204-218 | The branch that deletes the target message never deletes one with a send key. |
| `MergePlan.PairConserves` | internal/store/sqlite/attachments.go:46-111 | The merge of one pair loses no stored object. |
| `MergePlan.PairStaysGood` | internal/store/sqlite/attachments.go:46-111 | The merge of one pair gives no object two owners and orphans none that is still owned. |
| `Conversations.Store.MergeMessages` | internal/store/sqlite/aliases.go:162-232 | The batch loop ends, because every batch takes rows out of the source, and leaves the planned table whatever order the batches come in. |
| `Conversations.Store.HandleSource` | internal/store/sqlite/aliases.go:184-231 | Each branch of the loop body produces the planned rows, keys and orphans for one source message. |
| `Conversations.Store.MergeAttachments` | internal/store/sqlite/attachments.go:46-111 | The target message gets the merged parts, the source keeps none, and exactly the released objects become orphans. |
| `Conversations.Store.MergeMessageOrder` | internal/store/sqlite/aliases.go:242-255 | The kept message gets the earlier read time, either reply and either provider order, and nothing else changes. |
| `Conversations.Store.MergeConversation` | internal/store/sqlite/aliases.go:153-240 | A merge leaves a database that is good again: rows, keys, aliases, homes, cached last messages and objects. |
| `Conversations.Store.MergeAll` | internal/store/sqlite/aliases.go:72-79 | Merging all candidates one after another unites exactly their messages in the first. |
| `Conversations.Store.EnsureConversation` | internal/store/sqlite/aliases.go:34-88 | Every linked JID leads to one conversation, which is new and blank exactly if none led anywhere, keeps the oldest candidate’s identity, is a group if any candidate was, has its name or else another’s, and holds the union of all their messages. |
| `Conversations.Store.UniteConversations` | internal/store/sqlite/aliases.go:54-85 | The survivor is the candidate that was created first, and among those of one time the one with the least ID. |
| `Conversations.Store.AddChatLink` | internal/store/sqlite/aliases.go:124-151 | After a link the component is wholly unmapped, as before, or wholly mapped to one conversation with all that its JIDs led to; keys and objects are kept, and the cached last message of that conversation is right even if it was not before. |
| `Conversations.Store.Refresh` | internal/store/sqlite/conversations.go:234-245 | The cached last message becomes the newest message of the conversation. |
| `Conversations.Store.SaveMessage` | internal/store/sqlite/messages.go:27-133 | A saved message is refused exactly without chat, provider ID or valid content, and is else an echo of an outbound one, an update of its row or a new row in the conversation of its chat; the cached last message of its conversation is right afterwards and no other becomes wrong. |
| `Conversations.Store.SaveEcho` | internal/store/sqlite/messages.go:72-103 | A repeated outbound message updates that row, ends its job and keeps every row, key and object invariant. |
| `Conversations.Store.SaveInto` | internal/store/sqlite/messages.go:111-133 | The upsert updates the one row of the provider ID in the conversation or adds it. |
| `Conversations.Store.ReserveSend` | internal/store/sqlite/messages.go:184-229 | A key that is stored answers with its message and changes nothing, or is refused for another request; a new one is refused exactly without its data or conversation, and otherwise adds one queued row, its key, and for an upload its job and object; the cached last message of the conversation is refreshed and no other one becomes wrong or changes. |
| `Conversations.Store.CompleteSend` | internal/store/sqlite/messages.go:231-258 | A queued message gets exactly the given state; sender and time are taken where given, for media also over a message that an echo marked sent, which stays sent; any other message stays as it is. The cached last message of its conversation is refreshed, and no other one becomes wrong. |
| `Conversations.Store.ImportMessages` | internal/store/sqlite/history.go:48-60 | Each message of a batch in turn is an echo of the outbound message of its provider ID, wherever that lies, or an upsert into the imported conversation; exactly the jobs of repeated messages end, and rows, keys and objects stay good at every point. |
| `Conversations.Store.ImportChat` | internal/store/sqlite/history.go:24-70 | An imported chat has all its JIDs in one conversation, the profile where given and the right last message. Of the others exactly those have a wrong cached last message in which, by the rows from before the import, another message lands last. |
| `Conversations.Store.SetProfile` | internal/store/sqlite/history.go:33-47 | Changing the chat ID to a linked JID cannot violate UNIQUE(account_id, provider_chat_id). |
| `ConversationRows.ComponentAgrees` | internal/store/sqlite/aliases.go:34-88 | A link component is wholly unaliased or wholly mapped to one conversation. |
| `ConversationRows.HomeIsUnique` | internal/store/sqlite/schema.go:45-62 | No other conversation has a JID of this one as its chat ID. |
| `ConversationRows.ElsewhereExactlyWhen` | internal/store/sqlite/history.go:48-63 | After a batch the cached last message of another conversation is right if and only if it lands last: the echoes of the batch, folded over the rows from before it, put no other message after it. |
| `ConversationRows.NoEchoNoChange` | internal/store/sqlite/history.go:48-63 | A batch that repeats no outbound message of a conversation leaves its cached last message as right or wrong as it was. |
| `ConversationRows.TraceHolds` | internal/store/sqlite/history.go:48-60 | After the message loop exactly the provider messages of the batch and those from before are stored. |
| `History.ImportLeavesStale` | internal/store/sqlite/history.go:48-63 | A run of three calls: a received message, a reserved reply, and then the import of another chat that repeats the reply; the store is valid and the cached last message of the first conversation is wrong. |
| `ConversationUnion.UnitedStep` | internal/store/sqlite/aliases.go:74-78 | Uniting one more conversation with a group keeps union, profile, keys, jobs, objects and everything outside. |
| `ConversationUnion.EnsuredAgrees` | internal/store/sqlite/aliases.go:80-85 | Mapping all linked JIDs restores the alias invariant for every link. |
| `ConversationUnion.MergeKeepsLast` | internal/store/sqlite/aliases.go:233-240 | After a merge the cached last message of the merged conversation is its newest, and every other one that was right still is. |
| `Outbox.RecoveryIsExact` | internal/store/sqlite/store.go:59-78 | After recovery the queued messages and the jobs correspond one to one and every job waits. |
| `SendPipeline.AtMostOneCall` | internal/app/media_send.go:144-255 | Over every interleaving of requests, workers, echoes, logouts, merges and crashes the provider is called at most once for a message, and every call belongs to one idempotency key of its own. |
| `SendPipeline.OneClaimPerRelease` | internal/store/sqlite/outgoing_media.go:184-230 | Over every run and any number of workers, a job is claimed at most once between two releases, which are a retry by its own worker and a restart. |
| `SendPipeline.OneMessagePerKey` | internal/app/service.go:495-548 | All answers to one key name one message and one request. |
| `SendPipeline.KeysAreForever` | internal/store/sqlite/messages.go:168-229 | What a key resolves to, which calls were made and what was answered is never undone by any later step. |
| `SendPipeline.StatesOnlyProgress` | internal/store/sqlite/messages.go:71-103 | Every step moves a message only along queued to sent, failed or uncertain, and uncertain to sent. |
| `SendPipeline.JobsOutliveQueued` | internal/store/sqlite/messages.go:113-117 | A concrete run leaves a job whose message is sent already; no claim can take it. |
| `SendPipeline.RestartIsExact` | internal/store/sqlite/store.go:59-78 | After a restart in any run, queued messages are exactly those with a job, and all jobs wait. |
| `SendPipeline.RunKeepsInv` | internal/app/media_send.go:144-255 | Whoever may still call the provider for a message is alone with it and no call was made yet, in every reachable state. |
| `SendPipeline.ReserveKeepsInv` | internal/app/service.go:522-525 | A reservation in any state keeps keys unique and gives the message to one sender. |
| `SendOutcomes.StateHasReason` | internal/store/sqlite/outgoing_media.go:232-280 | Over every run, a keyed message that does not wait was brought into its state by its recorded result, by the phone (sent), by a failed upload or a logout before sending (failed), or by a logout or restart after its job began or a restart of a text (uncertain). |
| `SendOutcomes.TurnedForGood` | internal/store/sqlite/messages.go:231-258 | The first of these decides for good: the message stays in the state it was brought into, except that an uncertain one becomes sent when the phone shows it. |
| `SendOutcomes.QueuedExactlyWhen` | internal/store/sqlite/messages.go:231-258 | A keyed message waits if and only if none of these happened to it. |
| `SendOutcomes.CalledFailsByResult` | internal/app/media_send.go:144-255 | Over every run, a message whose provider call was made has failed only if that call’s own result was recorded as failed. |
| `SendOutcomes.ReservedWaits` | internal/store/sqlite/outgoing_media.go:88-147 | A message gets its key by a reservation and then waits; one with media has a job without attempts that any worker can claim at once, a text has none. |
| `SendOutcomes.ClaimsAreDue` | internal/store/sqlite/outgoing_media.go:190-222 | Over every run, a job that is to be tried again is not claimed before its time, unless the process restarted. |
| `SendRefinement.EchoRefines` | internal/store/sqlite/messages.go:72-103 | An echo does to state and job what the pipeline’s echo does. |
| `SendRefinement.ConflictRefines` | internal/store/sqlite/messages.go:113-117 | An upsert over an outbound row sends it on and keeps its job, as in the pipeline. |
| `SendRefinement.NewRowRefines` | internal/store/sqlite/messages.go:111-133 | A new row is to the pipeline a saved message. |
| `SendRefinement.ReservedRefines` | internal/store/sqlite/outgoing_media.go:88-147 | A reservation adds the state, key and job that the pipeline’s reservation adds. |
| `SendRefinement.CompletedRefines` | internal/store/sqlite/outgoing_media.go:232-259 | Recording a result changes state and job as in the pipeline, for text and for media. |
| `SendRefinement.MergeRefines` | internal/store/sqlite/aliases.go:162-232 | A conversation merge looks to the pipeline like dropping messages without keys, and changes no state. |
| `SendRefinement.EnsuredFollows` | internal/store/sqlite/aliases.go:34-88 | Uniting any number of conversations is, for states, keys and jobs, a sequence of pipeline steps, whatever its handlers and workers are doing. |
| `SendRefinement.TraceFollows` | internal/store/sqlite/history.go:48-60 | So is the message loop of an imported batch, echo by echo and upsert by upsert. |
| `SendRefinement.FailingViews` | internal/store/sqlite/outgoing_media.go:261-280 | What a logout does to rows and jobs is what the pipeline’s logout does. |
| `SendRefinement.RecoveringViews` | internal/store/sqlite/store.go:59-78 | The three statements of recovery on rows and jobs do together what the pipeline’s restart does. |
| `Sending.Service.Reserve` | internal/store/sqlite/messages.go:184-229 | A reservation of the store is the pipeline’s reservation by the handler that looked the key up, or its giving up: one key resolves to one message, and a repeat changes nothing. |
| `Sending.Service.CompleteText` | internal/store/sqlite/messages.go:231-258 | Recording the result of a text changes states as in the pipeline: a queued state only, and no job. |
| `Sending.Service.CompleteMedia` | internal/store/sqlite/outgoing_media.go:232-259 | Recording the result of a media message ends its job and changes a queued state only. |
| `Sending.Service.Logout` | internal/store/sqlite/outgoing_media.go:261-280 | FailMediaSendsForAccount on the message rows is the pipeline’s logout, and touches no cached last message. |
| `Sending.Service.Restart` | internal/store/sqlite/store.go:59-78 | The three statements of recovery on message rows and jobs are the pipeline’s restart. |
| `Sending.Service.Serve` | internal/app/service.go:495-548 | Forward simulation: every run of handlers, workers, incoming messages, live events, history batches, logouts and restarts over the store is a run of the send pipeline. So no message is handed to the provider twice and only keyed ones are, whatever is merged, repeated or imported in between; without a chat’s history no cached last message becomes wrong. |
| `Sending.ServeWithoutHistory` | internal/store/sqlite/conversations.go:234-245 | Over every run from a new store that imports no chat’s history, every cached last message is the newest of its conversation and heads its timeline. |
| `Sending.CalledOnce` | internal/app/media_send.go:144-255 | What holds in every state that the pipeline can reach: the calls are of distinct messages, each with a key. |
| `Storage.NothingLiveIsDeleted` | internal/app/media.go:358-370 | Over every run, no cleanup deletes an object that an attachment, an upload or a photo names, nor one that a worker stored and is about to record. |
| `Storage.EveryPromiseIsKept` | internal/app/media.go:274-297 | While nothing outside the service removes objects, every object that a ready attachment, a ready upload or a photo names is in the store. |
| `Storage.NothingForgotten` | internal/store/sqlite/attachments.go:46-111 | No transaction drops the last record of an object, except those that record its deletion and MarkMediaRemote and MarkMediaUnavailable on a ready attachment. |
| `Storage.AvailabilityTurns` | internal/store/sqlite/media.go:72-118 | An attachment becomes ready only by its own download while it is remote or by the merge of a ready part, a ready one becomes remote only if it has a reference to fetch it again, and an unavailable one only by a new reference or a description that says so. |
| `StorageLeaks.Conservation` | internal/app/media.go:233-298 | Over every run, an object in the store is named by a row or an orphan, or its worker stored it and has not ended; or one of four listed events left it behind, and it stayed so: its worker or the process ended, its upload’s row was cleared, or its ready attachment gave it up. |
| `StorageLeaks.LeavesExactlyWhen` | internal/app/media.go:233-298 | A step takes an object that stays in the store out of what rows, orphans and workers cover if and only if it is one of these events. |
| `StorageLeaks.UploadLeaksExactlyWhen` | internal/app/uploads.go:100-154 | Over every run, an upload that is never sent is left behind if and only if its row was cleared and the last event that stored or removed its object is a Put or a partial Put. |
| `StorageLeaks.ClearedUploadLeaksExactlyWhen` | internal/app/uploads.go:135-154 | Once an upload’s row is cleared nothing ever names its object again, and it is in the store if and only if a Put or partial Put came after the last deletion, before or after the row was cleared. |
| `StorageLeaks.LateUploadLeaks` | internal/app/uploads.go:100-122 | A concrete run: an upload deleted during its Put is stored after its row was cleared. |
| `StorageLeaks.PartialUploadLeaks` | internal/app/uploads.go:135-154 | A concrete run: a failing Put leaves a part in the store between the cleaner’s deletion and its clearing of the row. |
| `StorageLeaks.CrashedFetchLeaks` | internal/app/avatars.go:482-510 | A concrete run without any upload: the process ends between the Put of a photo and its row. |
| `StorageReaders.ReaderForgetsExactlyWhen` | internal/app/media.go:386-411 | Over every run, a reader’s mark forgets exactly the object that the row names then; that one is in the store only if the row stopped naming what the reader missed, and where the version is checked only if it was marked unavailable since. |
| `StorageReaders.DownloadForgetsExactlyWhen` | internal/app/media.go:216-232 | Over every run, a download that the provider refuses forgets exactly the object that its attachment became ready with meanwhile. |
| `StorageReaders.RefusedDownloadForgets` | internal/app/media.go:323-331 | A concrete run: a merge hands the downloaded attachment an object, the provider refuses, and the object stays in the store without a record. |
| `StorageLeaks.RunKeepsUnshared` | internal/store/sqlite/outgoing_media.go:12-147 | While an upload is received only its own row names its file, and no orphan does. |
| `StorageTables.Store.StoredMediaBytes` | internal/store/sqlite/media.go:63-70 | The sums over attachments, uploads and avatars add up to the accounted bytes. |
| `StorageTables.Store.ReserveMediaStorage` | internal/app/media.go:300-313 | Bytes are reserved exactly if used, reserved and requested bytes fit together, which is the reserving step of the machine. |
| `StorageTables.Store.MarkMediaReady` | internal/store/sqlite/media.go:72-84 | A download is recorded exactly on an attachment that is still remote, with its object and size; its failure is cleared and it is not fetched again. |
| `StorageTables.Store.MarkUploadReady` | internal/store/sqlite/outgoing_media.go:22-28 | An upload becomes ready exactly if it is still staged. |
| `StorageTables.Store.MarkUploadDeleting` | internal/store/sqlite/outgoing_media.go:30-36 | A staged or ready upload is given to the cleaner; it never comes back. |
| `StorageTables.Store.AttachUpload` | internal/store/sqlite/outgoing_media.go:114-150 | A ready upload that passes the test of account and expiry, and no other, becomes the attachment with its ID, object and size. |
| `StorageTables.Store.SaveAvatar` | internal/store/sqlite/avatars.go:35-73 | The previous photo is orphaned unless it is the one saved. |
| `StorageTables.Store.ClearAccountAvatars` | internal/store/sqlite/avatars.go:84-98 | The loop over an account’s photos orphans all their objects before the rows go. |
| `StorageTables.Store.MergePart` | internal/store/sqlite/attachments.go:75-108 | One round of the loop moves the source’s object to a part that has none, orphans it where the part has another one, or finds none, and drops the source’s row. |
| `Storage.RunKeepsInv` | internal/store/sqlite/outgoing_media.go:12-160 | In every reachable state no two rows name one key, what is orphaned is named by no live row, and an unfinished worker is alone on its key. |
| `Storage.EraseIsSafe` | internal/app/uploads.go:135-154 | What a cleaner listed stays unnamed until it is deleted, whatever is committed in between. |
| `Storage.UndoIsSafe` | internal/app/media.go:279-297 | A worker that deletes what it put deletes nothing that a row names. |
| `Storage.MergeIntoKeepsInv` | internal/store/sqlite/attachments.go:46-111 | Handing an object from one attachment to another, or orphaning it, keeps every object with one owner. |
| `Storage.SendUploadKeepsInv` | internal/store/sqlite/outgoing_media.go:114-147 | Turning a ready upload into an attachment keeps every key with one owner. |
| `Storage.ClearAvatarsKeepsInv` | internal/store/sqlite/avatars.go:84-98 | Clearing an account’s photos keeps what waits for deletion apart from what rows name. |
| `Storage.RecordFetchKeepsInv` | internal/store/sqlite/avatars.go:35-73 | Replacing a photo keeps what waits for deletion apart from what rows name. |
| `StorageQuota.QuotaHolds` | internal/app/media.go:300-319 | Over every run, the accounted bytes and the reservations that no row accounts for yet stay within the limit, and the counter equals the sum over the workers. |
| `StorageSizes.UsedIsGranted` | internal/store/sqlite/media.go:63-70 | Over every run, the bytes that count are the sizes that were reserved for the objects that attachments, uploads and photos name, each object once; with the sizes reserved for objects that no row names yet they stay within the limit. |
| `StorageSizes.WritingCounts` | internal/store/sqlite/media.go:63-84 | Recording a download and creating an upload add exactly what the worker reserved, and recording a photo adds it less the size of the photo it replaces. |
| `StorageQuota.SendingIsFree` | internal/store/sqlite/outgoing_media.go:114-150 | Reserving a media send leaves the accounted bytes as they are. |
| `StorageQuota.ReserveKeepsQuota` | internal/app/media.go:300-313 | The test against used, reserved and requested bytes keeps the limit. |
| `StorageQuota.MergeKeepsQuota` | internal/store/sqlite/media.go:63-70 | Merging attachments never adds accounted bytes. |
| `Totals.TotalWithout` | internal/store/sqlite/media.go:63-70 | A sum over rows does not depend on the order in which they are added up. |
| `MessageOrder.TimesAsTexts` | internal/store/sqlite/store.go:19-21 | For years 0 to 9999 the texts of dbTime compare as the instants, to the nanosecond, and are equal only for one instant. |
| `MessageOrder.CivilOf` | internal/store/sqlite/store.go:19-21 | Every instant of those years has such a text. |
| `MessageOrder.OrdersAsTexts` | internal/store/sqlite/messages.go:380-386 | Twenty-digit texts of unsigned 64-bit orders compare as the numbers, and "~" comes after all of them. |
| `MessageOrder.ColumnsInOrder` | internal/store/sqlite/schema.go:92-93 | SQLite’s comparison of (occurred_at, COALESCE(provider_order, "~"), local_order) is the message order. |
| `Paging.ListMessages` | internal/store/sqlite/messages.go:286-342 | The keyset query returns exactly the adjacent slice of the conversation’s timeline before or after any cursor, or Invalid for a cursor that names no message of it. |
| `Paging.OlderPage` | internal/api/native/v1/server.go:205-222 | A page is the next slice; it has a next cursor exactly if more messages follow, naming its last item, and a previous one exactly on a conversation’s page that continues one and is not empty. |
| `Paging.AfterPage` | internal/api/native/v1/replies.go:64-83 | A page after a cursor is the adjacent newer slice; it has a previous cursor exactly if newer messages remain. |
| `Paging.Window` | internal/api/native/v1/replies.go:25-63 | A window is the slice around its target with cursors exactly where messages remain, or NotFound for a message of another conversation. |
| `Paging.WindowFits` | internal/api/native/v1/replies.go:35-63 | A window has at most limit messages, all adjacent, and its target once; it is full if messages remain on both sides. |
| `Paging.ReadEverything` | internal/api/native/v1/server.go:299-315 | Following next cursors visits every message once, newest first, and ends. |
| `Paging.ReadNewer` | internal/api/native/v1/replies.go:64-83 | Following previous cursors from a message visits exactly the newer ones, and ends. |
| `Paging.CursorFinds` | internal/api/native/v1/replies.go:9-11 | A cursor made from a message points just behind it. |
| `Paging.TimelineExists` | internal/store/sqlite/messages.go:378 | The messages of a conversation can be put in strictly descending order. |
| `Paging.TimelineUnique` | internal/store/sqlite/messages.go:378 | There is only one such order. |
| `Paging.LastIsFirst` | internal/store/sqlite/conversations.go:234-245 | The cached last message is the first message of the timeline. |
| `Account.ConnectedIsUsable` | internal/app/service.go:640-700 | In every interleaving of startup, logins and events, "connected" means that there is a session and an identity. |
| `Account.ConnectedMayBelongToAnother` | internal/app/service.go:221-266 | A concrete run: a login started while a connected event is handled leaves "connected" with a session that the identity does not belong to. |
| `Account.PairedMayBelongToAnother` | internal/app/service.go:221-266 | A concrete run: a login that began before the identity was stored installs its session afterwards, and that session’s connected event says "connected" under the identity of the first. |
| `Account.SettlesOwnExactlyWhen` | internal/app/service.go:677-699 | A connected event that finds an identity, or has stored one, says "connected" under a session of that identity, whatever happens before its last step, if and only if the session is the identity’s and no login is in flight. |
| `Account.ConnectedIsOwnExactlyWhen` | internal/app/service.go:677-699 | The same for a connected event that is about to store its session’s identity: it ends under that identity’s session in every continuation if and only if the session is still its own and no login is in flight. |
| `Account.SteppedKeepsInv` | internal/app/service.go:289-338 | Every step under eventMu, of events and of finishing logins, keeps the connection usable when it says so. |
| `Account.EventEffects` | internal/app/service.go:660-740 | Event by event: a disconnection turns connected, connecting and reconnecting into reconnecting and nothing else, a logout leaves neither session nor identity, an error fails, a pairing stores its identity or fails. |
| `Account.StateIsLastSet` | internal/app/service.go:640-740 | Over every run, the state is the one that was set last, and each is set by its own steps only. |
| `AvatarFence.PassedEpochsNeverCommit` | internal/app/avatars.go:317-391 | From any point of any run on, whatever row is written was read under an epoch at least as new as the last invalidation before that point. |
| `AvatarFence.RemovedPhotosStayRemoved` | internal/app/avatars.go:405-439 | A removed photo only comes back from a fetch that began after the removal was announced. |
| `AvatarFence.PastSessionsNeverCommit` | internal/app/avatars.go:500-510 | From any point of any run on, a session that is not the account’s and not between its check and its write never writes a row again. |
| `AvatarFence.CommitIsStaleExactlyWhen` | internal/app/avatars.go:500-510 | Over every run, a commit that passed its check writes its row, and the row belongs to a session that is not the account’s if and only if an install, a logout or a failed login came between the check and the write. |
| `AvatarFence.ReplacedSessionCommits` | internal/app/avatars.go:500-510 | A concrete run: a login installs its session between the check and the write of the first session’s photo, and the row is written under the new session. |
| `AvatarFence.LogoutClearsForGood` | internal/app/service.go:706-725 | After a logout’s clear there are no rows until a session is installed, and never again a row of a session from before. |
| `AvatarFence.GoKeepsInv` | internal/app/avatars.go:452-522 | A commit that passed its checks still holds the current epoch when it writes, in every reachable state. |
| `AvatarFence.CheckPassesExactlyWhen` | internal/app/avatars.go:452-522 | A fetched photo goes on to its write exactly if nothing was announced about the person since its epoch was read and the account is connected under the session that fetched it. |
| `Notifications.AtMostFiveSends` | internal/app/browser_notifications.go:122-240 | Over every run each claim comes within five minutes of its message, and the provider is called at most five times for one message and subscription. |
| `Notifications.IncomingReaches` | internal/store/sqlite/notifications.go:29-34 | A message that comes in gets a job, due at once and never claimed, for exactly the subscriptions of this generation whose session has not expired; jobs of other messages stay. |
| `Notifications.PollTakesFirst` | internal/store/sqlite/notifications.go:127-164 | A worker gets the job that is due first of those that are alive, and only once it is due. |
| `Notifications.FinishEnds` | internal/app/browser_notifications.go:155-166 | A worker that is done ends its job unless another attempt can still be made, before expiry and short of five; then exactly the time of the claimed attempt is set. |
| `Notifications.RevokedSessionsStayOut` | internal/store/sqlite/notifications.go:111-164 | Until a revoked session expires no subscription of it exists and every registration is refused; it never has a job again. |
| `Notifications.RevokedSessionReturnsExactlyWhen` | internal/store/sqlite/notifications.go:52-92 | A registration of a revoked session is stored if and only if its revocation was purged since the clock check, which needs the session to have expired. |
| `Notifications.RevokedSessionReturns` | internal/store/sqlite/notifications.go:52-64 | A concrete run in which that happens. |
| `Notifications.Store.SaveSubscription` | internal/store/sqlite/notifications.go:52-92 | The transaction refuses revoked sessions and changed keys, keeps one row for an endpoint and drops its jobs when the session changes. |
| `Notifications.Store.ClaimNotification` | internal/store/sqlite/notifications.go:127-164 | A claim drops exactly the jobs that expired, were claimed five times or lost their subscription, and takes the one that is due first, or none exactly if none is due; the taken one is counted and rests for thirty seconds. |
| `Notifications.Store.DeleteNotificationSession` | internal/store/sqlite/notifications.go:111-125 | A revocation is recorded once and removes the session’s subscriptions and their jobs. |
| `RealtimeCache.NoLostInvalidation` | web/src/api/realtime-cache.ts:57-106 | While the cache is open, every dirty query has a flush pending or is being refreshed, and every announced change is pending or followed by a request that began after it. |
| `RealtimeCache.QuietMeansFresh` | web/src/api/realtime-cache.ts:65-80 | When nothing is dirty or running, every query was read after its last announced change. |
| `RealtimeCache.NothingStartsAfterClose` | web/src/api/realtime-cache.ts:100-104 | After close no query is asked for and no timer is set. |
| `RealtimeCache.Refresher.Flush` | web/src/api/realtime-cache.ts:81-88 | The loop starts a refresh for every dirty query that has none and leaves the others dirty. |
| `RealtimeCache.Refresher.Receive` | web/src/api/realtime-cache.ts:90-99 | A change marks its queries dirty and sets the timer, unless the cache is closed. |
| `Changes.SameChangesSameTable` | internal/store/sqlite/message_changes.go:13-20 | The stored changes are a function of the set of changes: order, repetition and batches make no difference. |
| `Changes.ReplayedIsConsistent` | internal/store/sqlite/message_changes.go:13-20 | If an event has one text, so has it in the table, whichever aliases reported it. |
| `Changes.FirstTextStays` | internal/store/sqlite/message_changes.go:13-20 | What is stored of a change is never replaced: of all reports under one key the first one counts. |
| `Changes.ShownIsUnique` | internal/store/sqlite/message_changes.go:52-91 | What is shown is determined by the table: the greatest edit over all aliases, and whether a deletion is stored. |
| `Changes.Attach` | internal/store/sqlite/message_changes.go:59-91 | Reading a message shows, told by the columns, text and time of the greatest edit and the time of the latest deletion of all aliases of its conversation, and the original text without an edit. |
| `Changes.ChangesOnlyGrow` | internal/store/sqlite/message_changes.go:52-57 | Later changes, replays and links never clear a deletion, and an edit only gives way to one that is not older. |
| `Changes.StampsIncrease` | internal/app/message_changes.go:72-79 | Local changes of an account get strictly increasing times that exceed the shown edit’s, whatever the clock does. |
| `Changes.Clock.Stamp` | internal/app/message_changes.go:72-79 | A change is stamped with the earliest time that meets these conditions. |
| `Changes.AcknowledgedEditIsShown` | internal/app/message_changes.go:72-99 | An acknowledged edit is what the next read shows if nothing else was stored in between. |
| `Changes.EditIsShownExactlyWhen` | internal/store/sqlite/message_changes.go:52-91 | A stored edit’s time is shown if and only if no later edit is stored under any alias. |
| `Changes.LatestEditShows` | internal/store/sqlite/message_changes.go:52-91 | After any changes a message shows text and time of the latest edit under any alias, by the greatest event ID among those of one time. |
| `Changes.AnyDeletionShows` | internal/store/sqlite/message_changes.go:52-91 | It shows as deleted exactly if a deletion was stored under some alias, and as it was sent if no edit was. |

## Left out

- Several accounts in the conversation, participant and send models: their rows are keyed by account and do not meet. Stored objects and the quota are modelled for all accounts together.
- UpdateChatProfile: it drops a link when no conversation exists yet, so it takes no part in convergence.
- ListMessageRevisions: a page of a table that other lemmas describe; it decides nothing.
- Columns that are only copied: attachment type, dimensions and duration, message content, chat profiles beyond name, description and kind, and the IDs of attachments in the conversation model, where a part is known by its index.
- Read marks, replies and attachments are columns of the message row; in the database they are tables with its ID as key.
- The deletion of notification jobs with a merged message is in the notification model only.
- Temporary disk space, upload validation, file names, image headers and byte ranges.
- The queue channels and in-flight maps of the send workers: any worker may try any job at any time, which allows more runs than the code. For downloads the rule of one worker for an attachment is modelled.
- Retry delays and next-attempt times of downloads and avatars, and which photos are due: the models allow a step at any time.
- Liveness: that a retry, a refresh or a cleanup happens eventually. A refresh that joins an older flight and fails is not repeated.
- JSON and base64 of cursors, HTTP status codes, and the choice of queries that a change affects.
- The provider, the object store's own failures beyond a failed Put, web push, and the browser's query library, except for when a request begins and ends.
- StorageTables.Store.AttachUpload: the account and expiry columns of an upload are not part of its row here; the result of their test is a parameter.
- History.ImportHistory: a batch that is to be rolled back is recognised before the first statement, which leaves the same tables as the rollback.
- Account.SettlesOwnExactlyWhen: startup is over, and a session that is paired keeps its identity.
- Paging.ReadEverything: the timeline does not change between pages; pages on changing contents are not modelled.
- Account.ConnectedIsUsable: the column provider_identity of the database is not modelled, only the value in memory.
