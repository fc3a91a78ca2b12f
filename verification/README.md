# Workbench chat and dispatch core

Anvil Workbench keeps chat conversations as row-backed trees of turns, streams answers
from a serving backend into them, dispatches several attempts at one prompt in parallel,
and identifies its contract resources by canonical digests. This project models that core
in Dafny and proves what it is for: that a conversation is always one readable tree, that
deletions survive crashes, that actors cannot see each other, that a stream ends in one
honest terminal, and that equal digest inputs mean equal resources.

How the model is laid out:

- `ConversationModels`, `ConversationRows`: turns, conversations, the append gate, and what
  each store operation does to the rows, as functions on a value `Rows`.
- `Lineage`: the iterative pre-order reader against recursive pre-order.
- `StoreInvariants`, `Sweeps`, `DeletionRecovery`, `StoreRuns`, `TurnHistory`, `Isolation`,
  `LineageReads`, `StoreRoundTrips`: the store's invariant and what follows from it over runs.
- `ConversationStore`: the store object, whose methods update fields in place; each is proved
  to do exactly what its row function says and to keep the invariant.
- `ChatStream`, `ResponseLifecycle`, `AdvancedRuntime`, `AdvancedDispatch`, `ParallelSiblings`,
  `SharedDispatch`, `SendText`, `SendEndpoint`: streams, their settlement, and the concurrent layers.
- `CanonicalJson`, `DigestPreimages`, `CanonicalPayload`, `DigestEvidence`: the canonical encoder (string and
  number forms as in sections 6 and 7 of RFC 8259), domain prefixes, normalisation, and what a digest is evidence for.
- `BridgeCursor`, `ConfigurationTransfer`, `AdvancedRoutes`: three smaller protocols.
- `Outcomes`, `Sequences`, `StableSort`: shared datatypes and facts.

Clock readings, fresh ids, the content fingerprint (`mac`), redaction, JSON parsing, typed
validation of setting values and the structured-output validator are parameters. A transport
is an arbitrary infinite script of reads, the cancel flag an arbitrary monotone schedule;
threads, disconnects and crashes are interleaved steps. An enumerated string is a datatype,
with a constructor `Unlisted` where the code accepts any string and refuses it.

Where code and documentation disagree the model follows the code: `chat_stream.py` says that
only a completed stream reports usage (`ChatStream.UsageWithoutCompletion` says when another
one does); `docs/contracts/DIGESTING.md` has a deliver intent's catalogs sorted by provider,
while the code orders those of one provider by digest as well
(`CanonicalPayload.CatalogsByDigestToo` says for which lists that is the same);
`_history_messages` promises that the most recent context always survives
(`SendText.RecentContextSurvivesExactly` says when it does); and `configuration_transfer.py`
says that a store that moved since a preview fails closed
(`ConfigurationTransfer.MovedUnseenExactly` says when it does not).

`dafny verify dfyconfig.toml` verifies the project.

## Model

| member | source | states |
|---|---|---|
| Lineage.LineageOrder | workbench/conversation_store.py:173-193 | For every list of turns with unique ids, cycles and dangling parents included, the stack loop stops. It refuses exactly the lists holding a turn that no null-parent turn reaches; otherwise it returns the recursive pre-order, which is a permutation of the input. |
| Lineage.ForestOfReachable | workbench/conversation_store.py:173-193 | The forest below the null-parent turns exists for every such list, repeats no turn, and holds exactly the reachable turns. |
| Lineage.ForestUnique | workbench/conversation_store.py:173-193 | There is only one such forest with siblings by ascending index, so the pre-order the loop is compared with is well defined. |
| Lineage.GroupByParent | workbench/conversation_store.py:180-182 | The children map holds, for every parent, exactly its children in stored order. |
| Lineage.SortGroups | workbench/conversation_store.py:183-184 | After the sort, every parent's children stand in ascending sibling order, ties in stored order. |
| Lineage.Drain | workbench/conversation_store.py:185-190 | Popping a turn and pushing its children in reverse outputs the pre-order of the forest. |
| StableSort.SortIsStable | workbench/conversation_store.py:180-184 | `list.sort(key=...)`: ascending, a permutation, and elements with equal keys keep their order. |
| ConversationModels.ValidateTurnAppend | workbench/conversation_models.py:529-618 | The gate's loop over ancestors and its scan of the blocks give the verdict of `GateVerdict`: the same refusal, in the same order of checks, or acceptance. |
| ConversationModels.IndexById | workbench/conversation_models.py:556-569 | The id index maps every id of the conversation's own turns to the last turn of that id. |
| ConversationModels.IdsExactly | workbench/conversation_models.py:101-102 | An id is its prefix and 8 to 128 word characters, and the pattern lets one newline follow. |
| ConversationModels.TokensExactly | workbench/conversation_models.py:104-230 | Tags, folders and policy ids are bounded lower-case tokens; a policy names one of two retentions for each kind of transcript. |
| StoreInvariants.WalkReachesRoot | workbench/conversation_models.py:577-588 | Over a stored tree the ancestor walk from the turn at position i reaches the root within i + 1 steps, so within the gate's bound. |
| StoreInvariants.GateSeesTheHistory | workbench/conversation_store.py:256-268 | Of all the turns of the actor's conversations, those the gate attributes to the conversation are exactly its stored turn list. |
| StoreInvariants.GateOverStoredRows | workbench/conversation_models.py:554-597 | In every well-formed state the refusals for a lineage cycle and a broken chain never happen, and the gate accepts exactly: an active conversation, an id the actor has not used, the first root or a free place below a stored turn, and content the retention policy allows. |
| StoreInvariants.AppendKeeps | workbench/conversation_store.py:447-474 | An append, accepted or refused, keeps the store well formed: one rooted tree per conversation, unique ids and places, parents stored before children, fingerprints matching, retention kept. |
| StoreInvariants.AdvanceKeeps | workbench/conversation_store.py:531-557 | So does a status advance. |
| StoreInvariants.DeleteKeeps | workbench/conversation_store.py:590-623 | So does a deletion request in either mode. |
| StoreInvariants.CompleteDeletionKeeps | workbench/conversation_store.py:625-663 | So does completing a pending deletion. |
| StoreInvariants.RecoverKeeps | workbench/conversation_store.py:731-749 | So does recovering streaming turns. |
| StoreRuns.PerformKeeps | workbench/conversation_store.py:283-749 | So does every operation by any actor, every full or cut-short sweep, a reopening, and a crash between any two row writes of a creation, append, deletion or recovery. |
| TurnHistory.ReachableWellFormed | workbench/conversation_store.py:199-749 | Every state that any sequence of those steps reaches from an empty store is well formed. |
| TurnHistory.HistoryIsAppendOnly | workbench/conversation_store.py:531-565 | Over any run, crashes included, a surviving turn keeps its position, id, conversation, role, mode, lineage, fingerprint and voice events; its status moves at most once, from streaming to a terminal one; its content moves at most once, to empty and purged. |
| TurnHistory.ConversationsOnlyAdvance | workbench/conversation_models.py:599-618 | Over any run a conversation keeps its owner, retention policy and creation time, a started deletion is never undone or changed in mode, and a transcript block is only ever stored under the policy that keeps it: the one for voice input if the turn carries a voice-input event, the one for text otherwise. |
| TurnHistory.StoredIsValid | workbench/conversation_models.py:233-455 | In every reachable state every stored turn and record is within the contract's limits: 64 blocks of 20,000 characters, 64 voice events, sibling indices up to 4096, titles of 200 characters, 32 tags, enumerated values, and completion, purge and deletion fields that fit the status. |
| TurnHistory.TurnLimits | workbench/conversation_models.py:289-455 | A turn is valid if and only if its identifiers are and it is within those limits. |
| TurnHistory.RecordLimits | workbench/conversation_models.py:233-286 | A record is valid if and only if its identifiers and labels are and it is within its limits. |
| LineageReads.ReadsNeverCorrupt | workbench/conversation_store.py:567-586 | In every well-formed state an owner's read never fails on lineage or fingerprint: it returns each stored turn once. Everyone else, and the owner of an erased conversation, gets the one unknown-conversation error. |
| LineageReads.LastIsLeaf | workbench/conversation_store.py:173-193 | The last turn of a pre-order has no children. |
| LineageReads.SendLineageIsTip | workbench/conversation_api.py:860-873 | The append position computed from a read is (last turn listed, 0), or (none, 0) for an empty conversation, and it is free. |
| LineageReads.FreePlaceAccepted | workbench/conversation_models.py:562-597 | On every active conversation of a well-formed state, a valid turn with a fresh id at a free place below a stored turn is accepted. |
| LineageReads.SendAccepted | workbench/conversation_api.py:1049-1054 | So the user turn of a send on an active conversation is never refused. |
| LineageReads.SequentialSendsReadInOrder | workbench/conversation_api.py:860-873 | A conversation built only by sends, one after the other, reads back in the order of its appends. |
| LineageReads.ChainInOrder | workbench/conversation_store.py:173-193 | A linear history is its own pre-order. |
| StoreRoundTrips.CreateThenRead | workbench/conversation_store.py:283-292 | A creation is refused if and only if its id, policy or title is invalid; otherwise the owner reads back an active, empty record without labels, and to anyone else it does not exist. |
| StoreRoundTrips.AppendThenRead | workbench/conversation_store.py:447-474 | After an append the owner reads every turn there was and the new one, and nothing of the record but its update time has changed. |
| StoreRoundTrips.AppendedExactly | workbench/conversation_store.py:447-474 | On the fields alone: an append of a turn with valid fields is accepted if and only if the conversation is the actor's and active, the id is new to the actor, the turn is the first root or hangs off a stored turn at a free index, and each transcript block is kept by the policy that governs it. Then the turn is stored as requested and nothing else changes but the update time; a refusal changes nothing. |
| StoreRoundTrips.AppendRefusedExactly | workbench/conversation_models.py:529-618 | Which refusal an owner gets, in the order of the checks; a parent only another actor holds is missing like any other. |
| StoreRoundTrips.InvalidIsRefused | workbench/conversation_store.py:447-474 | An append is refused as invalid if and only if the owner asks for a turn that is not valid, and as unknown if and only if anyone else does. |
| StoreRoundTrips.DeleteThenRead | workbench/conversation_store.py:590-663 | After a deletion the owner reads either nothing (all rows gone) or a tombstone: no title, tags or folder, and every turn it had, each without content. |
| StoreRoundTrips.ChangeThenUndo | workbench/conversation_store.py:378-443 | The opposite of a rename, archive, pin, tag or folder change that took effect, where there is one, is never refused and puts every row back as it was, the update time aside. |
| StoreRoundTrips.RefusalsExactly | workbench/conversation_store.py:378-443 | Each refusal of a metadata change and of a deletion, by the condition on the record's fields that causes it. |
| StoreRoundTrips.ListingIsOrdered | workbench/conversation_store.py:319-349 | A listing holds exactly the actor's matching conversations, pinned ones first, each group newest update first. |
| StoreRoundTrips.AdvanceExactly | workbench/conversation_store.py:531-557 | A status advances if and only if the conversation is live, the turn is streaming and the new status is terminal; then that turn alone changes, otherwise nothing does. |
| StoreRoundTrips.BranchAccepted | workbench/conversation_store.py:511-527 | A branch under any stored turn is accepted at the first index above all its siblings, and refused exactly when that index is past the limit. |
| StoreRoundTrips.RetryAccepted | workbench/conversation_store.py:490-509 | A retry becomes a new sibling of the retried turn above all others; retrying the root is refused, as is an index past the limit. |
| StoreRoundTrips.ReopenSettles | workbench/conversation_store.py:231-235 | After reopening with recovery no turn is streaming, no deletion is pending, and every conversation that was not pending keeps its record and its turns, those that were streaming interrupted. |
| StoreRoundTrips.OperationsAreAudited | workbench/conversation_store.py:270-281 | Every accepted creation, change, append and advance leaves one entry under its own name; a refusal leaves none. |
| StoreRoundTrips.DeletionsAreAudited | workbench/conversation_store.py:590-663 | A deletion leaves its request or expiry, one entry for each turn purged if tombstones are kept, and its completion. |
| StoreRoundTrips.AuditTells | workbench/conversation_models.py:622-752 | What is in an entry of a turn or a conversation, counts included, and that no title, label or content is. |
| StoreRoundTrips.CountIsSum | workbench/conversation_models.py:737-752 | The committed and interrupted counts are sums over the turns. |
| DeletionRecovery.CompletionIsItsWrites | workbench/conversation_store.py:625-663 | Completing a deletion equals its sequence of single row writes. |
| DeletionRecovery.DeletionIsItsWrites | workbench/conversation_store.py:590-663 | So does a whole delete request; it succeeds exactly when the record is not already deleted and the pending record is valid. |
| DeletionRecovery.ExpiryIsItsWrites | workbench/conversation_store.py:713-728 | So does what a sweep does with an expired or pending conversation. |
| DeletionRecovery.CrashedDeletionIsFinished | workbench/conversation_store.py:604-663 | A crash after any number of those writes but at least the first, followed by an enforcement pass or a reopening with recovery, reaches the rows of the uninterrupted deletion (timestamps and an erased conversation's leftover turn rows aside), with no title, label or content block left. |
| Sweeps.SweepPointwise | workbench/conversation_store.py:713-729 | A pass over any of the conversations treats each on its own row contents, keeps the order of the others, and returns one audit per due conversation, in order. |
| Sweeps.SweepOfAll | workbench/conversation_store.py:713-729 | The same for the pass over all of them. |
| Sweeps.PreviewIsThePass | workbench/conversation_store.py:665-729 | A retention preview lists exactly the conversations that the enforcement pass at the same instant acts on, in the same order, with the same turn and committed counts. |
| Sweeps.SecondPassIsIdle | workbench/conversation_store.py:696-729 | A second enforcement at the same instant returns nothing and changes no row. |
| StoreRoundTrips.RetentionEnforcedExactly | workbench/conversation_store.py:696-729 | On the fields alone: an enforcement pass deletes a live conversation, keeping tombstones of the record and every turn, if and only if it has a retention ceiling not after the moment; otherwise its record and turns stay as they are. |
| StoreRoundTrips.PreviewNamesExactly | workbench/conversation_store.py:665-694 | A preview names, once each and with the reason, exactly the conversations that are pending or live and past their ceiling. |
| Isolation.ActorsDoNotInterfere | workbench/conversation_store.py:245-268 | For two row sets that agree on an actor's rows, every operation of that actor has the same answer, refusals included, and leaves equal new rows of that actor; every other actor's rows stay as they were. |
| Isolation.InterleavingIsInvisible | workbench/conversation_store.py:447-586 | However the actors' operations interleave, each actor ends with the rows it would have if nobody else had done anything. |
| Isolation.ListingIsIsolated | workbench/conversation_store.py:319-349 | A listing depends on the actor's own rows only. |
| Isolation.ProjectedExactly | workbench/conversation_store.py:245-268 | What an actor's rows are in these results: exactly its own records, in the order of the store, and their turns. |
| ConversationStore.MemoryConversationStore.constructor | workbench/conversation_store.py:199-235 | Opening over well-formed rows leaves them as they are, or as `Reopen` says when recovery is asked for. |
| ConversationStore.MemoryConversationStore.CreateConversation | workbench/conversation_store.py:283-292 | New rows, result and appended audit entries are those of `Create`; the invariant is kept. |
| ConversationStore.MemoryConversationStore.ChangeConversation | workbench/conversation_store.py:378-443 | The same for rename, archive, unarchive, pin, unpin, tag, untag, folder and no folder. |
| ConversationStore.MemoryConversationStore.ListConversations | workbench/conversation_store.py:319-349 | The filter loop followed by the two stable sorts returns the listing that `StoreRoundTrips.ListingIsOrdered` describes. |
| ConversationStore.MemoryConversationStore.AppendTurn | workbench/conversation_store.py:447-474 | Rows, result and audit of an append, gate included; the invariant is kept. |
| ConversationStore.MemoryConversationStore.RetryTurn | workbench/conversation_store.py:490-509 | The same for a retry. |
| ConversationStore.MemoryConversationStore.BranchTurn | workbench/conversation_store.py:511-527 | The same for a branch. |
| ConversationStore.MemoryConversationStore.AdvanceTurnStatus | workbench/conversation_store.py:531-557 | The same for a status advance. |
| ConversationStore.MemoryConversationStore.ReplaceTurn | workbench/conversation_store.py:559-565 | The loop replaces the first turn of that id, in place, and nothing else. |
| ConversationStore.MemoryConversationStore.FindTurn | workbench/conversation_store.py:476-480 | The search returns the first turn of that id, if there is one. |
| ConversationStore.MemoryConversationStore.NextSiblingIndex | workbench/conversation_store.py:482-488 | One more than the largest sibling index below the parent, zero if there is none. |
| ConversationStore.MemoryConversationStore.GetConversation | workbench/conversation_store.py:306-317 | A read finishes a pending deletion first, and reports an erased conversation as unknown. |
| ConversationStore.MemoryConversationStore.GetConversationWithTurns | workbench/conversation_store.py:567-586 | Rows, ordered history or refusal, and audit of a full read. |
| ConversationStore.MemoryConversationStore.DeleteConversation | workbench/conversation_store.py:590-623 | Rows, result and audit of a delete request, resumed deletions included. |
| ConversationStore.MemoryConversationStore.PurgeTurns | workbench/conversation_store.py:632-642 | Writing the tombstones one after the other leaves every turn purged, streaming ones interrupted, with one audit entry per newly purged turn. |
| ConversationStore.MemoryConversationStore.CompleteDeletion | workbench/conversation_store.py:625-663 | Rows, final audit and audit trail of completing a deletion, in both modes. |
| ConversationStore.MemoryConversationStore.EnforceRecord | workbench/conversation_store.py:713-728 | What a pass does with one record: complete it, expire it, or leave it. |
| ConversationStore.MemoryConversationStore.Sweep | workbench/conversation_store.py:713-729 | The loop over the records found at the start equals the pass over them. |
| ConversationStore.MemoryConversationStore.EnforceRetention | workbench/conversation_store.py:696-729 | Rows, enforced audits and audit trail of an enforcement pass; the invariant is kept. |
| ConversationStore.MemoryConversationStore.RetentionPreview | workbench/conversation_store.py:665-694 | The preview changes nothing and lists one row per due conversation, in order. |
| ConversationStore.MemoryConversationStore.RecoverStreamingTurns | workbench/conversation_store.py:731-749 | Every streaming turn of every conversation becomes interrupted; exactly those turns are reported and audited, conversation after conversation in the order of their creation and each history in its stored order. |
| ConversationStore.ReportedExactly | workbench/conversation_store.py:731-749 | The report over one history names a turn's audit if and only if that turn was streaming. |
| ChatStream.ChatStreamRelay.Stream | workbench/chat_stream.py:381-462 | For every frame script and cancel schedule the generator stops, and its events, outcome, partial text, usage and number of reads are those of the closed form `Drained`. |
| ChatStream.ChatStreamRelay.ReadOne | workbench/chat_stream.py:395-447 | One turn of the loop: the stream goes on, or ends with the outcome the read, the cancel checks and the limits determine; a delta is recorded only if it goes on. |
| ChatStream.ChatStreamRelay.Interpret | workbench/chat_stream.py:464-483 | Which frames are deltas, completions, failures, ignored, or raise, and that only a completion records usage. |
| ChatStream.ChatStreamRelay.RecordDelta | workbench/chat_stream.py:373-379 | A delta is kept exactly when the output limit allows it. |
| ChatStream.RelayIsBounded | workbench/chat_stream.py:381-462 | A drained relay emits deltas followed by exactly one terminal, the deltas concatenate to the partial text within the limit, and at most one read beyond the event limit is made. |
| ChatStream.CompletedExactly | workbench/chat_stream.py:395-483 | The outcome is completed if and only if a completed frame is read within the limits, the cancel flag unset at every check, with only accepted deltas and ignored frames before it; the partial text is then all their text. |
| ChatStream.CancelledExactly | workbench/chat_stream.py:415-434 | The outcome is cancelled if and only if some read is come to with the cancel flag set at the check before it, or at the check after it without that read or its frame raising: cancel wins over the frame just read and over the end of the stream, but not over an exception. Stated over script and schedule alone. |
| ChatStream.TimedOutExactly | workbench/chat_stream.py:415-421 | The outcome is timed out if and only if a read that is come to, and not cancelled before, runs into the deadline. |
| ChatStream.UnavailableExactly | workbench/chat_stream.py:395-447 | The outcome is unavailable if and only if such a read fails, is not understood or reports a failure, or, the flag unset during it, the stream stops or passes one of the limits. |
| ChatStream.TextIsDeltas | workbench/chat_stream.py:436-447 | Text and events are those of the delta frames: each adds its string, an empty one if it carries none. |
| ChatStream.UsageExactly | workbench/chat_stream.py:116-137 | A stream that ends at a completion reports its usage, input first: each count as given, or zero for one that is negative or no integer. |
| ChatStream.UsageWithoutCompletion | workbench/chat_stream.py:351-358 | A stream that did not complete reports usage if and only if a completion with usage is come to and read while the cancel flag is set during that read, or the read is one past the event limit; stated over script and schedule alone. The documentation says never. |
| ChatStream.CancelledWithUsage | workbench/chat_stream.py:403-434 | A cancelled stream that reports usage: a concrete script and schedule. |
| ChatStream.OverlimitWithUsage | workbench/chat_stream.py:395-447 | A never cancelled stream that ends unavailable at the event limit and reports usage: a concrete script. |
| ResponseLifecycle.MemoryResponseLifecycleStore.BeginResponse | workbench/response_lifecycle_store.py:342-369 | Beginning a response stores a fresh record or refuses and changes nothing. |
| ResponseLifecycle.MemoryResponseLifecycleStore.AdvanceResponse | workbench/response_lifecycle_store.py:371-440 | Advancing a record: every refusal changes nothing; otherwise state, usage, version, committed number and high-water mark move as stated. |
| ResponseLifecycle.MemoryResponseLifecycleStore.AllocateSeq | workbench/response_lifecycle_store.py:442-458 | The next number is one above the conversation's high-water mark, which it becomes. |
| ResponseLifecycle.BegunExactly | workbench/response_lifecycle_store.py:342-369 | A beginning is refused if and only if the actor has used the id or a name is out of bounds; otherwise a fresh record in progress is added. |
| ResponseLifecycle.AdvancedExactly | workbench/response_lifecycle_store.py:371-440 | An advance is accepted if and only if the record is in progress, the state known, the number above the committed one and in range, and there is anything to say; and what becomes of every field. |
| ResponseLifecycle.DrawnExactly | workbench/response_lifecycle_store.py:442-458 | A draw is refused if and only if there is no record or no number left; otherwise it gives the number after the highest. |
| ResponseLifecycle.RunKeeps | workbench/response_lifecycle_store.py:342-458 | Over any run of beginnings, advances and draws: no record disappears or changes owner, a settled record never changes again, versions and committed numbers only grow, and no record commits a number above its conversation's high-water mark. |
| ResponseLifecycle.DrawnOnce | workbench/response_lifecycle_store.py:442-458 | Whatever happens between two draws for one conversation, the later number is larger: no number is handed out twice. |
| AdvancedRuntime.RecordEvent | workbench/advanced_runtime.py:330-338 | One event draws one number; a delta also commits it as a heartbeat. |
| AdvancedRuntime.RunAdvancedStream | workbench/advanced_runtime.py:293-347 | The blocking runner's durable rows and result are those of `RunsTo`; a request that cannot be built is refused before the record is begun. |
| AdvancedRuntime.StreamAdvancedAttempt | workbench/advanced_runtime.py:350-414 | The drained streaming runner's are the same, a refused request included, so the two settle alike for every script; and it hands on every delta, in order. |
| AdvancedRuntime.SettleAttempt | workbench/advanced_runtime.py:465-552 | Settlement refines the outcome, consults the validator only for a completed stream, commits the terminal before it builds the trace, and reports each failure as such. |
| AdvancedRuntime.ClassifierIsTransparent | workbench/advanced_runtime.py:226-253 | The relay over the classifying transport does exactly what it does over the bare one. |
| AdvancedRuntime.MalformedExactly | workbench/advanced_runtime.py:555-563 | The state is malformed-stream if and only if a frame that is not a mapping was read. |
| AdvancedRuntime.CompleteExactly | workbench/advanced_runtime.py:97-563 | An attempt's turn is complete if and only if the relay completed cleanly and the validator, where one is consulted, accepted the text; the lifecycle record, the trace and the wire state say complete exactly when the turn does. |
| AdvancedRuntime.StateExactly | workbench/advanced_runtime.py:495-563 | Each of the seven states of an attempt by its own condition on script, schedule and validator. |
| AdvancedRuntime.ResultTells | workbench/advanced_runtime.py:97-156 | What each state means to the turn, the lifecycle record, the trace and the client, and the text, verdict and clamped usage that go with it. |
| AdvancedRuntime.NoResultExactly | workbench/advanced_runtime.py:435-552 | An attempt gives no result if and only if its request cannot be built, the validator raises on a completed text, or the trace is refused. |
| AdvancedRuntime.AttemptSettles | workbench/advanced_runtime.py:293-347 | With a fresh request id and room in the sequence, an attempt gives what it gives alone whatever else the store holds; a request that cannot be built leaves every row as it was; otherwise the record ends at the attempt's own terminal, committed at the number of its last event. |
| ParallelSiblings.Preflight | workbench/advanced_dispatch.py:138-173 | The preflight loop returns the selections, or the first refusal in the order of the checks. |
| ParallelSiblings.PreflightAcceptsExactly | workbench/advanced_dispatch.py:138-173 | A dispatch is let through if and only if it names between one and the declared number of routes, its request ids are distinct, every selection is allowed and the total output is within budget. |
| ParallelSiblings.PreflightReturns | workbench/advanced_dispatch.py:138-173 | An accepted preflight returns the selection of every route, in order; a refused one the first thing wrong. |
| ParallelSiblings.TotalIsSum | workbench/advanced_dispatch.py:157-172 | The total held against the budget is the sum of what the selections ask for. |
| ParallelSiblings.ForkSiblings | workbench/advanced_dispatch.py:204-212 | The forks are made one by one and stop at the first refusal. |
| ParallelSiblings.ForksAreDistinct | workbench/advanced_dispatch.py:204-212 | If all forks succeed they stand at consecutive sibling indices above every index in use. |
| ParallelSiblings.SiblingsSettle | workbench/advanced_dispatch.py:254-268 | Every sibling settles once, at its own attempt's status, without refusal; no other turn changes. |
| ParallelSiblings.SettleSiblings | workbench/advanced_dispatch.py:254-268 | The settling loop leaves exactly those turns. |
| ParallelSiblings.DispatchParallel | workbench/advanced_dispatch.py:176-282 | A refused preflight changes no row and no audit entry; otherwise the forks and their settlements are the only change to the conversation's turns. |
| AdvancedDispatch.AttemptsAreIsolated | workbench/advanced_dispatch.py:213-245 | For every interleaving of the attempts' store calls, from any rows: the numbers drawn are the next numbers of the conversation in the order they are drawn, hence unique and each attempt's own increasing; a finished attempt has the result it has alone, unless its request id is taken or invalid or the sequence runs out, and its record says its own terminal; and an attempt that gets its turns finishes. A fresh id and room in the sequence are all it needs (`FreshGivesAlone`). |
| ParallelSiblings.DispatchSettlesEachAlone | workbench/advanced_dispatch.py:201-282 | For every interleaving and any lifecycle rows, given that all forks succeed, the siblings have distinct indices and each settles, exactly once, at the terminal status of its own attempt's outcome: the one it has alone unless its request is refused or the sequence runs out. No other turn changes. |
| SharedDispatch.SiblingsAmongOthers | workbench/advanced_dispatch.py:204-268 | Whatever other requests, passes and crashes come between forks, attempts and settlements: as long as the history exists every fork made stands in it at its own index, and every sibling settled so far has its own thread's status. |
| SharedDispatch.SettlementRefusedExactly | workbench/advanced_dispatch.py:254-268 | The settling loop is stopped if and only if it comes to a sibling that no longer streams, or whose conversation is being deleted or gone; that step then changes nothing. |
| SharedDispatch.SettlesUndisturbed | workbench/advanced_dispatch.py:204-268 | If nobody advances one of the siblings, deletes their conversation or runs a system pass in between, every other request being free to come, no settlement is refused and every sibling ends at its own thread's status. |
| SharedDispatch.AttemptsLeaveStatuses | workbench/advanced_dispatch.py:213-268 | However the attempts interleave, what they leave is one terminal status for each sibling. |
| SendEndpoint.SendsAreSafe | workbench/conversation_api.py:1080-1177 | For every interleaving of sends, frame pulls, disconnects, refusals and other requests, each stream persists at most one assistant turn, with the text of just the frames it wrote on the wire, persists complete only if it pulled a completed terminal and then with the text of all its frames, what it persisted stays stored below its user turn with that status and the redacted text until purged or erased, the outcome the client is told is the one stored (or unavailable, if nothing could be), its wire numbers are 1, 2, 3, ..., and each actor's slot counter equals its live streams and stays within two. |
| SendEndpoint.CompleteAnswerIsWhole | workbench/conversation_api.py:1080-1177 | An answer persisted as complete is the whole one: the relay completed cleanly and the stored turn, unless purged, reads back as the redaction of everything the relay put out. |
| SendEndpoint.RunInv | workbench/conversation_api.py:981-997 | The invariant behind it holds after every sequence of steps, from every state that satisfies it. |
| SendEndpoint.SecondRefused | workbench/conversation_models.py:590-597 | Once a turn stands at index 0 below the user turn, a second append there is always refused. |
| SendEndpoint.PulledCompletedMeans | workbench/conversation_api.py:1094-1177 | A completed terminal is pulled only if the relay completed cleanly. |
| SendEndpoint.PartialTells | workbench/conversation_api.py:919-931 | A stream torn down early settles at what the relay had come to, and as cancelled if that was nothing or a completion nobody was told. |
| SendText.ContentBlocksAreLossless | workbench/conversation_api.py:900-916 | Every stored block is valid, and up to 64 blocks' worth of text, more than a stream may output, nothing is lost. |
| SendText.CollectMessages | workbench/conversation_api.py:876-890 | Exactly the complete, unpurged, non-empty turns become messages, in order. |
| SendText.MessagesAre | workbench/conversation_api.py:876-890 | A complete, unpurged user or assistant turn is a message with the text of all its blocks unless that is empty; no other turn is; and the messages of a history are those of its turns in order. |
| SendText.TextIsJoined | workbench/conversation_api.py:886 | The text of blocks is their texts one after the other. |
| SendText.CharsAreSummed | workbench/conversation_api.py:892-897 | The size of a window is the sum of the lengths of its messages. |
| SendText.HistoryMessages | workbench/conversation_api.py:876-897 | The window is the longest run of most recent messages within both bounds. |
| SendText.RecentContextSurvivesExactly | workbench/conversation_api.py:876-897 | The most recent message survives if and only if it alone is within the character bound; otherwise the whole window is empty. The documentation says it always survives. |
| SendText.OverlongTurnIsLost | workbench/conversation_api.py:892-897 | A valid complete user turn of one 16,001-character block: it is a message, and the window is empty. |
| CanonicalJson.EncodeInjective | workbench/contracts.py:1221-1240 | On its domain the encoder is injective: two values that encode have equal bytes if and only if they are the same value, the order of dict keys aside. |
| CanonicalJson.PrintInjective | workbench/contracts.py:1235-1240 | Printing a canonical value loses nothing: strings with their escapes, integers, lists and objects. |
| CanonicalJson.Utf8Injective | workbench/contracts.py:1240 | Neither does the UTF-8 encoding. |
| CanonicalJson.CanonSame | workbench/contracts.py:1238-1239 | Sorting the keys forgets exactly their order. |
| CanonicalJson.FieldsAscend | workbench/contracts.py:1238-1239 | The fields of a printed object stand in ascending order of their names. |
| CanonicalJson.BeforeMeans | workbench/contracts.py:1238-1239 | That order is by code points: the first differing character decides, and a name comes before any that continues it. |
| CanonicalJson.PrintedForms | workbench/contracts.py:1235-1240 | Lists and objects are printed with brackets, commas and colons and no spaces; the three literals as themselves. |
| CanonicalJson.PrintedNumbers | workbench/contracts.py:1235-1240 | Integers are printed in decimal, without leading zeros. |
| CanonicalJson.PrintedCharacters | workbench/contracts.py:1235-1240 | In strings the quote, the backslash and the control characters are escaped, in the short form where there is one, and nothing else is. |
| CanonicalJson.EncodedCharacters | workbench/contracts.py:1240 | The bytes of a character are those of UTF-8. |
| DigestPreimages.PrefixFree | workbench/contracts.py:1199-1218 | No kind's prefix, whatever follows it, is the beginning of another kind's input. |
| DigestPreimages.PreimagesAgreeExactly | workbench/contracts.py:1429-1435 | A prefix and an encoded payload agree as bytes if and only if kind and payload do. |
| CanonicalPayload.DigestInputsAgreeExactly | workbench/contracts.py:1268-1435 | Two resources are hashed over the same bytes if and only if they are of the same kind and their normalised payloads are the same value. |
| DigestEvidence.SameDigestExactly | workbench/contracts.py:1268-1435 | For every kind and any two resources of it: they are hashed over the same bytes if and only if, the fields a digest does not cover aside, they have the same fields at values that count as the same, which is the same items in any order for a list the documentation calls a set, a deliver intent's selections and a plugin allowlist with its tool lists included, and the same value for everything else. Both tables are written out field by field. |
| DigestEvidence.SetsAscend | workbench/contracts.py:1268-1426 | Such a list is hashed in ascending order of its keys, part by part and by code points. |
| CanonicalPayload.NormalizeIsIdempotent | workbench/contracts.py:1268-1426 | Normalising a normalised payload changes nothing, for every kind. |
| CanonicalPayload.NormalizeIgnores | workbench/contracts.py:1268-1426 | The normalised payload does not change when an excluded field is edited, or when any set-like list with distinct sort keys is permuted: top-level lists, a deliver intent's selections, a plugin allowlist and each entry's tools. |
| CanonicalPayload.PluginDigestIsExact | workbench/contracts.py:1399-1435 | A plugin is hashed over all of it: exchanging the value of any field but its digest, its tool order included, keeps the bytes exactly when the new value is the same one. |
| CanonicalPayload.CatalogsByDigestToo | workbench/contracts.py:1366-1380 | For every list of a deliver intent's catalogs, the code's sort by provider and digest is ascending by provider, and gives the list the documented sort by provider alone would give if and only if no two catalogs of one provider stand with the larger digest first. |
| CanonicalPayload.CatalogsOfOneProvider | workbench/contracts.py:1366-1380 | Two such catalogs, given either way round: the code makes one list of both, the documented sort keeps two. |
| CanonicalPayload.NormalizeKeepsDictionaries | workbench/contracts.py:1268-1426 | No dict of a normalised payload holds a key twice. |
| BridgeCursor.NewEvents | workbench/bridge.py:400-422 | The loop over the file position returns the items of exactly the non-blank JSON lines from the offset on, each with the offset after it. |
| BridgeCursor.TailExactly | workbench/bridge.py:411-420 | Of what follows a JSON value exactly JSON's own white space is ignored. |
| BridgeCursor.DeliveredInOrder | workbench/bridge.py:1228-1235 | Over any run of appends, polls, crashes and exceptions, from any log, malformed and torn lines included, the deliveries with repeats dropped are, in order, the first object events of the log, and each interruption costs at most one repeat. |
| BridgeCursor.OrderKeptExactly | workbench/bridge.py:1228-1235 | What it asks of the writer is what the order needs: for every parser that, as JSON does, reads no object followed by more text, and every run whose last delivery is of a line not yet finished, the deliveries stay the first objects of the log if and only if that line is finished with white space. |
| BridgeCursor.TornAfterReading | workbench/bridge.py:400-426 | An input: a line read as an object before it was finished, and then torn by another record, is delivered although it is no event of the log. |
| BridgeCursor.FinishedPollDelivered | workbench/bridge.py:400-426 | An uninterrupted poll delivers every object event of its snapshot, one in an unfinished last line included. |
| BridgeCursor.Split | workbench/bridge.py:400-426 | The events of any log are those before a committed cursor and those read from it, a cursor inside an unfinished line included. |
| ConfigurationTransfer.Classify | workbench/configuration_transfer.py:217-318 | The pass over an envelope gives every entry its verdict and fills the category lists accordingly, repeats noticed. |
| ConfigurationTransfer.EveryEntryOnce | workbench/configuration_transfer.py:217-318 | Each entry lands in exactly one of the seven categories, and they list nothing else. |
| ConfigurationTransfer.CategoriesExactly | workbench/configuration_transfer.py:217-318 | Each category lists exactly the entries of its verdict. |
| ConfigurationTransfer.VerdictExactly | workbench/configuration_transfer.py:217-318 | When an entry is repairable, skipped, unavailable, without effect, created, changed or reset, each on the fields of the entry, its descriptor and what is stored. |
| ConfigurationTransfer.EffectiveExactly | workbench/models.py:1909-1985 | The value a setting has: the stored one or the default, the default again or none for a reference that is not there, and no number above the ceiling. |
| ConfigurationTransfer.MemoryPreferenceStore.ApplyBatch | workbench/preference_store.py:361-438 | A batch is refused with the first refusal and changes nothing, or commits every operation over the version it was checked against. |
| ConfigurationTransfer.BatchExactly | workbench/preference_store.py:361-438 | A batch is let through if and only if no two operations name one setting, each names a known one in its own scope that may be written, each value fits, and every expected version is the current one. |
| ConfigurationTransfer.BatchCommits | workbench/preference_store.py:361-438 | Then each setting holds what its operation says, one version on, and no other setting changes. |
| ConfigurationTransfer.ImportApply | workbench/configuration_transfer.py:326-366 | An import is refused whole when any entry is repairable or the batch is refused, and otherwise commits its planned operations. |
| ConfigurationTransfer.ReimportIsIdle | workbench/configuration_transfer.py:217-366 | After an import, previewing the same envelope finds nothing to create, change or reset; every other entry keeps its category. |
| ConfigurationTransfer.FreshPlanApplies | workbench/configuration_transfer.py:430-459 | At the previewed versions a plan is refused if and only if it would write a setting that may not be written. |
| ConfigurationTransfer.PreviewedPlanApplies | workbench/configuration_transfer.py:326-366 | An import at the versions of an earlier preview is let through if and only if every setting it would write may be written and still has the previewed version. |
| ConfigurationTransfer.MovedUnseenExactly | workbench/configuration_transfer.py:430-459 | Over any history of batches a setting has its previewed version and another value if and only if it was reset and then set exactly as often as it had been, the last time to another value. The source says that a store that moved since the preview fails closed. |
| ConfigurationTransfer.PreviewedImportFinds | workbench/configuration_transfer.py:326-366 | So an import let through at previewed versions finds the previewed value in each setting it writes, except in one reset and set again in that way. |
| ConfigurationTransfer.StalePlanGoesThrough | workbench/configuration_transfer.py:326-366 | An input: previewed at version 1, reset, set again; the import is let through and overwrites a value nobody previewed. |
| ConfigurationTransfer.Export | workbench/configuration_transfer.py:179-213 | The export is the personal settings followed by the project settings. |
| ConfigurationTransfer.ExportedAre | workbench/configuration_transfer.py:179-213 | The export of a scope holds exactly the portable settings stored there, with their values. |
| ConfigurationTransfer.ExportIsImportable | workbench/configuration_transfer.py:179-366 | No entry of an export is repairable to whoever imports it, as long as the stored values satisfy their descriptors. |
| ConfigurationTransfer.ImportedExportAgrees | workbench/configuration_transfer.py:179-366 | Importing an export as an actor with no overrides, those of a project both share aside, gives every exported setting whose reference is available the same effective value. |
| ConfigurationTransfer.ResetIsScoped | workbench/configuration_transfer.py:370-426 | A reset removes exactly the portable overrides of one namespace and changes no other record. |
| AdvancedRoutes.SupportedControls | workbench/advanced_routes.py:465-487 | The controls are accepted if and only if their number is in range, each is well formed and no name repeats; every default is then within its own bounds. |
| AdvancedRoutes.ControlExactly | workbench/advanced_routes.py:380-462 | When one configured control is well formed, and what is published of it. |
| AdvancedRoutes.GrammarsExactly | workbench/advanced_routes.py:58-64 | The grammars of route ids, profiles, versions, digests and control names, written out. |
| AdvancedRoutes.DiscoverRoutes | workbench/advanced_routes.py:519-573 | Discovery publishes the configured routes, field by field and in order, or nothing: it refuses if and only if an id repeats or a route does not fit, that is has an undeclared or missing key, another provider, an identifier outside its grammar, a refused name, malformed controls or a flag that is not boolean. |
| AdvancedRoutes.ValidateSelection | workbench/advanced_routes.py:673-736 | The selection loop gives the verdict of `Select`, first refusal first. |
| AdvancedRoutes.AcceptedExactly | workbench/advanced_routes.py:673-736 | What becomes of one submitted control on a reviewed route: refused as unsupported, of the wrong type, out of bounds, not among its values or owned by the policy, or accepted with its provenance. |
| AdvancedRoutes.MalformedExactly | workbench/advanced_routes.py:643-670 | A submission that is no mapping or list, states an unlisted provenance or repeats a name is malformed. |
| AdvancedRoutes.RouteRefusedExactly | workbench/advanced_routes.py:626-736 | A selection is refused for its route if and only if no route has the id or the pinned digest of the route, or else of its profile, is another. |
| AdvancedRoutes.SelectedInOrder | workbench/advanced_routes.py:735 | The controls of a selection stand in ascending order of their names. |
| AdvancedRoutes.PermutationSelectsSame | workbench/advanced_routes.py:714-736 | Every permutation of an accepted submission, in list form or by name, gives the same selection. |
| AdvancedRoutes.ResubmissionIsIdentity | workbench/advanced_routes.py:323-328 | Re-validating a selection's submitted controls returns the same selection. |
| AdvancedRoutes.CheckBranch | workbench/contracts.py:1733-1777 | The branch check accepts exactly when every submitted control is declared, within its declared bounds, and not overriding a policy-owned one. |
| AdvancedRoutes.ValidatorsAgree | workbench/contracts.py:1754-1777 | On every reviewed route the selection validator and the branch check agree on submissions that state an allowlisted provenance and repeat no name. |
| AdvancedRoutes.DiscoveredSelectionPasses | workbench/advanced_routes.py:519-736 | From configuration to branch: a selection on routes that discovery published is of the route asked for, at the pinned digests, and passes the control checks of a branch with that route's capability. |
| AdvancedRoutes.SelectionPassesContract | workbench/advanced_routes.py:183-192 | Every selection made on a reviewed route, projected as the route capability, passes the branch's control checks. |

## Left out

- Conversation search, its index and receipts: a separate service over the same rows.
- Ephemeral conversations: a create with a fixed policy, an easy member.
- Several clock readings inside one operation are one or two parameters, and fresh ids are parameters assumed unused; the refusal of naive datetimes is not modelled.
- The audit trail is not part of `Rows`: every operation returns the entries it appends, and the store object appends them. The trail is never read back by the modelled operations.
- ConversationStore.MemoryConversationStore.RecoverStreamingTurns: the dict of histories is visited in the order of the conversations, which is its insertion order as long as the store itself has filled it.
- HMAC and SHA-256: a content fingerprint is an arbitrary function of the content for one key, and digests are compared by the bytes they are computed over.
- DigestEvidence.SameDigestExactly: asks that the items of a list that counts as a set have different keys, all strings or missing, as the contracts' own validators do; of two items with one key the order counts.
- Tags are sets: the original's sorted tuple of unique tags carries the same information.
- ChatStream.ChatStreamRelay.Stream: opening the transport happens outside the relay's guard and is assumed not to raise.
- AdvancedRuntime.RunAdvancedStream: the relay is drained before the lifecycle calls are made, what the transport does being independent of them; the same holds for the streaming runner, and both are taken as drained to the end.
- Building the trace of an attempt is reduced to whether it is refused; usage latency is a parameter.
- The lifecycle store's audit, snapshots, reconnects and restart recovery.
- The bounds on prompt, instructions and mode that building an Advanced request checks are one flag of an attempt.
- SendEndpoint.SendsAreSafe: a refusal by the lifecycle store is a free choice at each call, and the streaming body is taken to have started; a response that never starts streaming is not modelled.
- The single-run Advanced endpoint and the dispatch endpoint's own frame multiplexing: the same slot and frame protocol again.
- CanonicalJson.EncodeInjective: Python's limits on recursion depth and on the digits of an integer are not modelled.
- A plain `sorted` of a list that holds other things than strings is taken as refused; Python accepts some such lists. A field mutated while another reference to it is held is not modelled: payloads are values.
- BridgeCursor.DeliveredInOrder: asks of the writer that a line a poll has already read as an object is finished with white space only; for a line already delivered that is exactly what the order needs (`BridgeCursor.OrderKeptExactly`). Carriage returns as line ends, reads that stop inside a character, log truncation and partial cursor writes are not modelled, and the event id fallback is not part of an event.
- Configuration envelopes' shape checks, redaction and the transfer audit; what a typed value may be is a parameter.
- AdvancedRoutes.DiscoverRoutes: the rule for display names is a parameter, and the shape of one configured control a flag; parsing the configuration text and the drift-repair view are not modelled.
- The JSON Schema part of `validate_advanced_branch`: only its cross-field control rules.
- Deliver start receipts (`workbench/deliver.py`): a map under one lock, at most one receipt per key, which would add only easy members.
- HTTP routing, status codes, request models, the front end, Git and agent subprocesses, sockets and token brokers.
