# Models of nu-agent

nu-agent is a runtime for language-model agents. Around the model it runs an A2A task server and client, an ACP editor
bridge, a transcript renderer, a peer mesh, a credential vault, an embedded database and a configuration loader. This
project models the state machines and incremental algorithms inside these parts and proves what they promise.

- **Task store** (`Tasks`, `Locks`, `TaskStore`, `TaskRuns`, `Listing`). The store's maps are fields of a class whose
  methods take the source's locks in the source's order; each method is proved against a function from the old store to
  the new one. On those functions rest the theorems about whole runs: task life cycles, idempotency keys, update
  sequences, paged listing and the client that walks the pages. The lock log of every method is one of the programs
  proved free of deadlock for any number of threads.
- **Streams** (`Delivery`, `Utf8`, `Text`, `Sse`, `Journey`, `Notices`, `MarkdownBuffer`). One subscriber's bounded
  channel over whole runs; the SSE subscriber over arbitrary chunks, joined with store, channel and subscription handler
  into one theorem from the stored task to the client's answer, and into its opposite for a channel without room; the
  store's operations split into change and notices, so that writers can overtake one another; and the markdown buffer
  that rescans and releases only closed prefixes.
- **ACP bridge** (`UnifiedDiff`, `Translator`, `Permission`, `Drain`). Event translation with call-id matching, the
  diff splitter and the printer it undoes, the permission bridge, and the loop that drains two channels while a turn runs.
- **Layout** (`Layout`). The planner's rectangles and the plain backend that paints them.
- **Mesh** (`PeerSweep`). Health sweeps interleaved with discovery events between any two awaits.
- **Secrets, storage, configuration** (`VaultBackends`, `IndexRaces`, `Vault`, `StorageEngine`, `CmdRefs`). Among them
  the keychain's registry index under any interleaving of the processes that share it.
- `Options` and `Sequences` hold shared datatypes and sequence facts.

Foreign parts are parameters: JSON and TOML are codecs that are only assumed to read back what they wrote, new UUIDs are
ids not in the store, clocks are arbitrary readings, the network is any cutting of bytes into chunks, the server's wire
writes an event as one data line of JSON that reads back, word wrapping and markdown rendering give each entry its rows
for a width, and processes, transports and clients are arbitrary functions of the calls made to them.

Where the code differs from its own documentation the model follows the code, and a lemma says exactly when the
documented property holds:

- `assign_update_seq` claims that a listing never shows a new status with a stale sequence; `complete_task` does not
  stamp, so the claim holds exactly for tasks not last changed by completion (`TaskRuns.SequenceIsStaleIffCompleted`),
  and of two tasks the one changed last is listed first exactly when its clock reading or its stamp is later
  (`Listing.ChangedLastIsListedFirstIff`, `Listing.CompletionIsListedLate`).
- The planner claims that gap and paddings add up to the table's spacing for every pair; with the paddings in use this
  fails exactly for a padded tool entry before a tool entry (`Layout.SpacingIsTheTablesIff`). It claims that the frame's
  first and last rows are content rows; the first one is exactly when the entries before the first entry with content
  are not separated either, and likewise at the end (`Layout.EdgesAreContentIff`); an empty message in front of another
  message fails it (`Layout.EmptyMessageLeavesBlankRows`).
- A sweep promises to skip the agent's own entry; the entry stays as it is exactly when no fetch that comes back is
  about its name and answered or the third failure (`PeerSweep.OwnEntrySurvivesIff`, `PeerSweep.OwnEntryIsIntactIff`,
  with runs that evict and that overwrite it). It promises to refresh entries in place; that holds exactly for peers
  that did not move during the fetch (`PeerSweep.RefreshIsInPlaceIff`).
- Every released markdown prefix is closed, a released piece need not be: it is closed exactly when no marker run goes
  across the cut, or the run is one of at most two tildes, or of a fence marker cut into equal halves of three or more
  (`MarkdownBuffer.PieceIsClosedIff`).
- A subscriber with a full channel loses events: it is served completely exactly when no offer met a full queue
  (`Delivery.DeliveryIsCompleteIff`), the end of the task gets into the channel exactly when there is room for all that
  the ending step publishes (`Delivery.EndIsQueuedIff`), and once it is lost the client gets no task at all
  (`Journey.ClientWithFullChannelGetsNoTask`).
- The subscription handler resends the task with all its artifacts before it closes the stream; this client has its
  answer by then and never reads it (`Journey.LastSnapshotGoesUnread`). What it missed stays missing: an artifact that
  repeats an id (`Journey.SubscriberSeesTheStoredTask`), and one whose notice comes after the notice of the task's end
  (`Notices.ArtifactArrivesIffNotOvertaken`).
- Splitting a diff undoes printing only without carriage returns and header look-alikes (`UnifiedDiff.SplitUndoesPrint`,
  `UnifiedDiff.OldSideIsAbsentIff`).
- A task-id prefix that resolves remotely is unique only among the first thousand tasks
  (`Listing.RemoteResolutionIsUniqueIff`).
- The comment in the keychain backend tolerates a lost index update. Without an index write between another process's
  reading and writing, the index agrees with the store exactly when for each key the last entry access and the last
  index access are of one kind (`IndexRaces.UndisturbedIndexAgreesIff`), which processes with keys of their own ensure
  (`IndexRaces.OwnKeysLeaveIndexInOrder`).
- No vault operation ever stores a bearer token that `resolve_bearer` could find (`Vault.NoOperationStoresBearers`).

`dafny verify dfyconfig.toml` checks the project.

## Model

| member | source | states |
|---|---|---|
| Tasks.PathsFromSubmitted | crates/agnt-a2a/src/task_store/memory.rs:739-753 | Every chain of allowed transitions from Submitted stays in the documented states, is terminal only at its end, and passes through Working right before it completes, fails or asks for input |
| Tasks.AllowedTransitions | crates/agnt-a2a/src/task_store/memory.rs:739-753 | The ten allowed transitions, pair by pair, and the four terminal states, which none of them leaves |
| Locks.ReplayBracket | crates/agnt-a2a/src/task_store/memory.rs:190-201 | A lock taken around a piece that returns what it held gives back exactly the locks held before |
| Locks.RunsKeepTheInvariant | crates/agnt-a2a/src/task_store/memory.rs:24-31 | Under any schedule of any threads, writers exclude everyone and every thread still climbs in rank |
| Locks.NoWaitCycle | crates/agnt-a2a/src/task_store/memory.rs:191-200 | No chain of waits, however long, closes into a cycle |
| Locks.SomeThreadMoves | crates/agnt-a2a/src/task_store/memory.rs:191-200 | From any thread with work left, following the waits leads to a thread that can take its step, even when readers queue behind writers |
| Locks.DeadlockFree | crates/agnt-a2a/src/task_store/memory.rs:191-200 | Any number of threads with programs that climb in rank never get stuck |
| Locks.SchedulesAreFinite | crates/agnt-a2a/src/task_store/memory.rs:191-200 | Every schedule takes exactly one step per lock step, so all operations end |
| Locks.OperationsAreDisciplined | crates/agnt-a2a/src/task_store/memory.rs:184-670 | Every store operation, those on push configurations included, along every data-dependent branch acquires idempotency_keys, subscriptions, push_configs, tasks, update_seq strictly upward, never a held one, and returns them all |
| Locks.WhatIsLocked | crates/agnt-a2a/src/task_store/memory.rs:141-231 | Step by step: each lookup, creation, listing and registration locks what it reads or writes, stamps under the task map's lock, and a keyed creation holds the key lock throughout |
| Locks.WhatAChangeLocks | crates/agnt-a2a/src/task_store/memory.rs:453-654 | A change locks the task map for writing, stamps under it or not, and notifies after it; a refused one only looks |
| Locks.WhatANoticeLocks | crates/agnt-a2a/src/task_store/memory.rs:234-379 | A notice locks the subscribers for reading, for writing too when one refused, then the webhooks and, if there are any, the task map |
| Locks.StoreIsDeadlockFree | crates/agnt-a2a/src/task_store/memory.rs:184-670 | Any number of clients performing any store operations under any schedule: while one has work left, one can move |
| TaskStore.InMemoryTaskStore.constructor | crates/agnt-a2a/src/task_store/memory.rs:33-44 | An empty store with all locks free |
| TaskStore.InMemoryTaskStore.GetTask | crates/agnt-a2a/src/task_store/memory.rs:440-447 | The stored task or TaskNotFound, under the task map's read lock |
| TaskStore.InMemoryTaskStore.AssignUpdateSeq | crates/agnt-a2a/src/task_store/memory.rs:664-667 | The task gets the next sequence number and nothing else changes |
| TaskStore.InMemoryTaskStore.CreateTask | crates/agnt-a2a/src/task_store/memory.rs:386-411 | A new Submitted task is stored and stamped; the whole new store and the lock steps |
| TaskStore.InMemoryTaskStore.CreateTaskWithIdempotency | crates/agnt-a2a/src/task_store/memory.rs:418-437 | A known key returns its task and changes nothing, any other creates, stamps and records the key |
| TaskStore.InMemoryTaskStore.CreateTaskAndRegister | crates/agnt-a2a/src/task_store/memory.rs:141-201 | The trait's idempotent creation makes the same store and reply as the inherent one and only adds a subscriber that is gone at return |
| TaskStore.InMemoryTaskStore.Subscribe | crates/agnt-a2a/src/task_store/memory.rs:212-220 | A new open channel is registered for the id, and whether the task exists is reported |
| TaskStore.InMemoryTaskStore.PruneSubscriptions | crates/agnt-a2a/src/task_store/memory.rs:223-231 | Closed channels are dropped, and the entry with its last one |
| TaskStore.InMemoryTaskStore.NotifySubscribers | crates/agnt-a2a/src/task_store/memory.rs:234-290 | Every subscriber with room gets the event at its queue's end; refusing ones lead to pruning; lock steps per branch |
| TaskStore.WhatANoticeFinds | crates/agnt-a2a/src/task_store/memory.rs:234-262 | A notice meets a refusal exactly when a channel of the task is closed or has 64 events waiting |
| TaskStore.InMemoryTaskStore.TrySendAll | crates/agnt-a2a/src/task_store/memory.rs:241-247 | Each sender is offered the event once, and the result says whether one refused |
| TaskStore.InMemoryTaskStore.NotifyPushConfigs | crates/agnt-a2a/src/task_store/memory.rs:350-379 | The lock steps of the webhook lookup, with and without webhooks |
| TaskStore.InMemoryTaskStore.CreatePushConfig | crates/agnt-a2a/src/task_store/memory.rs:297-316 | The new webhook joins the end of the task's list, under the write lock |
| TaskStore.InMemoryTaskStore.GetPushConfig | crates/agnt-a2a/src/task_store/memory.rs:319-330 | The first webhook of the task with this id, or None |
| TaskStore.InMemoryTaskStore.ListPushConfigs | crates/agnt-a2a/src/task_store/memory.rs:333-336 | The task's webhooks in order, none for an unknown task |
| TaskStore.InMemoryTaskStore.DeletePushConfig | crates/agnt-a2a/src/task_store/memory.rs:339-344 | Every webhook of the task with this id goes, all others stay in order |
| TaskStore.InMemoryTaskStore.UpdateStatus | crates/agnt-a2a/src/task_store/memory.rs:453-480 | An allowed transition replaces the status, stamps and notifies; anything else is refused and leaves the store as it was |
| TaskStore.InMemoryTaskStore.AddArtifactTo | crates/agnt-a2a/src/task_store/memory.rs:485-495 | The artifact is appended and announced, in any state, without a stamp |
| TaskStore.InMemoryTaskStore.CompleteTask | crates/agnt-a2a/src/task_store/memory.rs:586-631 | From Working only, and without a stamp: the artifacts gain one with the given id, name `result` and the result text as its only part, the status is Completed at the given time with the success message, and both are announced in that order |
| TaskStore.InMemoryTaskStore.AppendHistoryTo | crates/agnt-a2a/src/task_store/memory.rs:636-654 | The message joins the history unless the task is terminal |
| TaskRuns.RunKeepsInv | crates/agnt-a2a/src/task_store/memory.rs:386-670 | Over every run: ids match their keys, each task has a sequence number of its own below the counter, idempotency keys name stored tasks and no two the same |
| TaskRuns.RefusedIff | crates/agnt-a2a/src/task_store/memory.rs:453-654 | An operation on a task is refused exactly when the task is unknown, the transition is not allowed, or a message comes to a terminal task, with that error, and then nothing changes |
| TaskRuns.CreatedAs | crates/agnt-a2a/src/task_store/memory.rs:386-437 | A created task is Submitted at the given time with the caller's context, parent and metadata, no history and no artifacts, and gets the next number; a key in use creates nothing, any other is recorded with the task |
| TaskRuns.StepEvolves | crates/agnt-a2a/src/task_store/memory.rs:453-654 | One operation moves a task along an allowed transition or not at all, keeps its identity, only grows its artifacts, and freezes a terminal task's status and history |
| TaskRuns.TasksEvolve | crates/agnt-a2a/src/task_store/memory.rs:453-654 | The same over whole runs: no task disappears, terminal is for good |
| TaskRuns.TaskIsTheSumOfItsChanges | crates/agnt-a2a/src/task_store/memory.rs:453-654 | Over every run a task holds the artifacts and messages it had and then, in order, those of every accepted operation on it, and the status of the last change |
| TaskRuns.TraceIsPath | crates/agnt-a2a/src/task_store/memory.rs:453-654 | The states a task goes through over any run form a path of allowed transitions from Submitted to its present state |
| TaskRuns.TaskLifecycle | crates/agnt-a2a/src/task_store/memory.rs:739-753 | From an empty store: Completed, Failed and InputRequired tasks were Working right before, and no terminal state was left |
| TaskRuns.LateTurnCannotRevive | crates/agnt-cli/src/mode/mod.rs:210-224 | The outcome event of a turn that ends after its task is terminal changes nothing in the store and is refused |
| TaskRuns.OneTaskPerKey | crates/agnt-a2a/src/task_store/memory.rs:141-201 | Of two calls with one key in any run, each inherent or through the trait, the later returns the earlier one's task |
| TaskRuns.CreatesIffFirst | crates/agnt-a2a/src/task_store/memory.rs:418-437 | A keyed call creates a task exactly when no earlier call used its key |
| TaskRuns.KeyTableIsComplete | crates/agnt-a2a/src/task_store/memory.rs:418-437 | The final key table records for every keyed call the task that call returned |
| TaskRuns.DistinctKeysDistinctTasks | crates/agnt-a2a/src/task_store/memory.rs:418-437 | Different keys never share a task |
| TaskRuns.SequenceIsStaleIffCompleted | crates/agnt-a2a/src/task_store/memory.rs:660-667 | Over every run sequence numbers order tasks by their last stamp, and a task's stamp is its last status change exactly when that was no completion |
| TaskRuns.ClockOrdersChanges | crates/agnt-a2a/src/task_store/memory.rs:453-480 | With a clock that does not run backwards, later status changes carry later or equal timestamps |
| Listing.BeforeIsStrict | crates/agnt-a2a/src/task_store/memory.rs:535-545 | Timestamp descending, sequence descending, id ascending is a strict total order on tasks with different ids |
| Listing.OrderOfTwo | crates/agnt-a2a/src/task_store/memory.rs:535-545 | The later timestamp first, then the later stamp, a stamp before none, and of equal ones the id that is smaller in dictionary order |
| Listing.SortedIsUnique | crates/agnt-a2a/src/task_store/memory.rs:535-545 | A set of tasks has one sorted order |
| Listing.ListingIsUnique | crates/agnt-a2a/src/task_store/memory.rs:521-545 | A store and a filter have one listing, whatever order the hash map enumerates in |
| Listing.FilteredListing | crates/agnt-a2a/src/task_store/memory.rs:521-533 | A listing for a state and a context holds exactly the tasks of the full listing in that state and of that context, in the same order |
| Listing.ListTasksFiltered | crates/agnt-a2a/src/task_store/memory.rs:514-565 | The returned page is the page at the cursor of that one listing, with the lock steps of a listing |
| Listing.Paginate | crates/agnt-a2a/src/task_store/memory.rs:547-565 | Dropping up to the cursor, truncating and naming the last id gives the page |
| Listing.PageAfter | crates/agnt-a2a/src/task_store/memory.rs:547-565 | The page after a token starts right behind the task the token names |
| Listing.UnknownCursorStartsOver | crates/agnt-a2a/src/task_store/memory.rs:547-553 | A cursor that names no listed task gives the first page |
| Listing.ServerServesAtMostAHundred | crates/agnt-a2a/src/server/handlers/task.rs:38-48 | A page has at most a hundred tasks; a larger size is answered as a hundred, a smaller one as asked |
| Listing.CollectIsPrefix | crates/agnt-a2a/src/task_store/memory.rs:547-565 | Following tokens over an unchanged store yields the listing's prefix of as many tasks as fit the pages, none missing, none twice |
| Listing.WalkIsCompleteIffPagesHoldTasks | crates/agnt-a2a/src/task_store/memory.rs:547-565 | Following tokens until none is left yields the whole listing for every listing exactly when a page holds at least one task |
| Listing.ListAllTasks | crates/agnt-a2a/src/client/functions.rs:162-193 | The client's loop is the page walk capped at ten requests, for any server, errors included |
| Listing.ClientSeesFirstThousand | crates/agnt-a2a/src/client/functions.rs:149-193 | Client and store together: all tasks in order up to a thousand, exactly the first thousand otherwise |
| Listing.ResolvesIffUnique | crates/agnt-a2a/src/tools/resolve.rs:16-61 | A prefix resolves to an id exactly when that id is the only listed one it matches |
| Listing.AnswersOfTheResolver | crates/agnt-a2a/src/tools/resolve.rs:16-61 | Full UUIDs are passed on; other characters, fewer than eight of them and a failed listing are reported in that order; then no match, or the matching tasks with their states |
| Listing.MatchesLetterByLetter | crates/agnt-a2a/src/tools/resolve.rs:41-45 | A prefix matches an id letter by letter, small and capital letters alike |
| Listing.RemoteResolutionIsUniqueIff | crates/agnt-a2a/src/tools/resolve.rs:37-61 | A prefix resolved over the network is unique in the store exactly when no task past the first thousand matches it |
| Listing.RemotePrefixResolvesIffUnique | crates/agnt-a2a/src/tools/resolve.rs:16-61 | Up to a thousand tasks a prefix resolves over the network to an id exactly when of all stored tasks it matches that one alone |
| Listing.NewestChangeFirst | crates/agnt-a2a/src/task_store/memory.rs:535-545 | With a clock that does not run backwards, tasks not completed at once are listed by last status change, newest first |
| Listing.ChangedLastIsListedFirstIff | crates/agnt-a2a/src/task_store/memory.rs:535-545 | For all pairs, completed or not: the task changed last is listed first exactly when its timestamp or its last stamp is later, and only a completion can miss both |
| Listing.CompletionIsListedLate | crates/agnt-a2a/src/task_store/memory.rs:586-630 | A run in which the task changed last is listed second, because completion did not stamp it |
| Sse.FramesAppend | crates/agnt-a2a/src/client/a2a_client.rs:154-163 | Framing what has arrived and then the rest equals framing all bytes at once |
| Sse.FramesOfJoin | crates/agnt-a2a/src/client/a2a_client.rs:161-163 | Framing recovers every sequence of frames joined by blank lines, and the unfinished rest |
| Sse.JoinOfFrames | crates/agnt-a2a/src/client/a2a_client.rs:161-163 | Joining the frames and the rest gives back every byte |
| Sse.FoldAppend | crates/agnt-a2a/src/client/a2a_client.rs:172-250 | Folding events in two parts is folding them at once |
| Sse.Windows | crates/agnt-a2a/src/client/a2a_client.rs:161 | The scan finds the first blank line or reports none |
| Sse.ReadData | crates/agnt-a2a/src/client/a2a_client.rs:165-170 | The line loop keeps the last data line of a frame |
| Sse.DataIsTheLast | crates/agnt-a2a/src/client/a2a_client.rs:165-170 | Of all lines of an event the last one behind `data: ` is its data |
| Sse.OneDataLine | crates/agnt-a2a/src/client/a2a_client.rs:165-175 | An event of one data line, finished or not, carries exactly the JSON behind `data: ` |
| Sse.OneOtherLine | crates/agnt-a2a/src/client/a2a_client.rs:165-175 | An event of one other line carries nothing |
| Sse.FollowingKnowsTheNames | crates/agnt-a2a/src/client/a2a_client.rs:176-238 | While it follows, the client knows the task id and the context the server named last |
| Sse.WhatEndsTheTask | crates/agnt-a2a/src/client/a2a_client.rs:172-250 | The answer is a terminal snapshot as it is, or a terminal status under the id named last or else the requested one, in the context named last, with the artifacts collected so far |
| Sse.FollowStream | crates/agnt-a2a/src/client/a2a_client.rs:134-259 | The answer, task or error, is a function of the concatenated bytes and of how the stream ended, however the bytes were cut into chunks; without a task it is the error of the connection or, at a plain end, an error of its own |
| Sse.SubscribeTask | crates/agnt-a2a/src/client/a2a_client.rs:93-259 | Only a successful response is read as a stream; 404 is TaskNotFound whatever the body, any other status is the error in its body or the status and the body, never a closed stream |
| Delivery.StepDelivers | crates/agnt-a2a/src/task_store/memory.rs:212-290 | One operation of any kind leaves an open channel registered, with the queue its events and takes make of it |
| Delivery.NoticeMeetsChannel | crates/agnt-a2a/src/task_store/memory.rs:223-290 | A notice reaches every open channel of the task with fewer than 64 events waiting, leaves a full one as it is and takes out a closed one, the entry with the last, and touches no other task |
| Delivery.SubscribeOpensAChannel | crates/agnt-a2a/src/task_store/memory.rs:212-220 | A subscription adds an open empty channel and leaves all others as they are |
| Delivery.HangUpClosesOneChannel | crates/agnt-a2a/src/task_store/memory.rs:223-231 | A receiver that goes closes its own channel and no other |
| Delivery.PruningKeepsTheOpen | crates/agnt-a2a/src/task_store/memory.rs:223-231 | Pruning keeps every open channel with its queue, takes out the closed ones, and the entry with the last |
| Delivery.DeliveryIsCompleteIff | crates/agnt-a2a/src/task_store/memory.rs:234-290 | Over every run, with the receiver taking events at any time: received and waiting are what was waiting and what was published, in order, exactly when no offer met a full queue |
| Delivery.ReceivedByNow | crates/agnt-a2a/src/task_store/memory.rs:234-290 | A receiver that took as many events as were published by some moment took exactly those, first and in order, if the channel was never full until then |
| Delivery.EndIsQueuedIff | crates/agnt-a2a/src/task_store/memory.rs:241-247 | The end of a task gets into the channel exactly when there is room for everything the ending step publishes; with one free slot a completion leaves its result there and loses the end |
| Delivery.FullChannelLosesTheEnd | crates/agnt-a2a/src/task_store/memory.rs:241-247 | With a full channel a completion succeeds and changes no subscriber |
| Journey.StepIsFolded | crates/agnt-a2a/src/server/handlers/subscribe.rs:71-129 | The events one store operation publishes change the client's view as the operation changes the task |
| Journey.ReplayIsIgnored | crates/agnt-a2a/src/client/a2a_client.rs:239-246 | Events that the snapshot already contains leave the client where the snapshot put it |
| Journey.LiveFold | crates/agnt-a2a/src/server/handlers/subscribe.rs:71-129 | From any view of a task, the events up to its terminal step give its final state with the artifacts gained merged in |
| Journey.SubscriberSeesTheStoredTask | crates/agnt-a2a/src/server/handlers/subscribe.rs:45-129 | Subscribe, snapshot and stream race with the store: the client still ends with the stored task, and with all its artifacts exactly when none after the snapshot repeats an id |
| Journey.TerminalSnapshotIsTheAnswer | crates/agnt-a2a/src/client/a2a_client.rs:176-195 | A snapshot that is terminal already is the answer, whatever follows |
| Journey.StreamEndsInASnapshot | crates/agnt-a2a/src/server/handlers/subscribe.rs:71-129 | The stream carries every event, and behind the end of the task, and only there, a last snapshot |
| Journey.LastSnapshotGoesUnread | crates/agnt-a2a/src/client/a2a_client.rs:197-238 | Whatever that snapshot says, the client's answer is the same |
| Journey.CommentsAreIgnored | crates/agnt-a2a/src/client/a2a_client.rs:165-175 | Keep-alive comments between the events change nothing |
| Journey.OneLineEachIsFaithful | crates/agnt-a2a/src/client/a2a_client.rs:165-175 | A wire that writes each event as one data line of its JSON is read back event by event |
| Journey.SubscriberIsServedThroughItsChannel | crates/agnt-a2a/src/server/handlers/subscribe.rs:45-129 | Through the bounded channel, with the server taking events at any time: if the channel was never full up to the end of the task, the stream of what was taken gives the client the stored task |
| Journey.LostEndIsNeverMadeUpFor | crates/agnt-a2a/src/server/handlers/subscribe.rs:71-129 | If the ending step found no room, the client follows for good: no later event ends its stream |
| Journey.ClientReturnsTheStoredTask | crates/agnt-a2a/src/client/a2a_client.rs:134-259 | End to end, store, channel, stream and bytes: for events written as one data line each, any chunks, comments and cut-off tail, the client of a channel that was never full up to the end returns the stored task, exactly unless a later artifact repeats an id |
| Journey.ResultReachesTheClient | crates/agnt-a2a/src/task_store/memory.rs:586-631 | For a run that ends in the completion with a result, the client returns a task that is Completed at that time with the success message and, unless an earlier artifact has its id, ends in an artifact named `result` whose only part is the result |
| Journey.ClientWithFullChannelGetsNoTask | crates/agnt-a2a/src/client/a2a_client.rs:253-257 | If the ending step found no room, the client ends with the error of the closed connection, for any bytes |
| Notices.TasksFollowChanges | crates/agnt-a2a/src/task_store/memory.rs:453-631 | With change and notices as separate steps of any writers, the tasks are those of the run of whole operations in the order of their changes |
| Notices.EveryNoticeIsSentOnce | crates/agnt-a2a/src/task_store/memory.rs:453-631 | In every schedule what was announced about a task and what is still to be announced is what the run of whole operations publishes, each event once |
| Notices.WholeOperationIsASchedule | crates/agnt-a2a/src/task_store/memory.rs:453-631 | Change and notices without anything in between are the store's operation |
| Notices.QuietOperationIsOneStep | crates/agnt-a2a/src/task_store/memory.rs:212-220 | An operation that announces nothing, and a refused one, is a single step, subscriptions included |
| Notices.ClientCollectsTheTimely | crates/agnt-a2a/src/client/a2a_client.rs:172-250 | The client's task has exactly the artifacts announced before the task's end, merged into those it knew |
| Notices.ArtifactArrivesIffNotOvertaken | crates/agnt-a2a/src/task_store/memory.rs:485-631 | In every schedule an artifact whose change was made is stored, and a subscriber gets its id exactly when the snapshot had it or its notice precedes the notice of the task's end |
| Notices.EndCanOvertake | crates/agnt-a2a/src/task_store/memory.rs:485-631 | Two writers, one of whom completes: the artifact added before the completion is announced after it and never collected |
| Utf8.SplitAtBoundary | crates/agnt-tty/src/markdown_buffer.rs:22-40 | Cutting well-formed UTF-8 at a character boundary leaves two well-formed halves |
| MarkdownBuffer.BoundaryIsTheLastCleanPosition | crates/agnt-tty/src/markdown_buffer.rs:50-155 | The boundary is a position the scan reaches with nothing open, and the last such position |
| MarkdownBuffer.SpanIsHeldBackUntilClosed | crates/agnt-tty/src/markdown_buffer.rs:50-155 | Plain text is released at once; a link is held back until its parenthesis, code until a backtick or two, emphasis until stars or underscores of its strength, a fence until an equal one, and whatever else stands there closes nothing |
| MarkdownBuffer.PassesSurvivesTruncation | crates/agnt-tty/src/markdown_buffer.rs:50-155 | Cutting the text where the scan stands does not change the scan up to there |
| MarkdownBuffer.ReleasedPrefixIsClosed | crates/agnt-tty/src/markdown_buffer.rs:50-155 | The prefix up to the boundary is closed markdown on its own, and the boundary is a fixpoint on it |
| MarkdownBuffer.BoundaryIsCharBoundary | crates/agnt-tty/src/markdown_buffer.rs:22-45 | The byte-wise scan never splits a multi-byte character |
| MarkdownBuffer.RescanEqualsResume | crates/agnt-tty/src/markdown_buffer.rs:50-155 | Unless a delta lengthens the trailing marker run, rescanning from byte 0 equals resuming from the old end state |
| MarkdownBuffer.BoundaryNeverMovesBackWithoutRunExtension | crates/agnt-tty/src/markdown_buffer.rs:50-155 | Under the same condition the boundary never decreases |
| MarkdownBuffer.BoundaryMovesBackWhenARunGrows | crates/agnt-tty/src/markdown_buffer.rs:103-130 | The condition is needed: one more star moves the boundary back |
| MarkdownBuffer.PieceIsClosedIff | crates/agnt-tty/src/markdown_buffer.rs:22-32 | A released piece is closed on its own exactly when no marker run goes across the cut, or the run is one of at most two tildes, or a fence marker's run cut into equal halves of three or more |
| MarkdownBuffer.RescanStopsCleanIff | crates/agnt-tty/src/markdown_buffer.rs:22-32 | The rescan stands clean where the last release ended exactly when no run goes across the cut but one of at most two tildes |
| MarkdownBuffer.PieceCanBeOpenOnItsOwn | crates/agnt-tty/src/markdown_buffer.rs:22-32 | A push after which the released piece leaves a bold span open |
| MarkdownBuffer.CountRun | crates/agnt-tty/src/markdown_buffer.rs:157-165 | The loop counts the run of equal bytes |
| MarkdownBuffer.StreamingMarkdownBuffer.Push | crates/agnt-tty/src/markdown_buffer.rs:22-32 | Whatever was released before, everything released after a push is a prefix of the input that ends on a character boundary and, without a flush, is closed markdown; slices are well-formed |
| MarkdownBuffer.StreamingMarkdownBuffer.Flush | crates/agnt-tty/src/markdown_buffer.rs:35-39 | Pushes and a final flush hand out exactly the input |
| MarkdownBuffer.StreamingMarkdownBuffer.Reset | crates/agnt-tty/src/markdown_buffer.rs:42-45 | A reset buffer is as new |
| MarkdownBuffer.StreamingMarkdownBuffer.LastCleanBoundary | crates/agnt-tty/src/markdown_buffer.rs:50-155 | The in-place loop over seven flags computes the boundary of the scan |
| Text.LinesStep | crates/agnt-acp/src/translator.rs:586-590 | A terminated line comes off the front of a text, without the carriage return before its newline if it has one |
| Text.UnfinishedLine | crates/agnt-a2a/src/client/a2a_client.rs:166-170 | A last line without a newline is a line too |
| UnifiedDiff.SplitUnifiedDiff | crates/agnt-acp/src/translator.rs:586-624 | The loop reads every line by the splitter's rules and reports an old side only when a line fed it |
| UnifiedDiff.ReadingOfLine | crates/agnt-acp/src/translator.rs:590-621 | A printed line is read as it was meant unless it ends in a carriage return or looks like a header, and then strictly less text is kept |
| UnifiedDiff.SplitUndoesPrint | crates/agnt-acp/src/translator.rs:580-624 | Splitting a printed diff returns exactly context and removed as old, context and added as new, iff no line ends in a carriage return and no changed text looks like a file header |
| UnifiedDiff.UnmarkedLineIsContext | crates/agnt-acp/src/translator.rs:612-618 | A line without any marker belongs to both sides as it stands |
| UnifiedDiff.LastNewlineDoesNotMatter | crates/agnt-acp/src/translator.rs:590 | A diff without a newline at its very end is split as with one |
| UnifiedDiff.OldSideIsAbsentIff | crates/agnt-acp/src/translator.rs:580-624 | For every printed diff the old side is None iff there is no context and every removed text starts with two dashes and a blank |
| UnifiedDiff.RemovedCommentIsLost | crates/agnt-acp/src/translator.rs:590-592 | A removed line that starts with two dashes and a blank vanishes, whatever it says, and leaves no old side |
| Text.DecimalInjective | crates/agnt-acp/src/translator.rs:224-228 | Different numbers print differently |
| Text.DecimalReads | crates/agnt-acp/src/translator.rs:224-228 | A number is printed in decimal digits without a leading zero and reads back |
| Translator.IdsAreDistinct | crates/agnt-acp/src/translator.rs:224-228 | Ids with different sequence numbers differ, whatever dashes and digits the names hold |
| Translator.StartAppends | crates/agnt-acp/src/translator.rs:196-204 | A start joins the end of its own call's queue and of no other |
| Translator.CompleteTakesTheHead | crates/agnt-acp/src/translator.rs:206-221 | A completion takes the head of its own call's queue, or a new id when it is empty, and leaves every other queue as it was |
| Translator.QueuesAreFifo | crates/agnt-acp/src/translator.rs:196-221 | Over any run, per call: ids matched followed by ids still open are the ids open before followed by the ids started, in order |
| Translator.CompletionsMatchStarts | crates/agnt-acp/src/translator.rs:196-228 | Over a session's life no minted id repeats, no id is completed twice, and the update of the next completion of a call names its oldest open start or else an id never seen |
| Translator.ClientIsToldEverything | crates/agnt-acp/src/translator.rs:111-194 | Over any events, update by update and in order: every delta and warning word for word, every start with its call, name, kind and line, every completion with its success and its sections or message, usage and compaction with their numbers, source and detail; only permission requests, compaction requests and events without a form send nothing |
| Translator.EventTranslator.NextCallId | crates/agnt-acp/src/translator.rs:224-228 | Mints the id of the next number |
| Translator.EventTranslator.AllocateCallId | crates/agnt-acp/src/translator.rs:196-204 | A start mints an id and queues it |
| Translator.EventTranslator.TakeCallId | crates/agnt-acp/src/translator.rs:212-221 | The position loop takes the first matching start, keeps all others in order, and queues nothing for an orphan |
| Translator.EventTranslator.Translate | crates/agnt-acp/src/translator.rs:111-194 | Each event's update, tool kinds included, and new translator state, with None for events that have no ACP form |
| Translator.ContentFromDisplay | crates/agnt-acp/src/translator.rs:561-579 | One content block per section, diffs split into their sides |
| Permission.AcpPermissionBridge.HandlePermissionRequest | crates/agnt-acp/src/permission.rs:128-163 | A key rejected for good is not prompted; otherwise the client is, `allow-once` and `allow-always` allow, anything else and a cancelled prompt deny, `reject-always` is remembered, and the waiter gets that decision or it is reported as ignored |
| Permission.AcpPermissionBridge.DenyAllPending | crates/agnt-acp/src/permission.rs:176-181 | Every waiting request is denied once, in whatever order the map drains |
| Permission.AcpPermissionBridge.Elsewhere | crates/agnt-core/src/hook/permission_resolver.rs:552-597 | Other tasks register their own sender or take it back |
| Permission.StepKeepsInv | crates/agnt-acp/src/permission.rs:128-181 | No step stores a waiter twice or answers one again: stored waiters have nothing yet, all others exactly one outcome |
| Permission.TurnEndSettlesEveryone | crates/agnt-acp/src/permission.rs:170-181 | When a turn's drain returns, every request registered before its final deny was settled exactly once, over any interleaving of any turns |
| Permission.FirstSettlerDecides | crates/agnt-acp/src/permission.rs:128-181 | The first step that touches a request after its registration decides what its waiter gets for good: the client's choice, a denial, or nothing when it was withdrawn |
| Permission.WaiterGetsTheClientsChoice | crates/agnt-acp/src/permission.rs:128-181 | Over every run a waiter is allowed once, or always, exactly when the step that settled it prompted the client and the client selected `allow-once`, or `allow-always`; a cancelled prompt, a rejection, an unknown option and a key rejected for good deny it |
| Permission.DeniedIffRejectedAlways | crates/agnt-acp/src/permission.rs:133-147 | The deny set only grows and holds exactly the keys once rejected for good |
| Permission.RejectAlwaysIsRemembered | crates/agnt-acp/src/permission.rs:122-147 | Whether a key is prompted for and what its waiter gets depends on whether an earlier prompt for it was answered `reject-always`: from then on it is denied unseen |
| Drain.RunTurnWithNotifications | crates/agnt-acp/src/translator.rs:348-404 | The biased select loop, both flushes and the final deny end in the state of the drain's step function, for every schedule, channel content and transport |
| Drain.ReceiveUi | crates/agnt-acp/src/translator.rs:368-381 | One item of the ui receiver: handled, lag skipped, or the drain stopped on a closed channel or lost transport |
| Drain.ReceiveCompaction | crates/agnt-acp/src/translator.rs:382-397 | One event of the compaction receiver: recorded, handled, or the arm dropped on a closed channel |
| Drain.RecvCompaction | crates/agnt-acp/src/translator.rs:452-466 | Reports of lag are skipped up to the next event |
| Drain.FlushReceiver | crates/agnt-acp/src/translator.rs:300-318 | The flush sends every buffered ui event and ignores refusals |
| Drain.FlushCompactionReceiver | crates/agnt-acp/src/translator.rs:421-446 | The flush sends every buffered compaction event and reports whether a request was among them |
| Drain.HandleOne | crates/agnt-acp/src/translator.rs:473-500 | A permission request goes to the bridge and changes nothing else; everything else is translated and sent and leaves the bridge alone |
| Drain.PermissionRequestIsAnswered | crates/agnt-acp/src/translator.rs:348-404 | For every turn: a request that the loop takes off either channel prompts the client unless its key was rejected for good, and what its waiter has at the end of the turn is the client's own answer, or a denial |
| Drain.RequestsReachTheBridge | crates/agnt-acp/src/translator.rs:473-500 | Over every turn the prompts are those of the permission requests the loop handled, each once and in order, and no others |
| Drain.Send | crates/agnt-acp/src/translator.rs:503-521 | A translated event is one attempt on the transport, an untranslated one none |
| Drain.EventsConcat | crates/agnt-acp/src/translator.rs:300-318 | What a receiver yields from two batches is what it yields from the first and, unless that closes, from the second |
| Drain.TurnAccountsForWhatItHandled | crates/agnt-acp/src/translator.rs:348-446 | For every interleaving and transport: handled events are an order-preserving merge of a prefix of each channel, sent updates are exactly their translation less refused attempts, and the flag is up iff a compaction request was handled on the compaction channel |
| Drain.RoundTakesUi | crates/agnt-acp/src/translator.rs:366-381 | A round takes the head of the ui channel if there is one: an event is handled, a report of lag skipped, a closed channel ends the drain |
| Drain.RoundTakesCompaction | crates/agnt-acp/src/translator.rs:382-397 | Only with an empty ui channel a round takes the next compaction event, behind reports of lag; a request raises the flag and sends nothing, a closed channel is given up |
| Drain.DrainEndsAtTheFirstRefusal | crates/agnt-acp/src/translator.rs:366-404 | The loop stops draining at the first update the transport refuses or at a closed ui channel, for no other reason, and then nothing is taken, sent or attempted any more |
| Drain.FlushTakesWhatIsLeft | crates/agnt-acp/src/translator.rs:398-446 | If the loop still drained when the turn was done, every event of both channels is handled, refusals or not |
| Drain.HealthyTurnLosesNothing | crates/agnt-acp/src/translator.rs:348-446 | With a working transport and an open ui channel every event of both channels is handled exactly once, the client is told each of them in order, word for word where it speaks, nothing stays buffered, and the flag is up iff a compaction request was published |
| Drain.NobodyIsLeftWaiting | crates/agnt-acp/src/translator.rs:398-404 | When the turn returns, every request registered while it ran or before has been settled exactly once |
| Layout.SpacingIsTheTablesIff | crates/agnt-render/src/planner.rs:72-112 | Gap and paddings add up to max(table, paddings); with the paddings in use that is the table for every pair but a padded tool entry before a tool entry |
| Layout.PlanFollowsTheTable | crates/agnt-render/src/planner.rs:72-118 | In any plan a tool entry follows a tool entry at once, tool and assistant entries are one row apart, all others two, paddings included, and one row follows a user entry at the end |
| Layout.EntryIsGivenItsRows | crates/agnt-render/src/planner.rs:132-169 | Each rectangle has the frame's width or one column, and rows for content and paddings, none above the first entry and none below the last |
| Layout.Plan | crates/agnt-render/src/planner.rs:132-169 | Each entry's rectangle, gap, clipped paddings and content offset, the trailing gap and the total, from measured content |
| Layout.PlainBackend.Measure | crates/agnt-render/src/plain.rs:65-67 | The number of content rows |
| Layout.PlainBackend.Clear | crates/agnt-render/src/plain.rs:40-42 | No rows left |
| Layout.PlainBackend.Render | crates/agnt-render/src/plain.rs:53-63 | Blank rows up to the rectangle, then offset, content cut to fit and blanks up to its rows |
| Layout.RenderedRow | crates/agnt-render/src/plain.rs:53-63 | Row by row, for any rectangle: what was painted before, blanks up to it, then the content at its offset as far as it fits and blanks around it |
| Layout.PlainBackend.PaintFrame | crates/agnt-render/src/backend.rs:54-60 | Painting a plan on a cleared backend shows exactly the frame, in total_rows less trailing_gap lines |
| Layout.PaintedPrefix | crates/agnt-render/src/plain.rs:53-63 | After each entry the backend holds the frame so far and that entry's bottom padding, and ends where its rectangle ends |
| Layout.PaintingShowsTheFrame | crates/agnt-render/src/planner.rs:119-169 | Any plan, painted in order on an empty backend, is the concatenation of the contents, neighbours apart by max(table, paddings) |
| Layout.RectsAreOrdered | crates/agnt-render/src/planner.rs:132-169 | Rectangles follow one another without overlap |
| Layout.ContentIsInTheFrame | crates/agnt-render/src/plain.rs:104-117 | Every content row appears untruncated at its content offset |
| Layout.EveryRowIsAccountedFor | crates/agnt-render/src/plain.rs:104-117 | Every row is the content its rectangle says, or blank |
| Layout.EdgesAreContentIff | crates/agnt-render/src/planner.rs:126-131 | The frame's first row is a content row iff what stands before the first entry with content has no rows and no separation, its last row iff the same holds after the last one |
| Layout.EmptyMessageLeavesBlankRows | crates/agnt-render/src/planner.rs:126-131 | An empty message before another one: the frame begins with two blank rows |
| PeerSweep.PeerCache.AddOrUpdate | crates/agnt-a2a/src/peer.rs:70-73 | The peer is cached under its own name |
| PeerSweep.PeerCache.Remove | crates/agnt-a2a/src/peer.rs:75-78 | The name is gone |
| PeerSweep.PeerCache.List | crates/agnt-a2a/src/peer.rs:85-88 | Every cached peer once, in any order |
| PeerSweep.PeerCache.ApplyPeerEvents | crates/agnt-a2a/src/agent/builder.rs:330-349 | Discovery events applied one after the other |
| PeerSweep.SweepPeers | crates/agnt-a2a/src/agent/builder.rs:408-461 | One pass over a snapshot of the others, with any events during each fetch: cache and counts of the sweep's step function |
| PeerSweep.SweepIsARun | crates/agnt-a2a/src/agent/builder.rs:408-461 | A pass is a run of single steps, so what runs keep holds across sweeps |
| PeerSweep.FetchedKeepsInv | crates/agnt-a2a/src/agent/builder.rs:429-459 | A fetch keeps the count equal to the failures in a row under that name, modulo three |
| PeerSweep.SweepsEvictOnlyTheDead | crates/agnt-a2a/src/agent/builder.rs:330-461 | For every interleaving: keys are names, counts stay below three, a fetch evicts iff it is the third, sixth, ... failure in a row, and a peer answering one of any three consecutive fetches stays |
| PeerSweep.EvictionMeansThreeFailures | crates/agnt-a2a/src/agent/builder.rs:442-459 | Behind every eviction are three failed fetches in a row under that name |
| PeerSweep.SweepLeavesOwnEntryAlone | crates/agnt-a2a/src/agent/builder.rs:399-425 | No fetch of a sweep changes an entry with the agent's own URL unless an event gave that URL to a name of the snapshot |
| PeerSweep.OwnEntrySurvivesIff | crates/agnt-a2a/src/agent/builder.rs:399-459 | A fetch that comes back leaves an own entry as it was iff it is about another name, or failed for the first or second time in a row; otherwise the entry is gone or no longer the agent's |
| PeerSweep.OwnEntryIsIntactIff | crates/agnt-a2a/src/agent/builder.rs:399-461 | From any moment of a sweep on, with any events about other names: the own entry is intact at the end iff no fetch that comes back meets it |
| PeerSweep.PassLeavesOwnEntryIff | crates/agnt-a2a/src/agent/builder.rs:408-461 | The same for the rest of a pass as the loop runs it |
| PeerSweep.OwnEntryCanBeOverwritten | crates/agnt-a2a/src/agent/builder.rs:430-441 | An answered fetch writes the stale peer over the agent's own entry |
| PeerSweep.OwnEntryCanBeSweptOut | crates/agnt-a2a/src/agent/builder.rs:442-459 | Such an event can make the agent evict itself |
| PeerSweep.RefreshIsInPlaceIff | crates/agnt-a2a/src/agent/builder.rs:430-441 | An answered fetch refreshes in place iff the entry kept its URL, host and port; a lost peer is brought back |
| VaultBackends.RemovedDropsTheKey | crates/agnt-core/src/config/keychain_backend.rs:147-152 | Removal drops the key, keeps all others and makes no duplicate |
| VaultBackends.KeychainBackend.Get | crates/agnt-core/src/config/keychain_backend.rs:65-72 | The entry's value or None |
| VaultBackends.KeychainBackend.ReadIndex | crates/agnt-core/src/config/keychain_backend.rs:101-108 | The listed keys, none when missing, an error when unreadable |
| VaultBackends.KeychainBackend.Set | crates/agnt-core/src/config/keychain_backend.rs:74-79 | The entry is written, then the index unless unchanged; an unreadable index is an error after the write |
| VaultBackends.KeychainBackend.Delete | crates/agnt-core/src/config/keychain_backend.rs:81-89 | The entry is removed if there, then the index unless unchanged |
| VaultBackends.KeychainBackend.List | crates/agnt-core/src/config/keychain_backend.rs:91-93 | The index |
| VaultBackends.SetKeepsIndexIff | crates/agnt-core/src/config/keychain_backend.rs:74-145 | Storing keeps the index a duplicate-free list of exactly the stored keys iff the key is not the index's own |
| VaultBackends.DeleteKeepsIndex | crates/agnt-core/src/config/keychain_backend.rs:81-152 | Deleting keeps it too |
| VaultBackends.IndexIsWrittenWhenItChanges | crates/agnt-core/src/config/keychain_backend.rs:110-152 | Setting a listed key or deleting an unlisted one leaves the index entry alone; a new key joins its end |
| VaultBackends.FileBackend.LoadMap | crates/agnt-core/src/config/file_backend.rs:160-167 | The stored map, empty for a missing or blank file, an error for anything else |
| VaultBackends.OddFiles | crates/agnt-core/src/config/file_backend.rs:143-167 | For every run a blank file reads as a missing one, and a file that is no map is never overwritten |
| VaultBackends.FileBackend.Get | crates/agnt-core/src/config/file_backend.rs:179-182 | The value under the key, if any |
| VaultBackends.FileBackend.Update | crates/agnt-core/src/config/file_backend.rs:143-157 | The file then reads as the changed map, or is untouched when it was unreadable |
| VaultBackends.FileBackend.Set | crates/agnt-core/src/config/file_backend.rs:184-188 | The map with the key set |
| VaultBackends.FileBackend.Delete | crates/agnt-core/src/config/file_backend.rs:190-195 | The map without the key |
| VaultBackends.FileBackend.List | crates/agnt-core/src/config/file_backend.rs:197-200 | Every key once |
| VaultBackends.BackendsAgree | crates/agnt-core/src/config/keychain_backend.rs:65-152 | From stores that agree and for any operations, keychain and file answer lookups alike and list the same keys |
| VaultBackends.IndexNeverTouchesSecrets | crates/agnt-core/src/config/keychain_backend.rs:74-135 | However many processes interleave and whatever they write to the index, every secret is what its last write made it |
| VaultBackends.AccessedSnoc | crates/agnt-core/src/config/keychain_backend.rs:74-135 | The last access writes or drops its entry and nothing else |
| VaultBackends.BackendsAgreeFromEmpty | crates/agnt-core/src/config/keychain_backend.rs:65-152 | The same, from stores that were never written |
| VaultBackends.SetChangesSecretsRegardless | crates/agnt-core/src/config/keychain_backend.rs:74-79 | Whatever the index says, storing changes that one secret; it answers with an error exactly when the index is unreadable |
| VaultBackends.DeleteChangesSecretsRegardless | crates/agnt-core/src/config/keychain_backend.rs:81-89 | Whatever the index says, deleting removes that one secret; it answers with an error exactly when the index is unreadable |
| IndexRaces.AloneItIsTheOperation | crates/agnt-core/src/config/keychain_backend.rs:74-135 | A process that is alone with its entry access, index read and index write does what the backend's operation does |
| IndexRaces.UndisturbedIndexAgreesIff | crates/agnt-core/src/config/keychain_backend.rs:74-135 | For any number of processes and any schedule without an index write between another's index read and index write: the index agrees with the store iff for each key the last entry access and the last index access are of one kind |
| IndexRaces.OwnKeysLeaveIndexInOrder | crates/agnt-core/src/config/keychain_backend.rs:74-135 | Processes with keys of their own, all finished and undisturbed, leave the index in order |
| IndexRaces.OverwrittenChangeIsLost | crates/agnt-core/src/config/keychain_backend.rs:77-78 | A changing index write between another's read and changing write is lost, and the index disagrees with the store |
| IndexRaces.IndexUpdateCanBeLost | crates/agnt-core/src/config/keychain_backend.rs:77-78 | Two set calls, access by access in turn, leave the first key out of the index |
| IndexRaces.SetAndDeleteCanDisagree | crates/agnt-core/src/config/keychain_backend.rs:74-89 | A set and a delete of one key, undisturbed, can leave a key in the index that is not stored |
| Vault.KeysAreApart | crates/agnt-core/src/config/vault.rs:574-591 | The four key kinds and the index key never collide, nor do two names of one kind |
| Vault.Vault.Resolve | crates/agnt-core/src/config/vault.rs:274-282 | The key or access token stored for a store: reference, None otherwise |
| Vault.Vault.StoreApiKey | crates/agnt-core/src/config/vault.rs:285-291 | Only that provider's secret changes, whatever the index; the call succeeds iff the index is readable, and an index in order stays so |
| Vault.Vault.StoreOAuth | crates/agnt-core/src/config/vault.rs:294-308 | Only that provider's secret changes, whatever the index; the call succeeds iff the index is readable, and an index in order stays so |
| Vault.Vault.RemoveProvider | crates/agnt-core/src/config/vault.rs:311-318 | The provider is gone, whatever the index; the answer says whether it was there, or that the index is unreadable |
| Vault.Vault.ListProviders | crates/agnt-core/src/config/vault.rs:321-344 | One entry per listed key that is a provider's, is stored and decodes; an unreadable index is an error |
| Vault.Vault.SetMcpCredentials | crates/agnt-core/src/config/vault.rs:360-367 | Only that server's credentials change, whatever the index; the call succeeds iff the index is readable |
| Vault.Vault.ClearMcpCredentials | crates/agnt-core/src/config/vault.rs:370-372 | Only that server's credentials go, whatever the index; the call succeeds iff the index is readable |
| Vault.Vault.SetMcpState | crates/agnt-core/src/config/vault.rs:388-395 | Only that token's state changes, whatever the index; the call succeeds iff the index is readable |
| Vault.Vault.DeleteMcpState | crates/agnt-core/src/config/vault.rs:398-400 | Only that token's state goes, whatever the index; the call succeeds iff the index is readable |
| Vault.Vault.ResolveBearer | crates/agnt-core/src/config/vault.rs:406-412 | A plain token is itself, a store: token is looked up or KeyNotFound |
| Vault.OpKeepsAgreement | crates/agnt-core/src/config/vault.rs:274-400 | Each operation does to the one string map what it does to four separate typed maps |
| Vault.RunRefines | crates/agnt-core/src/config/vault.rs:274-400 | So does every run: provider, credential, state and bearer namespaces never interfere |
| Vault.StoredKeyResolves | crates/agnt-core/src/config/vault.rs:274-291 | A stored API key resolves back unchanged after any operations that do not touch that provider |
| Vault.LastOperationDecides | crates/agnt-core/src/config/vault.rs:274-400 | From any contents and over any run, the last operation on a key decides it: the very key, tokens with expiry, credentials or state it was given, or nothing |
| Vault.WhatReferencesResolveTo | crates/agnt-core/src/config/vault.rs:274-412 | A `store:` reference is the stored key or access token, nothing when missing or unreadable; a bearer without `store:` is itself, with it the stored one or KeyNotFound |
| Vault.RemovedProviderIsGone | crates/agnt-core/src/config/vault.rs:311-318 | A removed provider resolves to nothing until it is stored again |
| Vault.NoOperationStoresBearers | crates/agnt-core/src/config/vault.rs:406-412 | No run of operations changes what any bearer reference resolves to |
| Vault.ListingShowsStoredAndListed | crates/agnt-core/src/config/vault.rs:321-344 | Whatever the index lists, a provider is shown iff stored and listed, once, with its own credential; none is made up |
| Vault.HowAProviderIsShown | crates/agnt-core/src/config/vault.rs:321-344 | A provider is shown as key, or as token with its expiry, and not at all when it cannot be read |
| Vault.ListingIsExact | crates/agnt-core/src/config/vault.rs:321-344 | With the index in order the listing is exactly the stored providers |
| StorageEngine.Storage.constructor | crates/agnt-storage/src/storage.rs:56-65 | An open handle with a running engine and an empty inbox |
| StorageEngine.Storage.Deliver | crates/agnt-storage/src/storage.rs:105-112 | The unit joins the inbox, or the call is refused when handle or engine is gone |
| StorageEngine.Storage.RunUnit | crates/agnt-storage/src/engine.rs:137-151 | The head unit runs on the database and its own caller gets the output; a panic stops the engine and every queued caller |
| StorageEngine.Storage.Drop | crates/agnt-storage/src/storage.rs:123-139 | The inbox closes and the engine drains before the drop returns |
| StorageEngine.StepKeepsInv | crates/agnt-storage/src/engine.rs:137-197 | No step runs a unit twice or out of turn, or gives a call a second or wrong answer |
| StorageEngine.CallsAreLinearised | crates/agnt-storage/src/storage.rs:92-117 | For any concurrent calls the database is the fold of a prefix of the delivered units in delivery order, and each of their callers has the output of its own unit at its own point |
| StorageEngine.RunsGoOn | crates/agnt-storage/src/storage.rs:92-139 | Every interleaving is covered: a new call, the next unit, the drop and the end of the thread can each come next |
| StorageEngine.StepRecords | crates/agnt-storage/src/engine.rs:137-197 | One step: what it delivers, refuses and runs, and that only a panic or the end of a closed inbox stops the thread |
| StorageEngine.DeliveredIffBeforeDropAndPanic | crates/agnt-storage/src/storage.rs:92-117 | The delivered units are those submitted before the drop and before any panic, in that order, and each serving step runs one |
| StorageEngine.LateCallsAreRefused | crates/agnt-storage/src/storage.rs:105-112 | A call after the drop or after a panic is answered EngineClosed, for good |
| StorageEngine.DropRunsWhatWasDelivered | crates/agnt-storage/src/storage.rs:123-139 | After the drop every call is answered and every delivered unit has run, up to the first that panics; exactly the callers from there on got EngineStopped |
| StorageEngine.AnswersAreFinal | crates/agnt-storage/src/engine.rs:137-151 | No later step changes an answer once given |
| CmdRefs.TrimEndNewlines | crates/agnt-core/src/config/cmd_refs.rs:275 | Only trailing newlines and carriage returns go, and all of them |
| CmdRefs.ResolveValue | crates/agnt-core/src/config/cmd_refs.rs:247-284 | One reference: its trimmed output or its error with the path, and the one call it makes, if any |
| CmdRefs.ReferenceRunsItsCommand | crates/agnt-core/src/config/cmd_refs.rs:247-284 | The text behind `cmd:`, trimmed and split, is run as program and arguments; its output less trailing newlines is the value, and a failed run or an output of newlines alone is an error that names path and command |
| CmdRefs.ReferenceWithoutACall | crates/agnt-core/src/config/cmd_refs.rs:247-268 | Unbalanced quotes and a command without words are errors without a call, the latter with the whole value |
| CmdRefs.ReferencesAreTheCmdStrings | crates/agnt-core/src/config/cmd_refs.rs:211-245 | The references are exactly the strings behind keys and indices that start with `cmd:`, each under the path written with dots and brackets |
| CmdRefs.CmdRunner.Run | crates/agnt-core/src/config/cmd_refs.rs:109-114 | The runner's output for this call, and the call in the log |
| CmdRefs.Walk | crates/agnt-core/src/config/cmd_refs.rs:211-237 | The recursive walk fills the references of the whole tree in order up to the first failure, with that error and those calls |
| CmdRefs.WalkEntries | crates/agnt-core/src/config/cmd_refs.rs:222-227 | The loop over a table's values does the same for the table |
| CmdRefs.WalkItems | crates/agnt-core/src/config/cmd_refs.rs:228-233 | The loop over an array's items does the same for the array |
| CmdRefs.ResolvedConcat | crates/agnt-core/src/config/cmd_refs.rs:211-237 | Resolving two lists is resolving the second after the first, unless the first failed |
| CmdRefs.OutputsUpToTheFirstFailure | crates/agnt-core/src/config/cmd_refs.rs:247-284 | Outputs are those of the references before the first that has none |
| CmdRefs.FillingIsALeafMap | crates/agnt-core/src/config/cmd_refs.rs:211-237 | Filling in keeps shape, keys and other values and replaces references among the string leaves in walk order |
| CmdRefs.WalkIsALeafMap | crates/agnt-core/src/config/cmd_refs.rs:126-136 | A walk is a leaf map, and outputs that look like references stay as they are |
| CmdRefs.WalkFailsAtTheFirst | crates/agnt-core/src/config/cmd_refs.rs:211-284 | A walk succeeds iff every reference has an output, and else names the path of the first, in walk order, that has none |
| CmdRefs.WalkCallsReferencesInOrder | crates/agnt-core/src/config/cmd_refs.rs:211-284 | The call log is the references of the original tree in walk order, each once, up to the failure |

## Left out

- Concurrent callers of the task store: `Notices` splits the operations that notify into change and notices, and deadlock freedom covers every interleaving of all lock steps; the two-step schedules are not joined with a channel that fills up.
- TaskStore.InMemoryTaskStore.NotifyPushConfigs: does not model the webhook calls themselves, which are spawned and foreign.
- TaskStore.InMemoryTaskStore.AssignUpdateSeq: does not model 64-bit wrap-around of the counter, nor does the call counter of `Translator`.
- TaskStore.InMemoryTaskStore.CompleteTask: a text part is its text; the role of the message, always the agent's, and metadata of messages and artifacts are left out.
- Listing.ListTasksFiltered: covers the inherent listing with one state filter, a limit and a cursor; the trait's listing with several states and a total is not modelled.
- Listing.ClientSeesFirstThousand: the client asks for pages of a hundred; the size of a request that names none is left out.
- Journey.ClientReturnsTheStoredTask: the handler's second, awaited channel between task and connection loses nothing and is left out; a subscriber whose connection breaks is a client whose bytes end early.
- Sse.SubscribeTask: lossy UTF-8 decoding, JSON and the reading of an error body are parameters; how a request that was not sent is classified is left out.
- MarkdownBuffer.StreamingMarkdownBuffer.Push: takes the received bytes as a growing sequence rather than an owned string buffer.
- Translator.EventTranslator.Translate: leaves out the session id, which is only logged.
- Permission.AcpPermissionBridge.HandlePermissionRequest: the await for the client is one step with what other tasks do meanwhile happening before it; the prompt's text and display are left out.
- Drain.RunTurnWithNotifications: the turn itself is a schedule of polls; the two simpler drains `drain_bus_to_notifications` and `drain_receiver_to_notifications` are left out because they are this loop without the turn and the second channel.
- Drain.FlushReceiver: as in the source, a permission request found by the flush is not shown to the client; `Drain.NobodyIsLeftWaiting` covers its waiter.
- Layout.Plan: word wrapping, markdown projection and the entry types are an arbitrary function from width to rows; styled backends and catalog components are left out.
- PeerSweep.SweepPeers: the card is opaque and HTTP is an arbitrary answer; timers and the rediscovery task are left out.
- VaultBackends.FileBackend.Update: the file lock makes the cycle one step; permissions, creation and partial writes are I/O and left out.
- VaultBackends.KeychainBackend.Get: failures of the operating system's store are I/O and left out, and so are backend detection and the environment-only backend.
- VaultBackends.KeychainBackend.ReadIndex: the same failures are left out; an index that is not a list is modelled.
- VaultBackends.KeychainBackend.Set: the same failures are left out, so an operation cannot stop after its first access; `IndexRaces` covers stopping after it, as a process that is never scheduled again.
- VaultBackends.KeychainBackend.Delete: as for `Set`.
- VaultBackends.KeychainBackend.List: as for `ReadIndex`.
- Vault.Vault.SetMcpCredentials: MCP credentials and states are their serialized text; decoding them back is the JSON codec's business.
- StorageEngine.Storage.RunUnit: a unit is a function from database to database and output; SQL, the pool, migrations and the opening handshake are left out, and the reply channel of a caller that gave up is an answer nobody reads.
- CmdRefs.Walk: rebuilds the tree with the source's recursion and loops instead of overwriting it in place, so aliasing of the tree is not modelled; splitting a command line into words, Unicode trimming, process start, polling and the timeout are parameters.
- Channel wrappers, configuration resolution, CLI dispatch, themes, terminal and gallery, session construction and the finite tables of names are left out: they are wiring or flat option merging and would only add easy members.
