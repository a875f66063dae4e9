# The extension's offline queue, and what rests on it

A Dafny model of how the browser extension keeps a person's changes while the server is out of reach, replays
them later, and shows them meanwhile; with proofs of what that promises.

The centre is one state machine, `Protocol`. App tabs, the popup and the service worker share a stored queue and
take its steps in any order: a change sent now, a change queued behind others, a flush picking the next item, the
server taking a request (late, or twice), an answer arriving or lost, the queue write a success or a failure leads
to, Retry, Discard, Clear, a write by someone else. A send and the queue write after its answer are separate
steps. Runs are unbounded sequences of these steps; the theorems hold in every state of every run.

How the files are laid out:

- `lists`, `tags`, `tags_again`, `edits`, `changes`, `queue`: what the writes compute. The three-way merge of tags,
  what `same` and `patchHeld` compare, which change follows, replaces or rebases which, and every rewrite of the
  stored queue.
- `protocol`, `steps`, `continuations`: the state machine, what one step does to one queued item, and how a run can
  go on from wherever it is.
- `conservation`, `at_most_once`, `applied_twice`, `ordering`, `versions`, `stale_undo`, `retried_undo`, `landed`,
  `server_cells`, `own_writes`, `own_conflicts`, `draining`: the theorems over its runs.
- `replay`, `sync_queue`, `refinement`: one replay of one change; the queue as the object whose methods rewrite it,
  with the flush loop; and, as helpers (`FailureIsAStep`, `PerformStops`, `SuccessIsAStep`, `SendingIsAStep`), that
  what these do the protocol's steps do; `ConflictSettles` reads back how a refused edit is settled.
- `storage_room`, `locks`, `sessions`, `quick_add`: making room on a full disk, the promise-chain lock, the shared
  single-use refresh token, and the quick-add form that never makes a second task.
- `overlay`, `comment_threads`, `mentions`, `runs`, `activity`: waiting changes shown over what a read returns,
  comments as threads, @mentions, and the activity timeline.

Where a law is false of the code as it stands, the code is kept. There is then a lemma with a run or an input that
shows it fails, and a proof of exactly when it holds:

- Retry takes a recorded 4xx for the server's refusal and gives the change a new key. A 408 is such a record too,
  although it is also an answer after which the first try may have landed (section 15.5.9 of RFC 9110). `AtMostOnce`
  holds when a new key is only taken after a real refusal; `RetryAppliesAgain` shows that after any other Retry the
  change can be applied twice; `DishonestIs408` says which these are when every refusal is the server's own;
  `AppliedTwiceAfter408` and `StoredTwiceAfter408` are two runs.
- Retry of an item the running flush has tried already lets a later change overtake it. `NoOvertaking` holds without
  such Retries; `RetryLetsOvertake` shows that after any one of them, in any state a run can reach, the later steps
  can be such that the overtaking happens; `OvertakenAfterRetry` is one run.
- Retry while a newer change of the same thing is on its way, or of a change that the running flush has tried and that
  sets something, lets the older one undo a newer one: `NoStaleUndo` holds without, `RetryLetsUndo` shows it for each
  such Retry, and `UndoneAfterRetry` is one run.
- Superseding happens in the client's own write of a success. When the server has taken a newer change and its answer
  never leads to that write (the tab is closed, the change is kept, refused or given up first), nothing is superseded,
  and the older change, tried again, undoes it: `UndoneAfterTabClosed` is such a run. That is the only way:
  `UndoneOnlyIfGivenUp`, with `GivenUpCanBeUndone` for the other half.
- An edit made from an older copy and queued behind a waiting edit is raised to the version that one expects, and so
  may land over versions somebody else made after its copy: `LandsOverOthers`. `SafeSinceMade` says when it does not.
- A change of tags reads the task's list in one request and sends the whole list in another. A tag somebody else puts
  on in between is taken off again: `LostBetween`. `UntouchedStays` says exactly when a tag the change does not touch
  stays as it is.
- A failed edit tried again while it expects another version than the task's, or while another write of the task has
  still to land, can conflict with this device's own writes: `OwnWritesNeverConflict` holds without such Retries, and
  `RetryLetsConflict` shows it for each of them.
- `normalizeTagName` is not idempotent for a name its cap cuts right after a space (`TidyTwice`), so merging the same
  change twice is not always merging it once: `CutTwice`. `MergeTwiceExactly` says when it is, for all lists.
- A refresh whose answer is lost leaves the spent refresh token stored, and so does one the server takes after nobody
  waits for it: `LostAnswerSendsAgain`, `TakenLateSendsAgain`; `StepKeeps` says that nothing else does.
- The quick-add form remembers one key, the last try's: a task tried without an answer, another one tried, and the
  first one again makes it twice: `AnotherBetween`.
- A timeline line made through MICO AI does fold into one made by hand when a checklist's title ends in
  `|mico-ai`, against the comment in the source: `KeyIsRun`, `HandFoldsWithAi`.

## Model

| member | source | states |
|---|---|---|
| Conservation.NothingIsLost | Extension/src/queue.js:47-54 | In every run each enqueued change is in exactly one place: queued, synced, discarded or cleared; no write of one context loses a change another one queued |
| Conservation.FlushKeepsOthers | Extension/src/queue.js:514-557 | In every run, a flush's writes for one person leave everybody else's items as they are and in order |
| AtMostOnce.AtMostOnce | Extension/src/queue.js:184-191 | Over every run of lost and late answers, refusals, 408s, 5xx answers, pauses, give-ups and Retries the server applies no POST change twice, when Retry gives a change a new key only if the server has refused its key or was never sent it; a message with an id of its own may get one anyway |
| AppliedTwice.RetryAppliesAgain | Extension/src/queue.js:184-191 | The assumption on Retry is exact: from every state of such a run, after any Retry it excludes some later steps without a Retry make the server apply the change twice |
| AppliedTwice.DishonestIs408 | Extension/src/queue.js:186-189 | When every 4xx that fails a POST is the server's own, the assumption excludes a Retry if and only if the last answer was a 408, to a POST that is no message with its own id, under a key that was sent and not refused |
| AppliedTwice.AppliedTwiceAfter408 | Extension/src/queue.js:184-191 | A run in which a checklist item is applied twice: every answer a 408, given up, retried under a new key |
| AtMostOnce.MessageStoredOnce | Extension/src/queue.js:174-183 | Of the chat messages stored with an id of their own in any run no two have one id, and none is stored twice, whatever the answers, 408s included |
| AppliedTwice.StoredTwiceAfter408 | Extension/src/queue.js:289-295 | A run in which a chat message without an id of its own is stored twice: under its first key, and after a 408 under the new one |
| Ordering.NoOvertaking | Extension/src/queue.js:133-154 | A change queued behind another one it must follow is first sent after that one was synced, discarded, cleared or marked failed, however flushes, enqueues and live sends interleave |
| Ordering.RetryLetsOvertake | Extension/src/queue.js:184-191 | The assumption on Retry is exact: from every state of a patient run, after a Retry of any change the running flush has tried which another could follow, some later steps without a Retry make a change behind it that is sent while it still awaits it |
| Ordering.OvertakenAfterRetry | Extension/src/queue.js:514-527 | A run in which an unwatching overtakes the watching made before it, retried during its flush |
| Versions.VersionSafety | Extension/src/task-writes.js:161-176 | Whatever other writers do, when the server accepts a queued edit every version since the one it was queued at (raised or not) was made by this person's own replays, or found by the conflict check to hold an own edit |
| Versions.SafeSinceMade | Extension/src/queue.js:139-144 | An accepted edit lands over own versions only, counted from the one it was made at, if and only if the versions it was raised over when it was queued behind a waiting edit are own ones |
| Versions.LandsOverOthers | Extension/src/queue.js:139-144 | A run in which an edit made from an older copy is raised, and lands, over a version somebody else made |
| Versions.BehindIsNewest | Extension/src/queue.js:137-144 | An edit queued behind others expects the newest version that any of them, or itself, expects, and that version is one of theirs |
| StaleUndo.NoStaleUndo | Extension/src/task-writes.js:105-149 | Whenever a flush sends a change, nothing is touched by it that was set by a later change of the same thing whose success the client has written since, a contact's removal aside |
| RetriedUndo.RetryLetsUndo | Extension/src/queue.js:184-191 | The assumption on Retry is exact: from every state of an undisturbed run, after any Retry it excludes some later steps without a Retry make a newer change succeed and the retried older one sent over it, setting what that one set |
| StaleUndo.UndoneAfterRetry | Extension/src/task-writes.js:113-115 | A run in which a watching retried under an unwatching on its way undoes it |
| LandedUndo.UndoneOnlyIfGivenUp | Extension/src/queue.js:547-549 | When a flush sends an older change that sets what a newer one the server took has set, that one's answer was given up before its success write: its tab closed, the change kept or refused, its replay failed or stopped; and nobody awaits it |
| LandedUndo.GivenUpCanBeUndone | Extension/src/task-writes.js:105-112 | And from wherever an undisturbed run leads, an older change still queued and not replaced can be sent over any newer one the server took, once the answers awaited are given up |
| LandedUndo.UndoneAfterTabClosed | Extension/src/queue.js:592-617 | A run in which an unwatching the server took is undone by the watching made before it: its tab was closed before the answer |
| ServerCells.SupersededLeavesDone | Extension/src/task-writes.js:113-149 | On the server, what is left of an older change after superseding does to everything the newer one did not touch what the whole older change would have done; and it puts back nothing the newer one set, unless that is a tag and the list read for it shows the tag otherwise than the list now; tag names cut right after a space aside |
| ServerCells.UntouchedStays | Extension/src/queue.js:395-413 | What a change does not touch (tags, people, watching, comments, contact fields, columns) it leaves as it is, if and only if it is not a tag that the list read before the sending shows otherwise than the list now; tag names cut right after a space aside |
| ServerCells.LostBetween | Extension/src/queue.js:403-413 | A tag put on by somebody else between a change's reading and its sending is taken off, though the change does not touch it |
| ServerCells.TouchedIsSet | Extension/src/task-writes.js:86-101 | Everything a change touches ends as that change wants it, whatever was there before and whatever list was read; tag names cut right after a space aside |
| ServerCells.OrderIsFree | Extension/src/task-writes.js:36-84 | Two changes neither of which must follow the other can reach the server in either order: each reads the same list of tags, and it ends the same; tag names cut right after a space aside |
| ServerCells.OrderMatters | Extension/src/task-writes.js:36-84 | Two changes that want one thing differently cannot: the order decides what it shows; tag names cut right after a space aside |
| OwnWrites.OwnWritesNeverConflict | Extension/src/queue.js:547-549 | With no other writer and every answer arriving, the server refuses no edit of the task for its version; each waiting edit expects the task's version, or the one before it while an applied write awaits its queue write |
| OwnWrites.PickedLands | Extension/src/queue.js:514-527 | The edit or move a flush picks is accepted and makes its task's next version |
| OwnConflicts.RetryLetsConflict | Extension/src/queue.js:184-191 | The assumption on Retry is exact: from every state of a calm run, after any Retry it excludes some later steps, all of them calm, bring an own edit of the task on its way that the server can refuse for its version |
| Draining.DrainsAll | Extension/src/queue.js:514-557 | Any queue of own edits and moves, of any tasks, drains: three steps an item, each taken by the server once, in the order of the queue, none conflicting or failing, and nothing else leaves the queue |
| Draining.CalmRunDrains | Extension/src/queue.js:514-557 | So it does from every state of a run that is calm for every task, when a flush starts there |
| Changes.SupersedeTrims | Extension/src/task-writes.js:113-149 | What superseding leaves of a change: it goes over exactly the cells the newer one does not touch, or is marked replaced when none are left |
| QueueWrites.AfterSuccessItems | Extension/src/queue.js:547-549 | The success write removes exactly its own item and keeps every other one, superseded or rebased |
| QueueWrites.AfterSuccessOrder | Extension/src/queue.js:547-549 | And keeps the order of those that stay |
| QueueWrites.SuccessKeepsOthers | Extension/src/queue.js:199-203 | And leaves other people's items as they are |
| Edits.SameSymmetric | Extension/src/task-writes.js:178-192 | `same` is symmetric |
| Edits.SameTransitive | Extension/src/task-writes.js:178-192 | `same` is transitive: with the two others, an equivalence on JSON values that ignores the server's anchor day |
| Edits.SameReflexive | Extension/src/task-writes.js:178-192 | `same` is reflexive |
| Edits.StoredHeld | Extension/src/task-writes.js:195-208 | What the server stores for an edit, normalized, is found to hold the edit |
| Edits.HeldIsDone | Extension/src/task-writes.js:195-208 | A task found to hold an edit would be changed by it in nothing that counts |
| Replays.LostReplySettles | Extension/src/queue.js:433-464 | An edit whose first try landed and whose answer was lost is counted synced, at the version it made, and never failed |
| Replays.FailsOnAnswers | Extension/src/queue.js:357-400 | A replay fails for good only on a real answer, never on a timeout, a lost connection, a 401, 408, 429 or 5xx |
| SyncQueues.SyncQueue.Enqueue | Extension/src/queue.js:92-107 | A queued change goes last; without a person, or when the write fails, nothing is queued |
| SyncQueues.SyncQueue.EnqueueBehind | Extension/src/queue.js:120-154 | A change is queued behind others just when some waiting one must be followed and the write succeeds; an edit then expects the newest version that any of them, or itself, expects; it is synced straight away unless a waiting change is being retried |
| SyncQueues.SyncQueue.RetryQueued | Extension/src/queue.js:174-191 | Retry puts the item back with no tries counted, under a new key just after a refusal, and never a replaced one; the change and the key it was made with stay |
| SyncQueues.SyncQueue.RemoveQueued | Extension/src/queue.js:171-173 | Discard removes exactly that item |
| SyncQueues.SyncQueue.SupersedeQueued | Extension/src/queue.js:199-213 | A change sent now supersedes every older one; the queue is written if and only if one of them changes, and a write that fails leaves it as it was |
| SyncQueues.SyncQueue.SendOrQueue | Extension/src/queue.js:578-621 | A change goes behind those it must follow, or is sent; it is kept under its own key just when it got no usable answer |
| SyncQueues.SyncQueue.FlushQueue | Extension/src/queue.js:514-557 | A flush sends this person's waiting items once each, oldest first; it ends with none waiting, or paused at the first that waits; synced ones are gone, failed ones marked; the counts are those of the queue's change; waiting items keep fewer tries than the limit; others' items stay |
| SyncQueues.SendingAgreesWithReplay | Extension/src/queue.js:560-621 | What succeeds now would sync when replayed; what is kept would wait or be tried again; only an edit refused for its version may yet be found done |
| Tags.MergeTagChange | Extension/src/tags.js:44-59 | The merge's two walks compute the merge the laws below are about |
| Tags.MergeKeys | Extension/src/tags.js:37-59 | The result's keys are the current ones without those taken off, plus those put on; none twice |
| Tags.MergeOrder | Extension/src/tags.js:37-59 | The task's own tags first, in its order and spelling, then the added ones in theirs |
| TagsAgain.MergeTwice | Extension/src/tags.js:44-59 | The same change sent again changes nothing, when no name is cut right after a space |
| TagsAgain.MergeTwiceExactly | Extension/src/tags.js:44-59 | For all lists, sending the same change again changes nothing if and only if each kept name the cap cut right after a space has its shortened twin taken off or kept before it, is put on in that spelling, and has only such names after it, in the order they are put on |
| TagsAgain.OneNameTwice | Extension/src/tags.js:13-15 | For one new name on an empty list that is so if and only if the cap does not cut it right after a space |
| TagsAgain.CutTwice | Extension/src/tags.js:13-15 | A name with which the second merge makes two tags of one |
| Tags.TidyTwice | Extension/src/tags.js:12-15 | Tidying a name twice is tidying it once, except exactly for a name the cap cuts right after a space |
| Tags.MergesCommute | Extension/src/tags.js:37-59 | Changes that touch no tag in common commute, key by key |
| Tags.TrimmedMerge | Extension/src/task-writes.js:119-129 | A change trimmed by a later one does nothing to the trimmed tags and acts like the original on all others |
| StorageRoom.Storage.SaveQueue | Extension/src/queue.js:56-79 | Writing the queue fails only when it does not fit with no copies left, or they cannot be dropped; only the oldest copies go, no more than it takes, and nothing else changes |
| StorageRoom.Storage.PruneCache | Extension/src/read-cache.js:12-21 | Exactly the newest copies stay; nothing that is not a copy goes |
| StorageRoom.KeepNewest | Extension/src/read-cache.js:13-21 | Cutting the list of copies, newest first, drops none newer than one it keeps |
| Locks.LockInvariant | Extension/src/locks.js:10-24 | The tail kept for a name is its last call while that is not done; each call waits for the one of its name just before it |
| Locks.OneAtATime | Extension/src/locks.js:10-24 | Mutual exclusion in call order: while a call runs, every earlier one of its name is done and every later one waits or was refused |
| Locks.RefusedWhenTaken | Extension/src/locks.js:10-13 | A call that would not wait is refused if and only if another one has the lock or waits for it |
| Locks.SomeoneGoesOn | Extension/src/locks.js:14-24 | While a call waits, one of its name runs or is free to start |
| Sessions.NeverSentAgain | Extension/src/auth.js:164-205 | Over any number of contexts, a refresh token the server has taken is never sent again, while its answers arrive |
| Sessions.StepKeeps | Extension/src/auth.js:107-126 | A step keeps the stored tokens right if and only if it does not lose the answer to a request that spent one: a stop after the answer, or a request the server takes when nobody waits for it; a stop between the two writes of a rotated pair is none of these |
| Sessions.WaitersShare | Extension/src/auth.js:164-169 | A renewal asked for before a new access token was stored takes that one and asks the server nothing |
| Sessions.SignedOutOnlyByServer | Extension/src/auth.js:185-192 | The tokens are removed only once the server has ended the session |
| Sessions.OneRenewal | Extension/src/auth.js:164-205 | At most one context is past the renewal lock |
| Sessions.StillRenews | Extension/src/auth.js:107-112 | Whatever stopped where, short of a lost answer, a session the server keeps can be renewed |
| Sessions.LostAnswerSendsAgain | Extension/src/auth.js:172-184 | After a lost answer the spent token stays stored, and the next renewal that must ask sends it again |
| Sessions.TakenLateSendsAgain | Extension/src/auth.js:172-184 | So it is after the server took a request whose context had stopped or timed out |
| QuickAdd.OneTask | Extension/popup/quick-add-form.js:972-1042 | Tries of one task in one filling of the form, with no other task tried between them, make at most one task, whenever the popup is closed and reopened |
| QuickAdd.NeverOfferedAgain | Extension/popup/quick-add-form.js:783-811 | Once the kept draft is the task itself, which the server did make, nothing of that filling is ever tried again |
| QuickAdd.StepKeeps | Extension/popup/quick-add-form.js:1000-1016 | Every step of the form, its draft and the server keeps one key per task that may yet be made |
| QuickAdd.OpenKeeps | Extension/popup/quick-add-form.js:345-379 | So does reopening the popup with whatever draft was last written |
| QuickAdd.HoldKeeps | Extension/popup/quick-add-form.js:1079-1083 | So does holding a task with files while offline, without a draft being written |
| QuickAdd.ReplyKeeps | Extension/popup/quick-add-form.js:1016-1062 | So does any answer: the task, held, queued, refused for good, or none |
| QuickAdd.TryInv | Extension/popup/quick-add-form.js:1095-1104 | So does a new try, with the files or without |
| QuickAdd.AnotherBetween | Extension/popup/quick-add-form.js:1002-1004 | The condition is needed: a task, another one, and the first again are two keys for the first, and the server may make both |
| Overlays.OverTaskList | Extension/src/pending-overlay.js:104-141 | The loop over the queue computes the list and how many changes touched it |
| Overlays.OverTask | Extension/src/pending-overlay.js:143-156 | The loop over the queue computes the open task and how many changes touched it |
| Overlays.OverWatchers | Extension/src/pending-overlay.js:217-227 | The loop over the queue computes the watchers shown |
| Overlays.ListIsRows | Extension/src/pending-overlay.js:104-141 | A list shows each of its rows by itself, in order, then the tasks created offline, each after the changes queued behind it |
| Overlays.RowIsTask | Extension/src/pending-overlay.js:51-156 | A row a list still shows is the open task; a row is gone if and only if a queued delete takes it off; the open task says deleted if and only if one names it |
| Overlays.GoneIsDeleted | Extension/src/pending-overlay.js:117-127 | With no delete of a whole series, a list lacks a row if and only if the open task says it is deleted |
| Overlays.LastWins | Extension/src/pending-overlay.js:51-80 | A field shows what the last queued edit or move that sets it sets, or what was read; never the request's own version or scope |
| Overlays.MovedLast | Extension/src/pending-overlay.js:63-77 | After a queue that ends in a move into Done the task shows complete, at the time it was first completed; out of Done, open again |
| Overlays.WatchingAgrees | Extension/src/pending-overlay.js:207-227 | The task says watching if and only if its watchers list the person; nobody else comes or goes |
| Overlays.TagsAgree | Extension/src/pending-overlay.js:55-61 | The tags shown for a queue are those its replay leaves, in the same order, in whatever case the server keeps them |
| CommentThreads.RootOf | Extension/src/comment-thread.js:24-38 | Following the parents ends, at a comment without one or at the earliest comment of the circle they go round in |
| CommentThreads.ThreadComments | Extension/src/comment-thread.js:9-55 | Every comment is in exactly one thread, at one place; threads and replies are in time order; each reply says which comment it answers |
| CommentThreads.OneRoot | Extension/src/comment-thread.js:20-38 | A comment has one thread |
| CommentThreads.SameThread | Extension/src/comment-thread.js:20-38 | Comments whose parents meet share one thread, and a thread's first comment is its own |
| CommentThreads.CircleRoot | Extension/src/comment-thread.js:20-38 | A circle of parents gives exactly one thread, from its earliest comment |
| CommentThreads.NothingLost | Extension/src/comment-thread.js:40-54 | What the two walks fill holds every comment once and nothing else |
| CommentThreads.OrderedIs | Extension/src/comment-thread.js:11-15 | The order is by time, keeps every comment, and keeps comments of one time, or none, as they came |
| Mentions.DetectMention | Extension/src/mentions.js:67-73 | A mention is found at the caret if and only if there is one, with its '@' and what is typed of it |
| Mentions.TokenizeMentions | Extension/src/mentions.js:126-154 | The walk over the '@'s computes the tokens the laws below are about |
| Mentions.TokensAre | Extension/src/mentions.js:126-154 | The tokens together are the text; no empty text, no two side by side; each mention is at an '@' that starts one, under the name chosen there |
| Mentions.ChosenIs | Extension/src/mentions.js:136-147 | The name marked is a listed one that matches at a boundary, and no longer listed one does; none is marked only when none matches |
| Mentions.PickedIs | Extension/src/mentions.js:131-133 | A place that could be marked is left out if and only if a mention marked before it reaches over it |
| Mentions.PickedIsMarked | Extension/src/mentions.js:67-80 | Picking a person where a mention is typed marks them just there, whatever else is in the text, and ends the typing |
| Mentions.MatchIsShaped | Extension/src/mentions.js:54-64 | A listed name that matches is all of what is shaped like a name there, unless two of '.' and '-' follow each other: with the list or without, the same is marked |
| Mentions.ShapedMatches | Extension/src/mentions.js:141-147 | What is shaped like a name ends where a listed name may end |
| Activity.BuildGroups | Extension/src/activity-feed.js:415-428 | The timeline's groups are a partition of the entries in order; neighbours in a group join, neighbouring groups do not |
| Runs.OneGrouping | Extension/src/activity-feed.js:415-428 | There is only one such grouping |
| Activity.OneRun | Extension/src/activity-feed.js:112-112 | A group has one person and one key, and its neighbours are within the window |
| Activity.KeyIsRun | Extension/src/activity-feed.js:73-110 | Two entries have one key if and only if they are of one run, both by hand or both through MICO AI, or one kind of checklist title makes them look so |
| Activity.HandFoldsWithAi | Extension/src/activity-feed.js:7-8 | Two entries, one by hand and one through MICO AI, that fold into one line |
| Activity.FoldChanges | Extension/src/activity-feed.js:246-257 | The loops compute the fold the laws below are about |
| Activity.FoldIsFaithful | Extension/src/activity-feed.js:246-257 | Applying the folded changes comes to what the edits do one by one, when each starts from what the ones before it left |
| Activity.FoldedFrom | Extension/src/activity-feed.js:246-254 | The fold's old value of a field is the one before the first edit |
| Activity.FoldedTo | Extension/src/activity-feed.js:246-254 | The fold's new value of a field is the one after the last edit |
| Activity.ShownIs | Extension/src/activity-feed.js:246-256 | An edited field is shown once, from the first edit's old value to the last one's new value and reason, or left out if and only if those two values are the same and it is not the description |
| Activity.NotShown | Extension/src/activity-feed.js:246-256 | A field nobody edited is not shown |

## Left out

Assumed, each named in the theorem that needs it:

- AtMostOnce.AtMostOnce: Retry gives a POST a new key only when the server refused its key or was never sent it (`Honest`); shown needed. AppliedTwice.DishonestIs408 also takes every 4xx that fails a POST to be the server's own answer to its key.
- AppliedTwice.RetryAppliesAgain: the random keys of a change are no other message's client id (`KeysApart`).
- Ordering.NoOvertaking: Retry is not pressed on an item the running flush has tried (`Patient`); shown needed. It speaks of changes already queued when the later one was made: two changes sent now one after the other are not kept in order here, nor by `sendOrQueue`.
- StaleUndo.NoStaleUndo: Retry is not pressed on an item the running flush has tried, if it sets something, nor while a newer change that sets what it sets is on its way (`Undisturbed`); shown needed. It too speaks only of older changes that were queued when the newer one was made. A contact's removal as the older change is excepted, as in the source. Of a newer change whose success was never written, `LandedUndo` says what can happen.
- LandedUndo.UndoneOnlyIfGivenUp: it speaks, as NoStaleUndo does, of when a change is sent; a request sent before the newer change was made, which the server takes only after that one, can still undo it, and no client could prevent that.
- ServerCells.UntouchedStays: the tag names of the change, and of the list read, are not cut by the cap right after a space (`CleanTags`); `Tags.TidyTwice` says what becomes of such a name.
- ServerCells.TouchedIsSet: the same, and the comment or contact is still there.
- ServerCells.SupersededLeavesDone: the same.
- ServerCells.OrderIsFree: the same for both changes, whose payloads name what they are about, a comment or contact being of one task (`WellNamed`).
- ServerCells.OrderMatters: the same for both changes.
- Versions.VersionSafety: a version the conflict check found to hold an own edit may be somebody else's write of the same values.
- OwnWrites.OwnWritesNeverConflict: `Calm` lists what one device writing alone means; edits of a task are made one at a time, as `createWriteLane` makes them. An edit sent at once is made from the newest copy this device holds; one queued behind others may be made from any older copy when a waiting edit it follows names a version (`IsRaised`: it is raised to the newest they expect), and otherwise from the newest.
- Sessions.NeverSentAgain: no answer to a renewal that spent its token is lost, neither by a stop after it came nor because nobody waits for it any more, and a 400 or 401 to it is the server's own.
- QuickAdd.OneTask: a 4xx answer to a try is the server's own refusal, as `keyIsSpent` takes it to be; a draft the form waits for is written; with no session storage there is no draft, and closing the popup can make a second task.
- Overlays.TagsAgree: the server keeps the names it is sent, in any case, and nobody else changes the list meanwhile; its own limits on tags are not part of this model.
- Edits.StoredHeld: how the server normalizes an edit is taken from the comments on `patchHeld`; the backend is not part of this model.
- The queue's writes succeed in `Protocol`, those of `enqueueBehindTaskWrites` and `supersedeQueued` among them; `SyncQueue.SendOrQueue` has their failures too, where the change is sent now, or nothing is superseded.
- Random ids and keys are new; keys kept for a day by the server are kept for good.

Modelled more simply than in the source:

- Tags.Merged: names are lowered in case only for A to Z, and a text is a list of characters, not of UTF-16 units.
- Edits.Same: numbers are reals without NaN, and day fields that are not text are compared as they are.
- Mentions.Tokens: which characters names are made of is a parameter; the list's order among names of one length stays.
- Activity.MergeKey: the key's text is kept in two parts, a base and the tail, since no base has a '|' in it.
- CommentThreads.Ordered: the library's stable sort is an insertion sort.
- Protocol, Sessions, Locks and QuickAdd are state machines on values: the source's objects are changed by several contexts at once, and each change is a step. The queue itself is also a class, with the flush as its loop, where nothing else writes meanwhile.
- SyncQueues.SyncQueue.FlushQueue: nobody else writes the queue during the flush; `Protocol` has the interleavings.
- Times, error texts and wording of items (`queuedAt`, `lastError`) are left out.

Not modelled:

- Screens, dialogs, menus, announcements, the app's own pages and all of the Android application.
- HTTP, the browser's storage and lock interfaces, JSON parsing and timers: steps with an answer, a refusal, a lost or an unreadable reply.
- `mutationRequest`'s paths and bodies beyond which kinds are POSTs carrying a key; `describeMutation`; `assignOwnerlessItems`.
- Sign-in or sign-out during a refresh or a flush; a session of another server, beyond that it is never renewed here.
- The overlays of checklists, comments, people, attachments, notifications, messages and meetings: folds of the same shape as the ones proved.
- `suggestMentions`, `statusPath` and the timeline's texts; `read`, `merge` and `update` of the read cache.
- The form's fields and their checks beyond an opaque task; the side panel's separate draft; `useCapture`, which edits or clears the form.
