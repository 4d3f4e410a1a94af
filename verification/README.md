# crescend.io: lobby store, sync protocol, sign-in tokens and search

crescend.io is a shared jukebox. This project models its hard core in Dafny and proves what that core is for. It has four
linked parts.

1. **Lobby and queue store.** Lobbies, memberships, queue entries, their order, votes and policies, changed by serialized
   transactions that sample a clock several times. `Rooms` and `Transactions` say what each transaction does to a map of
   lobbies; `Tables`, `Statements` and `LobbyStores` are the relational tables, the SQL statements over them, and the
   store object whose methods execute them, proved equal to the former. `Authority`, `Decisions` and `Memberships` say,
   without those definitions, who may do what and what every request leaves; `StoreLaws`, `Accounting`, `Runs`,
   `Submissions` and `Progression` prove the laws of single transactions and of whole runs.
2. **Sync protocol.** `Stream` is one server connection (lossy hints, timers, reads, terminal events), `Framing` and
   `Messages` the client's event-stream reader, `Session` the browser's session cut at its awaits, `QueueSessions` the
   same session as an object. `Duties` says what each of its steps sends and shows; `SessionLaws`, `SessionRuns` and
   `SessionEffects` prove what its steps keep, `Attempts` what becomes of a submission's retry identity, `BusyFlag` when
   its busy flag is given back. `Convergence` interleaves the store, the session and its streams and proves that a session
   at rest shows the store's present queue; `Playback` joins the two, from the end of a song in the browser to the one
   entry its advance takes.
3. **Sign-in tokens.** `Refresh` and `RefreshStores` are the one-time refresh tokens with session-wide revocation, in the
   style of section 4.14.2 of RFC 9700; `Coordinator`, `AuthCoordinators`, `MultiTab` and `TabLaws` are any number of
   tabs sharing a cookie, a stop flag and a lock over an unreliable network, composed with that store.
4. **Search.** `Flights`, `FlightLaws`, `Outcomes` and `SearchServices` are single-flight discovery with cancellation and
   a daily allowance; `Catalog`, `CatalogLaws` and `CatalogStores` the song catalog with its trigger-kept index; `Sorting`
   and `Ranking` the ranked merge, joined to the catalog in `SearchResponses`; `Durations` the exact ISO 8601 duration
   parser; `Revisions` the text form of revisions.

Conventions. A transaction function answers the reply and the store that commits (the old store when it rolls back).
A `Clock` holds the eleven samples a transaction may take, nondecreasing. Allocators are arbitrary supplies, so the
eight-try loops really may collide. Without `storage` some statement of the transaction fails, from the first read to the
commit. Steps of the session, the streams, the tabs and the flights are the pieces of code between two awaits, and runs
interleave them in any order. Numbers are unbounded except where the code checks a width, which is then written out.

Six facts found on the way:

- `snapshot` reports a fixed threshold also while a lobby has no guests, when moderation removes nothing; since such a
  threshold is at least one and no active votes exist then, what is shown and what is applied still agree
  (`Runs.ShownThresholdIsApplied`).
- A discovery task that is dropped before its first poll (a runtime shutting down) has no completion guard yet. It is the
  only way a flight can outlive its task (`FlightLaws.LostExactlyWhen`), its query then stays blocked and every caller
  times out (`FlightLaws.DroppedQueryIsBlocked`), and the run of two steps shows it
  (`FlightLaws.DroppedBeforeItsFirstPoll`).
- Whether an event stream is accepted can depend on how it was split: a text whose data parse and whose blocks and tail
  are each within 65536 code units is read when it arrives whole, but is refused one unit at a time if some block and all
  of its boundary but the last unit exceed 65536, which takes a block of 65536 units before LF LF and one of 65534 or
  more before CR LF CR LF (`Framing.SplitMattersExactlyWhen`, with an instance in `Framing.SplitMattersHere`).
- A reservation of the daily allowance may commit after its search has timed out or been dropped, and is then counted
  without a search (`FlightLaws.AReservationIsWasted`); so the counter bounds the searches sent and equals them exactly
  when that did not happen (`FlightLaws.SearchesArePaidFor`).
- If local storage refuses the stop flag, another tab that has not handled the broadcast yet may send a consumed cookie,
  which revokes the session (`MultiTab.UnsavedFlagReplays`); the flag being stored is what refresh safety rests on
  (`MultiTab.SafeExactlyWhenSaved`).
- A session that is stopped while one of its requests is out stays busy when it is started again with the same
  membership: the answer no longer counts, and nothing else clears the flag, so nothing can be sent until the membership
  changes (`BusyFlag.LostUntilAnotherMembership`, with the run in `BusyFlag.StoppedBeforeTheAnswer`). Otherwise a busy
  session always has a request out that will free it (`BusyFlag.BusyIsOwedExactlyWhen`).

## Model

| member | source | states |
|---|---|---|
| `Ordering.RelocatePermutes` | backend/src/database/queue.rs:151-153 | removing an element and inserting it elsewhere is a permutation that puts it at the destination |
| `Ordering.RelocateOrder` | backend/src/database/queue.rs:151-153 | a relocation keeps the relative order of all the others |
| `Ordering.WithoutOrder` | backend/src/database/queue.rs:404-407 | `retain` keeps the relative order of what it keeps |
| `Ordering.WithoutDistinct` | backend/src/database/queue.rs:404-407 | `retain` keeps entries distinct |
| `Rooms.ReevaluateExact` | backend/src/database/queue.rs:384-410 | one pass removes exactly the entries whose active guest votes reach the threshold and keeps the survivors' order |
| `Rooms.ReevaluateIdempotent` | backend/src/database/queue.rs:384-410 | after one pass nothing qualifies, so a second pass changes nothing |
| `Rooms.MoveExact` | backend/src/database/queue.rs:127-160 | a move needs the stored revision, never moves or displaces the current entry, and permutes the rest keeping every other pair's order |
| `Rooms.MoveKeeps` | backend/src/database/queue.rs:127-160 | a move that changes something keeps every lobby invariant and moderation stability |
| `Rooms.VoteKeeps` | backend/src/database/queue.rs:184-219 | an accepted first vote is for a queued entry and is stored once, and the entries the votes then remove, and only they, leave the order; nothing else of the lobby changes |
| `Rooms.PolicyKeeps` | backend/src/database/queue.rs:199-219 | a new valid policy is stored, and the entries it removes, and only they, leave the order; nothing else of the lobby changes |
| `Rooms.AdvanceKeeps` | backend/src/database/queue.rs:230-255 | an advance removes exactly the head it names |
| `Rooms.VetoKeeps` | backend/src/database/queue.rs:257-282 | a veto changes the lobby exactly when the entry is queued |
| `Transactions.Authorize` | backend/src/database/queue.rs:459-492 | who is let through holds the membership, in a lobby open and not ended at the second clock sample |
| `Authority.CommitsForItsRole` | backend/src/database/queue.rs:136-228 | an edit, whatever it is, commits only for an account holding the membership of an open lobby, both before their deadlines at the start and at the commit, and votes are guests' while moves, policies, advances and vetoes are the owner's |
| `Authority.WrongRoleIsRefused` | backend/src/database/queue.rs:481-485 | a member let through both clock checks in the wrong role is told `HostRequired` or `GuestRequired`, and the store is as it was |
| `Authority.OutsidersAreRefused` | backend/src/database/queue.rs:466-479 | nobody else edits, reads, looks for a receipt or submits anything, and is told whether it is the account or the membership |
| `Authority.MembersRead` | backend/src/database/queue.rs:284-296 | owner and guests alike read the queue, as long as their deadlines hold at the end |
| `Decisions.EditsDecide` | backend/src/database/queue.rs:127-282 | what every request decides on its lobby, error by error: the order moved to, the vote stored and what it removes, the policy stored and what it removes, the head or the entry taken out |
| `Decisions.EditsCommitWhatTheyDecide` | backend/src/database/queue.rs:127-282 | the whole of an edit by an admitted caller in its role: its decision, one revision or unavailability at the last one, the deadlines at the commit, and the view |
| `Decisions.ModerationCounts` | backend/src/database/queue.rs:395-402 | by majority an entry goes when more than half of the present guests voted for it, with a fixed count when that many did, and never without guests |
| `Decisions.ViewTellsTheLobby` | backend/src/database/queue.rs:47-91 | a view shows the first entry as current and the rest in order, each with its record, its active votes, and whether this guest has voted for it |
| `Decisions.ViewTellsTheVoting` | backend/src/database/queue.rs:33-46 | and the policy, the number of guests, and the votes that remove an entry, where there is such a number |
| `Transactions.FreshEntry` | backend/src/database/queue.rs:340-353 | the bounded insertion loop yields only an id no entry has, with a timestamp it sampled |
| `Transactions.AppendKeeps` | backend/src/database/queue.rs:340-365 | a fresh occurrence appended under an unused retry identity keeps the lobby invariant and stability |
| `Decisions.RepeatsFindTheirReceipt` | backend/src/database/queue.rs:298-339 | a retry by any member finds its first submission, queued or not: another video conflicts, the same is shown again with nothing changed |
| `Decisions.FirstSubmissionsFail` | backend/src/database/queue.rs:340-365 | a first submission without a free id within eight, or without a revision left, is unavailable and changes nothing |
| `Decisions.FirstSubmissionsStore` | backend/src/database/queue.rs:340-375 | otherwise, its deadlines holding, its own record is stored under the first free id, at the end of the order, and takes one revision |
| `Decisions.NoReceiptIsFound` | backend/src/database/queue.rs:298-321 | looking for a submission that was never made finds none |
| `StoreLaws.MutateLawful` | backend/src/database/queue.rs:127-282 | move, vote, policy, advance and veto keep all store invariants and change a lobby only with its next revision |
| `StoreLaws.SubmitLawful` | backend/src/database/queue.rs:323-376 | so does a submission |
| `StoreLaws.LeaveLawful` | backend/src/database/lobbies.rs:35-113 | so does leaving, by a guest, by the owner (who closes the lobby), and from an ended lobby |
| `StoreLaws.ReclaimLawful` | backend/src/database/lobbies.rs:260-261 | reclaiming an ended membership keeps the invariants without taking a revision |
| `StoreLaws.JoinLawful` | backend/src/database/lobbies.rs:238-353 | so does joining, including a guest's transfer between two lobbies |
| `StoreLaws.CreateLawful` | backend/src/database/lobbies.rs:398-491 | so does creating, with its bounded allocation loop |
| `StoreLaws.ExpireLawful` | backend/src/database.rs:200-207 | scheduled cleanup removes only lobbies past their deadline and touches no other |
| `Accounting.EditTakes` | backend/src/database/queue.rs:127-282 | `changed` is reported exactly when the lobby visibly changed and took one revision; refusals and no-ops leave the store as it was |
| `Accounting.SubmitTakes` | backend/src/database/queue.rs:323-376 | a repeat or a refusal changes nothing; a new submission appends one occurrence to one lobby and takes one revision |
| `Accounting.LeaveTakes` | backend/src/database/lobbies.rs:35-113 | a release of a live membership takes one revision of that lobby and names it; the owner's release vacates the lobby; a stale one takes none |
| `Accounting.JoinTakes` | backend/src/database/lobbies.rs:238-353 | a join takes one revision of the lobby entered and, in a transfer, one of the lobby left; otherwise none |
| `Accounting.CreateTakes` | backend/src/database/lobbies.rs:398-491 | a creation founds one lobby and takes no other lobby's revision; a failure restores the store |
| `Accounting.CleanupIsUnseen` | backend/src/database.rs:200-207 | cleanup as of a time changes no grant of authority, queue view, current lobby or reply of an edit at any time from then on, and commutes with every edit |
| `Accounting.ExpireRemovesOnlyEnded` | backend/src/database.rs:200-207 | cleanup removes exactly the lobbies past their deadline and keeps every other as it is |
| `Memberships.LeavingIsExact` | backend/src/database/lobbies.rs:55-112 | what leaving leaves: another's membership is refused, an ended one dropped without a revision, the owner's closes the lobby down to nothing, a guest's goes and the rest is re-moderated without it, in one revision |
| `Memberships.LeavingNothing` | backend/src/database/lobbies.rs:42-55 | an unknown account or membership changes nothing |
| `Memberships.MembersStay` | backend/src/database/lobbies.rs:268-270 | joining the lobby one is in changes nothing and shows it |
| `Memberships.NewcomersEnter` | backend/src/database/lobbies.rs:294-342 | an account without an active lobby enters under the first free membership id, its time of joining now, the lobby re-moderated with it, in one revision; an ended membership goes |
| `Memberships.NewcomersWait` | backend/src/database/lobbies.rs:302-314 | without a free id or a revision left nobody enters, and nothing changes |
| `Memberships.OwnersAreKept` | backend/src/database/lobbies.rs:277-280 | an owner is not moved out of the lobby it owns, nor a guest whose lobby has no revision left |
| `Memberships.GuestsMoveOver` | backend/src/database/lobbies.rs:271-342 | a guest of another lobby moves over: the one left is re-moderated without it, the one entered with it, each in one revision, and both are told |
| `Memberships.GuestsWait` | backend/src/database/lobbies.rs:302-314 | or stays where it is, when there is no free id or no revision |
| `Memberships.FoundingIsExact` | backend/src/database/lobbies.rs:413-485 | a founded lobby has the first free candidate's ids and code, lasts a day, has its owner as the only member, decides by majority and is empty, at revision one |
| `Memberships.FoundingWaits` | backend/src/database/lobbies.rs:413-417 | without a free candidate within eight, or at the end of time, nothing is founded |
| `Memberships.CurrentIsTheirs` | backend/src/database/lobbies.rs:150-211 | the lobby shown to an account is the one it is in, active when asked and still before its deadline when answered |
| `Memberships.SightingIsExact` | backend/src/database/lobbies.rs:115-126 | a stream reads nothing of a deleted lobby, else its revision, whether it is closed, and whether the member is there |
| `Tables.SortedRange` | backend/src/database/queue.rs:412-420 | ordering the positions 0..n-1 yields them in turn |
| `Tables.ReplaceOrderRefines` | backend/src/database/queue.rs:422-442 | deleting and rewriting a lobby's positions stores exactly the given sequence and touches no other lobby |
| `Tables.AppendIsReplace` | backend/src/database/queue.rs:354-364 | inserting at the end of the positions is the sequence with one more element |
| `Tables.CloseRefines` | backend/src/database/lobbies.rs:77-95 | the owner's closure deletes every child row and leaves only the closed lobby row |
| `Tables.DeleteMemberRefines` | backend/src/database/lobbies.rs:62-102 | deleting a membership row is exactly the lobby without that member |
| `Tables.ExpireRefines` | backend/src/database.rs:200-207 | the cascade of a lobby's deletion leaves every other lobby's rows alone |
| `Tables.FoundRefines` | backend/src/database/lobbies.rs:435-467 | the rows inserted by a creation are exactly one founded lobby |
| `Tables.QualifyingRefines` | backend/src/database/queue.rs:400-403 | the query for qualifying entries, over joined vote and membership rows, finds exactly those the model says qualify |
| `Statements.SelectOrder` | backend/src/database/queue.rs:412-420 | the loop over positions reads back the stored order |
| `Statements.ReplaceOrder` | backend/src/database/queue.rs:422-442 | the rewriting loop stores positions 0..n-1 for exactly the given ids |
| `Statements.ReevaluateOrder` | backend/src/database/queue.rs:384-410 | moderation over rows computes the re-evaluated lobby's order |
| `Statements.SelectView` | backend/src/database/queue.rs:22-91 | for well-formed tables the noncontiguous-order failure cannot happen and the view is the snapshot of the lobby |
| `Statements.CheckAuthority` | backend/src/database/queue.rs:459-492 | the joined membership query decides as authorization is specified, error by error |
| `Statements.Increment` | backend/src/database/queue.rs:509-520 | the revision is raised by one, or the request is unavailable at the largest 64-bit number |
| `Statements.PlanMove` | backend/src/database/queue.rs:137-154 | the statements of a move decide what the specified edit decides, error by error |
| `Statements.InsertVote` | backend/src/database/queue.rs:184-219 | the statements of a vote store exactly the specified vote and re-evaluated order |
| `Statements.AllocateEntry` | backend/src/database/queue.rs:340-353 | the eight-try loop finds the first supplied id that is free |
| `Statements.JoinRows` | backend/src/database/lobbies.rs:238-353 | the statements of a join leave the specified store and reply |
| `LobbyStores.LobbyStore.MoveQueue` | backend/src/database/queue.rs:127-168 | the method's whole new state and reply are those of the specified transaction, all or nothing |
| `LobbyStores.LobbyStore.ModerateQueue` | backend/src/database/queue.rs:170-228 | likewise for votes and policies |
| `LobbyStores.LobbyStore.AdvanceQueue` | backend/src/database/queue.rs:230-255 | likewise for an advance |
| `LobbyStores.LobbyStore.VetoQueue` | backend/src/database/queue.rs:257-282 | likewise for a veto |
| `LobbyStores.LobbyStore.QueueView` | backend/src/database/queue.rs:284-296 | the view read is the specified one and nothing changes |
| `LobbyStores.LobbyStore.QueueReceipt` | backend/src/database/queue.rs:298-321 | the earlier submission with this retry identity, or none |
| `LobbyStores.LobbyStore.SubmitQueue` | backend/src/database/queue.rs:323-376 | likewise for a submission |
| `LobbyStores.LobbyStore.LeaveLobby` | backend/src/database/lobbies.rs:35-113 | likewise for leaving and closing |
| `LobbyStores.LobbyStore.JoinLobby` | backend/src/database/lobbies.rs:238-353 | likewise for joining and transferring |
| `LobbyStores.LobbyStore.CreateOwnedLobby` | backend/src/database/lobbies.rs:398-491 | likewise for creating |
| `LobbyStores.LobbyStore.DeleteExpired` | backend/src/database.rs:200-207 | likewise for cleanup, with the number of lobbies removed |
| `LobbyStores.LobbyStore.RegisterUser` | backend/src/database.rs:104-114 | an account is added once and nothing else changes |
| `LobbyStores.LobbyStore.BoundStreamState` | backend/src/database/lobbies.rs:115-126 | what a stream reads of its bound lobby |
| `LobbyStores.LobbyStore.CurrentLobby` | backend/src/database/lobbies.rs:150-211 | the caller's active lobby, checked against the clock before and after |
| `Runs.ApplyLawful` | backend/src/database/queue.rs:127-376 | every request of the store is lawful: invariants kept, at most one revision per lobby, history kept |
| `Runs.RunInv` | backend/src/database/lobbies.rs:238-353 | every reachable store satisfies the invariants at its time, and time has not gone back |
| `Runs.RunsFromEmpty` | backend/src/database/lobbies.rs:355-383 | whatever requests follow the creation of the tables make a run, so all laws of runs hold from then on |
| `Runs.RevisionIsAStamp` | backend/src/database/queue.rs:509-520 | over any run, the same active lobby with the same revision has identical members, policy, order, entries and votes |
| `Runs.ClosedStaysVacated` | backend/src/database/lobbies.rs:77-95 | a closed lobby has nothing and never regains anything |
| `Runs.LobbyStructure` | backend/src/database/lobbies.rs:355-383 | in every reachable state each account has at most one membership, each active lobby's owner is a member of it, and nobody owns two active lobbies |
| `Runs.ModerationIsStable` | backend/src/database/queue.rs:384-410 | in every reachable state no queued entry of an active lobby with guests has active votes at the threshold |
| `Runs.ShownThresholdIsApplied` | backend/src/database/queue.rs:40-46 | an entry qualifies for removal exactly when its active votes reach the threshold the view reports |
| `Runs.ViewShowsNothingRipe` | backend/src/database/queue.rs:47-91 | no view of an active lobby shows an entry with as many votes as the threshold it shows |
| `Runs.ReplyShowsCommit` | backend/src/database/queue.rs:155-168 | a successful reply shows the order and revision its own transaction committed |
| `Runs.AcceptedMove` | backend/src/database/queue.rs:135-154 | an accepted move relocates the one occurrence it names, at the stored revision |
| `Runs.MoveActsOnTheOrderSeen` | backend/src/database/queue.rs:135-154 | a move accepted at `expected_revision` acts on exactly the order of the view that carried that revision, whatever ran in between |
| `Runs.RetiredNeverReturns` | backend/src/database/queue.rs:422-442 | an entry that has left the order never returns to it while its lobby lives |
| `Submissions.StagesFollow` | backend/src/queue/mod.rs:18-41 | authority is asked for before the URL is judged, an earlier receipt is looked for before anything is fetched, what is committed is what was looked up under the id asked for, and a failure is told as it is |
| `Submissions.AnswersPassOn` | backend/src/queue/mod.rs:21-49 | an earlier receipt is the answer, and a commit's reply is passed on with the store it left |
| `Submissions.ExecutionInv` | backend/src/queue/mod.rs:10-49 | any interleaving of staged submissions and other requests keeps answers consistent with the store |
| `Submissions.ExactlyOnce` | backend/src/queue/mod.rs:10-49 | one lobby, account and request id creates at most one entry, and all successful replies name it |
| `Submissions.DifferentVideoConflicts` | backend/src/database/queue.rs:93-110 | the same retry identity with another video is always a conflict, unless storage fails |
| `Progression.AdvanceTakesItsOccurrence` | backend/src/database/queue.rs:230-255 | a committed advance is the host's, removes exactly the head it names, takes one revision and changes nothing else |
| `Progression.ConsumedOnce` | backend/src/database/queue.rs:230-255 | over any run, once an occurrence has left the order no advance of it takes anything |
| `Progression.NoOccurrenceTakenTwice` | backend/src/database/queue.rs:230-255 | two committed advances of one lobby never took the same occurrence |
| `Progression.VetoTakesItsOccurrence` | backend/src/database/queue.rs:257-282 | a veto is the host's, removes the named entry and keeps the rest in order, takes a revision exactly when it was queued, and changes nothing else of this or any other lobby |
| `Playback.AdvanceTakesWhatWasShown` | frontendUI/app/lib/queue-state.ts:182-216 | an advance sent at any moment and committed at any later one removes exactly the entry current in the view the host's session then showed, from the lobby it showed, and changes nothing else |
| `Playback.AdvanceCommitsOnce` | backend/src/database/queue.rs:230-255 | of all later advances of that entry for that membership, whoever repeats them, none commits anything |
| `Playback.EndsComeFromThePlayer` | frontendUI/app/lib/queue-state.ts:212-216 | an end is deferred only when the player reports it for the entry then current while another mutation is outstanding |
| `Playback.OneAdvancePerDeferredEnd` | frontendUI/app/lib/queue-state.ts:184-189 | over any run of the system, between two advances sent without the player asking the player reported the end the second is for |
| `Stream.StepIsOk` | backend/src/lobbies/updates.rs:96-199 | `last` is what was last emitted, a revision is emitted only when read and newer, and a terminal event ends the stream |
| `Stream.RevisionsRise` | backend/src/lobbies/updates.rs:176-192 | of two revision events of a connection the later is a `lobby_changed` with a larger revision |
| `Stream.SilentUntilFirst` | backend/src/lobbies/updates.rs:176-192 | the first revision event is `sync_required` |
| `Stream.EmitsWhatItRead` | backend/src/lobbies/updates.rs:134-162 | an emitted revision is one the store answered in that step, for a member of an open lobby, whatever the hints said |
| `Convergence.LastReadIsLastWritten` | backend/src/lobbies/updates.rs:176-192 | over any run of the system, after every accepted read of a connection the last revision written is the one read, and the read wrote an event exactly when it had not been written yet |
| `Stream.NothingAfterTheEnd` | backend/src/lobbies/updates.rs:77-100 | nothing but the end of the stream follows a terminal event |
| `Stream.EndsOnlyForItsReason` | backend/src/lobbies/updates.rs:77-94 | `auth_expired` comes only at or after the token's expiry, `expired` only at or after the lobby's deadline with the token live, `closed` only on a read of a closed lobby, `left` only on a read of an open one without the member |
| `Stream.ReadsEndForTheirReason` | backend/src/lobbies/updates.rs:153-175 | and every such read past the deadlines emits exactly that event |
| `Stream.DeadlinesEnd` | backend/src/lobbies/updates.rs:102-127 | a deadline that has come when it is looked at ends the stream with its event, the token's before the lobby's |
| `Stream.FailuresJustEnd` | backend/src/lobbies/updates.rs:156-161 | a failed read or a missing lobby ends the stream with no reason |
| `Stream.ReadsExactlyWhenCalledFor` | backend/src/lobbies/updates.rs:108-130 | a wake-up reads exactly at a due boundary or timer, on a hint for this lobby, or after lost hints |
| `Stream.ReadsSetTheTimers` | backend/src/lobbies/updates.rs:176-196 | an accepted read allows the next one a second later, and a comment is written exactly when nothing new was read and fifteen seconds are over |
| `Stream.CommentsAreSpaced` | backend/src/lobbies/updates.rs:193-196 | over any connection two comments are at least fifteen seconds apart |
| `Stream.FirstCommentWaits` | backend/src/lobbies/updates.rs:71-72 | a connection may read at once, and its first comment comes no sooner than fifteen seconds after it was opened |
| `Convergence.EndsTellTheTruth` | backend/src/lobbies/updates.rs:153-175 | with the store: a stream says closed or left only if its lobby was closed, or open without the member, at a moment since the read began; and a read that finds it so past the deadlines says exactly that |
| `StreamConnections.StreamConnection.Wake` | backend/src/lobbies/updates.rs:110-130 | a wake-up by boundary, timer, hint, lag or closed channel leaves the specified state and output |
| `StreamConnections.StreamConnection.Tick` | backend/src/lobbies/updates.rs:140-155 | a deadline that passes during a read ends the stream without waiting for the read |
| `StreamConnections.StreamConnection.Answer` | backend/src/lobbies/updates.rs:153-197 | a read's answer leaves the specified state and output |
| `StreamConnections.StreamConnection.Poll` | backend/src/lobbies/updates.rs:97-109 | asking for the next event checks the deadlines and reads at once the first time |
| `QueueSessions.QueueSession.Start` | frontendUI/app/lib/queue-state.ts:74-79 | starting leaves the specified session: new epoch, new lifetime, a stream, a synchronization |
| `QueueSessions.QueueSession.Stop` | frontendUI/app/lib/queue-state.ts:80-83 | stopping ends the epoch and drops flight, deferral and stream but not `busy` |
| `QueueSessions.QueueSession.SetMembership` | frontendUI/app/lib/queue-state.ts:84-93 | an answer about the membership is ignored, refreshed, or starts a new epoch |
| `QueueSessions.QueueSession.ApplyQueue` | frontendUI/app/lib/queue-state.ts:94-98 | a view is applied only in its epoch, for its membership and lobby, and never backwards |
| `QueueSessions.QueueSession.Sync` | frontendUI/app/lib/queue-state.ts:99-106 | a hint marks the session dirty and starts a pass unless one is in flight |
| `QueueSessions.QueueSession.OnCurrent` | frontendUI/app/lib/queue-state.ts:110-117 | the pass after the membership answer |
| `QueueSessions.QueueSession.OnIdentity` | frontendUI/app/lib/queue-state.ts:117-120 | the pass after the identity answer |
| `QueueSessions.QueueSession.OnRead` | frontendUI/app/lib/queue-state.ts:121-134 | the pass after the queue answer, with its two recoveries and its error exits |
| `QueueSessions.QueueSession.OnEvent` | frontendUI/app/lib/queue-state.ts:151-157 | a stream event ends the membership, marks expiry, or is taken as a hint |
| `QueueSessions.QueueSession.OnReply` | frontendUI/app/lib/queue-state.ts:170-189 | a mutation's reply is applied, or its failure resynchronizes |
| `QueueSessions.QueueSession.AdvanceEntry` | frontendUI/app/lib/queue-state.ts:212-216 | an end of playback is deferred while busy, otherwise sent |
| `QueueSessions.QueueSession.Leave` | frontendUI/app/lib/queue-state.ts:236-240 | leaving marks the session busy and sends |
| `QueueSessions.QueueSession.OnLeft` | frontendUI/app/lib/queue-state.ts:240-248 | the answer to leaving ends the membership, or reports the failure and resynchronizes |
| `QueueSessions.QueueSession.DiscardSubmission` | frontendUI/app/lib/queue-state.ts:211 | an uncertain submission is given up unless a mutation is outstanding |
| `SessionLaws.MembershipInv` | frontendUI/app/lib/queue-state.ts:84-93 | a membership change keeps the session's invariant |
| `SessionLaws.SyncInv` | frontendUI/app/lib/queue-state.ts:99-106 | a hint in an active session always leaves a flight that knows of it |
| `SessionLaws.LoopHeadInv` | frontendUI/app/lib/queue-state.ts:110-112 | going round again, or ending, loses no hint |
| `SessionLaws.ActInv` | frontendUI/app/lib/queue-state.ts:74-249 | every step of the session keeps: one pass per lifetime, no hint lost, one outstanding mutation per epoch, streams bound to the epoch |
| `SessionRuns.StaleCompletionsAreHarmless` | frontendUI/app/lib/queue-state.ts:67-98 | a completion of an epoch that is over changes no membership, queue, attempt, error or busy flag, sends nothing, and may at most light the error lamp |
| `SessionRuns.AbortedPassesAreSilent` | frontendUI/app/lib/queue-state.ts:107-135 | a pass of a stopped lifetime changes nothing visible at all |
| `SessionRuns.StepKeeps` | frontendUI/app/lib/queue-state.ts:94-98 | no step leaves the epoch's membership or takes its queue back |
| `SessionRuns.RunKeepsInv` | frontendUI/app/lib/queue-state.ts:74-249 | the invariant holds at every moment of every run |
| `SessionRuns.QueueOnlyMovesOn` | frontendUI/app/lib/queue-state.ts:74-98 | as long as the session keeps one membership, however often it is stopped and started meanwhile, the queue applied stays that membership's and its revision never falls |
| `SessionRuns.EpochsKeepTheirMembership` | frontendUI/app/lib/queue-state.ts:84-93 | between two moments of one epoch the membership is the same |
| `SessionRuns.OneOutstanding` | frontendUI/app/lib/queue-state.ts:170-172 | at most one mutation is outstanding in an epoch |
| `SessionRuns.NoLostHint` | frontendUI/app/lib/queue-state.ts:99-135 | an outdated pass in flight will go round again, and a session idle, clean and without error completed a pass begun after its last hint |
| `SessionRuns.AdvanceIsForTheCurrentEntry` | frontendUI/app/lib/queue-state.ts:182-216 | an advance is sent only by the host, in a valid epoch, for the entry the applied view shows; a deferred end is used at most once |
| `SessionEffects.ActEffects` | frontendUI/app/lib/queue-state.ts:84-142 | what a step shows comes from an answer of its epoch, and only the last step of a full pass claims coverage |
| `Duties.RequestsSend` | frontendUI/app/lib/queue-state.ts:217-235 | a request goes out exactly when the session runs, has a membership and is not busy, and the user may: votes are a known guest's, the rest the host's, policies one that can be stored |
| `Duties.AdvancesSend` | frontendUI/app/lib/queue-state.ts:212-216 | an advance goes out exactly for the host and the entry shown as current; an end of playback waits while another call is out |
| `Duties.RetriesSend` | frontendUI/app/lib/queue-state.ts:196-201 | a retry sends the attempt that is kept, and no other identity |
| `Duties.AddsSend` | frontendUI/app/lib/queue-state.ts:190-195 | adding replaces no attempt that is kept |
| `Duties.LeavingSends` | frontendUI/app/lib/queue-state.ts:236-241 | leaving asks for a membership and no other call out |
| `Duties.MembershipIsTaken` | frontendUI/app/lib/queue-state.ts:84-93 | a later answer about the known membership is shown unless it is older; any other membership drops all that belonged to the previous one and gets a new stream |
| `Duties.CurrentIsTaken` | frontendUI/app/lib/queue-state.ts:112-117 | what the membership's answer does to the pass: failure shown, gone round, or taken |
| `Duties.IdentityIsTaken` | frontendUI/app/lib/queue-state.ts:117-120 | who the user is, is shown; without a lobby the pass is then complete and says so |
| `Duties.ReadIsTaken` | frontendUI/app/lib/queue-state.ts:122-130 | a queue is shown exactly if it is of the present membership and lobby and no older, and the lamps go out exactly in the pass's epoch |
| `Duties.ReadMayFail` | frontendUI/app/lib/queue-state.ts:124-133 | a forbidden read is tried again twice, from the membership on; any other failure ends the pass and is shown |
| `Duties.EventIsTaken` | frontendUI/app/lib/queue-state.ts:151-157 | an end of the membership is shown with its own reason, an expiry is remembered, anything else is a hint; from an old stream, nothing |
| `Duties.CloseIsTaken` | frontendUI/app/lib/queue-state.ts:158-161 | the sign-in is refreshed exactly after a stream that said it expired and closed, in its epoch; else a hint and a wait follow |
| `Duties.TimerReconnects` | frontendUI/app/lib/queue-state.ts:147-168 | after its wait a stream is opened again exactly while it is wanted |
| `Duties.ReplyIsTaken` | frontendUI/app/lib/queue-state.ts:173-188 | a reply shows its view if it may, frees the session, and lets a deferred end of playback go if it is still this host's, for the entry still shown |
| `Duties.RefusalIsTaken` | frontendUI/app/lib/queue-state.ts:177-182 | a failed mutation is shown, and stays busy until the synchronization it asks for is over |
| `Duties.LeaveIsTaken` | frontendUI/app/lib/queue-state.ts:240-247 | the answer to leaving ends the membership because the user left, or shows the failure |
| `Duties.StopEndsTheEpoch` | frontendUI/app/lib/queue-state.ts:80-83 | stopping shows nothing new: it ends the epoch, the pass, the deferral and the stream |
| `Duties.StartBeginsAnEpoch` | frontendUI/app/lib/queue-state.ts:74-79 | starting begins an epoch and a lifetime with a pass, and a stream if there is a membership |
| `Attempts.AttemptStep` | frontendUI/app/lib/queue-state.ts:84-211 | all that changes the retry identity: adding makes it, discarding and the return of a submission settle it, another membership drops it |
| `Attempts.ReturnsSettleTheAttempt` | frontendUI/app/lib/queue-state.ts:200-209 | over any run a submission's attempt is kept on its return if and only if its one answer was an uncertain failure, and dropped after a success or a certain refusal |
| `Attempts.SentAttemptsLast` | frontendUI/app/lib/queue-state.ts:196-199 | from its sending until it is settled the attempt is shown, with its request id |
| `Attempts.RetriesRepeatTheRequest` | frontendUI/app/lib/queue-state.ts:200-208 | after an uncertain answer, whatever is submitted before the attempt is settled is the same video under the same request id |
| `Attempts.RetriesAddOnce` | frontendUI/app/lib/queue-state.ts:205-208 | with the store: if the server answers both the request and its retry for one lobby, they name one entry and at most one created it |
| `BusyFlag.BusyIsOwedExactlyWhen` | frontendUI/app/lib/queue-state.ts:170-189 | over any run a running session that is busy has a request out that will free it if and only if it has not been busy ever since a moment at which it was stopped |
| `BusyFlag.LostUntilAnotherMembership` | frontendUI/app/lib/queue-state.ts:80-83 | such a session stays busy, and sends nothing its user asks for, until its membership is another |
| `BusyFlag.StoppedBeforeTheAnswer` | frontendUI/app/lib/queue-state.ts:236-247 | such a run: the user leaves, and the session is stopped before the answer and started again |
| `Convergence.CallShows` | backend/src/database/queue.rs:22-91 | every successful reply of a mutation, insertion or receipt carries a view of the store at that moment |
| `Convergence.SystemStepInv` | frontendUI/app/lib/queue-state.ts:94-168 | store, session and streams together keep the invariant under every interleaving |
| `Convergence.ShownWasTrue` | frontendUI/app/lib/queue-state.ts:94-98 | what the session shows was at some moment the store's view of that lobby |
| `Convergence.ShownIsOfTheKnownLobby` | frontendUI/app/lib/queue-state.ts:94-98 | the queue shown is always of the membership and lobby the session knows |
| `Convergence.ReadsNeverGoBack` | backend/src/database/lobbies.rs:115-126 | successive reads of a stream never see its lobby's revision fall |
| `Convergence.RestIsFresh` | frontendUI/app/lib/queue-state.ts:99-135 | a session at rest that heard all its stream said shows a queue at least as new as the stream's last read |
| `Convergence.Converged` | frontendUI/app/lib/queue-state.ts:94-135 | and if the lobby has not changed since that read, it shows exactly the present queue: revision, order, entries, votes and policy |
| `Framing.FrameExtends` | frontendUI/app/lib/lobby.ts:117-125 | cutting a text into blocks can stop and resume anywhere: only the tail matters for what comes next |
| `Framing.BoundariesAre` | frontendUI/app/lib/lobby.ts:117-118 | a boundary is two line ends, each of them LF or CR LF |
| `Framing.ReadSays` | frontendUI/app/lib/lobby.ts:111-133 | when everything fits, what is delivered and whether reading fails depend on the whole text alone |
| `Framing.ChunksDoNotMatter` | frontendUI/app/lib/lobby.ts:111-133 | two splits of one text deliver the same events |
| `Framing.ShortBlocksAreSafe` | frontendUI/app/lib/lobby.ts:119-123 | in particular when every block has at most 65533 code units and the tail at most 65536 |
| `Framing.LongBlockFails` | frontendUI/app/lib/lobby.ts:119-123 | a block longer than 65536 code units fails under every split |
| `Framing.EverySplitSucceedsExactlyWhenSafe` | frontendUI/app/lib/lobby.ts:119-123 | every split succeeds if and only if each block with its boundary less one unit, and the tail, are within 65536 |
| `Framing.SomeSplitSucceedsExactlyWhenRoomy` | frontendUI/app/lib/lobby.ts:119-123 | some split succeeds, and the undivided one does, if and only if each block and the tail are within 65536 |
| `Framing.SplitMattersExactlyWhen` | frontendUI/app/lib/lobby.ts:119-123 | one split succeeds and another fails if and only if the text meets the second bound but not the first |
| `Framing.SplitMattersHere` | frontendUI/app/lib/lobby.ts:119-123 | for instance 65536 letters and two line feeds: read whole, refused one unit at a time |
| `Framing.WireRoundTrip` | backend/src/lobbies/updates.rs:184-191 | events written as `event` and `data` fields are read back in order under every split |
| `Messages.BlockSays` | frontendUI/app/lib/lobby.ts:124-131 | a block of any lines, with either line ending, says nothing exactly when it has no data line, and else its last event, or `message`, with the data of all its data lines, a line feed between any two |
| `Framing.DrainBuffer` | frontendUI/app/lib/lobby.ts:117-133 | the inner loop delivers exactly what the buffer holds |
| `Framing.ReadStream` | frontendUI/app/lib/lobby.ts:113-134 | the reader's loops compute exactly that |
| `Refresh.RotateKeeps` | backend/src/database.rs:148-185 | every session keeps exactly one unconsumed token, and its expiry is creation plus 2592000 seconds |
| `Refresh.RotationGrantsItsAccount` | backend/src/database.rs:160-184 | a rotation grants access for the account of the presented token's session, until that session's expiry, and its new token is of the same session |
| `Refresh.RotationRefusals` | backend/src/database.rs:148-176 | why a rotation is refused, and what the refusal changes |
| `Refresh.IssuingIsExact` | backend/src/auth/refresh.rs:43-58 | issuing makes one session of the account, thirty days long, with its one unconsumed token; a failure makes nothing |
| `Refresh.RevokingIsExact` | backend/src/database.rs:187-198 | revoking by any known token of a session, used or not, revokes that session and nothing else |
| `Refresh.EndedSessionsGo` | backend/src/database.rs:209-226 | cleanup removes exactly the sessions whose thirty days are over, with their tokens |
| `Refresh.GrantsNameTheIssuedAccount` | backend/src/auth/refresh.rs:73-77 | over any run every grant of a kept session names the account its issue named |
| `Refresh.ApplyKeeps` | backend/src/database.rs:125-226 | issuing, rotating, revoking and cleaning up all keep that |
| `Refresh.RunInv` | backend/src/database.rs:63-82 | in every reachable store each retained session has exactly one unconsumed token and its fixed expiry |
| `Refresh.SessionPersists` | backend/src/database.rs:125-226 | over any run a retained session's expiry never changes and its revocation is never undone |
| `Refresh.LiveSessionHasOneKey` | backend/src/database.rs:160-184 | of all tokens kept of a live session exactly one can rotate it, and presenting any other revokes it |
| `Refresh.FailureRestores` | backend/src/database.rs:145-185 | an internal failure leaves the store as it was; a rejection revokes at most the session of a reused token |
| `Refresh.FailedCallsRestore` | backend/src/database.rs:125-226 | of all calls, the only one that changes anything without succeeding is the reuse of a consumed token in a live session |
| `Refresh.RotatesAtMostOnce` | backend/src/database.rs:165-176 | over any run a retained token rotates successfully at most once |
| `Refresh.ReuseRevokesForever` | backend/src/database.rs:165-172 | reuse of a consumed token in a live session revokes that session and no other, for as long as it is kept |
| `Refresh.SweepIsUnseen` | backend/src/database.rs:209-226 | from the time of a cleanup on every rotation of every token, reuse included, is answered as it would have been, and commutes with the cleanup |
| `RefreshStores.RefreshStore.IssueSession` | backend/src/auth/refresh.rs:43-58 | issuing stores a session and its first token together, or nothing |
| `RefreshStores.RefreshStore.RotateSession` | backend/src/database.rs:148-185 | the statements of a rotation leave the specified tables and reply, undoing consumption on failure |
| `RefreshStores.RefreshStore.RevokeSession` | backend/src/database.rs:187-198 | revocation is idempotent and by current or consumed token |
| `RefreshStores.RefreshStore.DeleteExpired` | backend/src/database.rs:209-226 | child tokens and sessions go together |
| `AuthCoordinators.AuthCoordinator.Refresh` | frontendUI/app/lib/auth-coordinator.ts:33-37 | a refresh is refused, shared, or queued for the lock |
| `AuthCoordinators.AuthCoordinator.OnLock` | frontendUI/app/lib/auth-coordinator.ts:37-42 | with the lock the stop flag and epoch are checked again before the cookie is sent |
| `AuthCoordinators.AuthCoordinator.OnResponse` | frontendUI/app/lib/auth-coordinator.ts:43-46 | what each kind of response does to the tab and the flag |
| `AuthCoordinators.AuthCoordinator.OnBody` | frontendUI/app/lib/auth-coordinator.ts:46-56 | the token is stored only if the epoch still holds |
| `AuthCoordinators.AuthCoordinator.Logout` | frontendUI/app/lib/auth-coordinator.ts:70-78 | logging out stops every tab before it waits for the lock |
| `MultiTab.ServeRefreshTokens` | backend/src/routes/auth.rs:235-291 | serving a refresh consumes at most the token presented, and what it answers with is unused |
| `MultiTab.ActKeeps` | frontendUI/app/lib/auth-coordinator.ts:33-78 | every step of any tab, the network, the server and other clients keeps the origin's invariant |
| `MultiTab.NoRequestReplays` | frontendUI/app/lib/auth-coordinator.ts:33-57 | as long as local storage takes the stop flag, no interleaving of tabs, lost responses, failures and logouts presents a consumed token to refresh |
| `MultiTab.RefreshNeverRevokes` | backend/src/database.rs:165-172 | so, as long as local storage takes the stop flag, this browser's own refreshes never take the revocation branch |
| `MultiTab.SafeExactlyWhenSaved` | frontendUI/app/lib/auth.ts:27-30 | where local storage always answers alike, no run replays a token if and only if it takes the flag; the broadcast alone does not suffice |
| `MultiTab.UnsavedFlagReplays` | frontendUI/app/lib/auth.ts:27-30 | the failing run: two tabs, a lost answer, and a flag that was not stored |
| `MultiTab.OneRequestUnderWay` | frontendUI/app/lib/auth.ts:18-22 | at most one request is under way in the whole origin |
| `MultiTab.StoppedSendsNothing` | frontendUI/app/lib/auth-coordinator.ts:29-38 | once the stop flag is set no tab sends another refresh |
| `MultiTab.StoppedTabsHoldNothing` | frontendUI/app/lib/auth-coordinator.ts:21-28 | a stopped tab holds no access token and, as long as local storage takes the flag, has it behind it |
| `TabLaws.RefreshIsSharedOrQueued` | frontendUI/app/lib/auth-coordinator.ts:33-38 | a refresh is refused to a stopped tab, shares the one under way, or queues exactly one request |
| `TabLaws.LogoutStopsFirst` | frontendUI/app/lib/auth-coordinator.ts:70-72 | logging out stops every tab at once, whatever becomes of its request |
| `TabLaws.GrantSendsTheCookie` | frontendUI/app/lib/auth-coordinator.ts:37-42 | with the lock a refresh sends the cookie exactly when nobody has stopped its tab since it was asked for |
| `TabLaws.AnswerDecides` | frontendUI/app/lib/auth-coordinator.ts:43-45 | while the tab may act a renewed cookie's body is awaited, and any other answer stops every tab; otherwise it is dropped |
| `TabLaws.BodyDecides` | frontendUI/app/lib/auth-coordinator.ts:46-56 | a good body leaves its access token with the tab exactly while the tab may act for it; a bad one in the same epoch stops every tab |
| `TabLaws.RefreshIsAnswered` | backend/src/routes/auth.rs:235-291 | each outcome of a refresh leaves, clears or renews the cookie as its status says |
| `TabLaws.OneRefreshPerTab` | frontendUI/app/lib/auth-coordinator.ts:33-57 | over any run a tab's shared promise is its only refresh that is not over, and none is left behind |
| `TabLaws.HeldTokensWereRead` | frontendUI/app/lib/auth-coordinator.ts:46-50 | over any run the token a tab holds is the one a body last gave it, and it has not been stopped since |
| `FlightLaws.ActKeeps` | backend/src/search/mod.rs:133-254 | every step of callers, tasks and guards keeps single flight and the allowance |
| `FlightLaws.OneAttemptPerQuery` | backend/src/search/mod.rs:135-169 | at most one live attempt per query |
| `FlightLaws.RemoveKeeps` | backend/src/search/mod.rs:38-50 | the guard removes its own flight and no other |
| `FlightLaws.EveryFlightEnds` | backend/src/search/mod.rs:145-166 | every flight in the map has a live task if and only if no step of the run dropped that task before its first poll; a task that left the map was done |
| `FlightLaws.LostExactlyWhen` | backend/src/search/mod.rs:145-150 | a task never gets its completion guard if and only if some step of the run dropped it before its first poll |
| `FlightLaws.DroppedQueryIsBlocked` | backend/src/search/mod.rs:135-182 | from such a drop on, for ever, its query has no live task, callers only join the dead flight, and each of them can only time out as unavailable |
| `FlightLaws.GuardFreesTheQuery` | backend/src/search/mod.rs:38-50 | a task that was polled can always time out, mark itself done and free its query |
| `FlightLaws.DroppedBeforeItsFirstPoll` | backend/src/search/mod.rs:141-150 | the shortest such run: one caller, and the task dropped |
| `FlightLaws.RunLasting` | backend/src/search/mod.rs:155-165 | a published outcome is never changed or undone |
| `FlightLaws.LaterWaitersGetIt` | backend/src/search/mod.rs:170-182 | and it is what every waiter returning afterwards gets |
| `Outcomes.OutcomesWereEarned` | backend/src/search/mod.rs:184-254 | over any run a flight has an outcome if and only if some step earned it: saved songs, songs found in time, no key, a used-up day, or a failure |
| `Outcomes.CallersAreToldWhy` | backend/src/search/mod.rs:170-182 | a caller told of songs, of a missing key or of a used-up day is told what a step of its flight earned, and is told nothing else with songs |
| `FlightLaws.WithinTheDailyLimit` | backend/src/database/catalog.rs:149-159 | the stored counter is the number of provider searches reserved that UTC day, and never exceeds the limit |
| `FlightLaws.SearchesArePaidFor` | backend/src/search/mod.rs:151-221 | over any run the searches sent on a day are at most those the stored counter paid for, and those at most the limit; they are all of them if and only if no reservation committed after its task had timed out or been dropped |
| `FlightLaws.ReservationsAreSentOrWasted` | backend/src/database/catalog.rs:149-159 | the stored counter is the searches sent plus the reservations committed after their tasks had ended |
| `FlightLaws.AReservationIsWasted` | backend/src/search/mod.rs:151-155 | such a run: the deadline comes while the reservation is being made, which then commits for no search |
| `SearchServices.SearchService.Discover` | backend/src/search/mod.rs:133-169 | under the lock a caller joins the query's flight or spawns one |
| `SearchServices.SearchService.ReserveSearch` | backend/src/database/catalog.rs:149-159 | one transaction reserves exactly when the day's counter is below the limit |
| `SearchServices.SearchService.Return` | backend/src/search/mod.rs:170-182 | a waiter returns what was published, or unavailability |
| `SearchServices.SearchService.Mark` | backend/src/search/mod.rs:38-47 | the guard's mark sets done and never replaces an outcome |
| `Catalog.TriggersKeepTheIndex` | backend/src/database/catalog.rs:44-50 | after an insert, an update or an ignored older update the index is the one a rebuild would make |
| `Catalog.UpsertKeeps` | backend/src/database/catalog.rs:59-78 | an upsert keeps counts, receipts, expiry rule and index in agreement |
| `Catalog.ApplyKeeps` | backend/src/database/catalog.rs:79-241 | so do import, saved searches, recorded submissions and cleanup, whether they commit or fail |
| `Catalog.CatalogAgrees` | backend/src/database/catalog.rs:22-50 | in every reachable state a song's `submission_count` is its number of receipts and the index equals the rebuilt one |
| `Catalog.ReceiptsAreForEver` | backend/src/database/catalog.rs:206-229 | an entry counts for one song once, for ever |
| `Catalog.OneEligibleRow` | backend/src/database/catalog.rs:131 | at any time at most one metadata row of a song is eligible, and one is exactly when some row has not expired |
| `CatalogLaws.UpsertIsExact` | backend/src/database/catalog.rs:51-78 | a song is refused exactly when it is invalid or its expiry does not fit; otherwise its entry is made or touched, its text written unless a later fetch was stored, and no other row changes |
| `CatalogLaws.StartersAreTheFirst` | backend/src/database/catalog.rs:79-108 | what is imported is exactly the first valid entry of each id |
| `CatalogLaws.ImportIsExact` | backend/src/database/catalog.rs:79-110 | an import writes every starter or, when storage fails, none |
| `CatalogLaws.SaveIsExact` | backend/src/database/catalog.rs:179-196 | a search is saved exactly when it is small, valid and its expiries fit; each id's last text is written with it, and one fetched no earlier stands |
| `CatalogLaws.ReadUntilItExpires` | backend/src/database/catalog.rs:160-178 | in a well-formed catalog a search is answered as it was saved, exactly until its week is over |
| `CatalogLaws.RecordIsExact` | backend/src/database/catalog.rs:197-229 | recording an entry again succeeds exactly for the same song and changes nothing; the first time it counts once |
| `CatalogLaws.CleanupIsExact` | backend/src/database/catalog.rs:230-241 | cleanup removes exactly what has expired, from the rows, the searches and the index; starter text, songs, counts and receipts are for ever |
| `Catalog.CandidatesAreExact` | backend/src/database/catalog.rs:123-148 | before the cut to fifty rows, searching the index finds exactly the eligible rows whose own text matches, and no song twice |
| `SearchResponses.AnswerIsExact` | backend/src/database/catalog.rs:131 | after the cut, at most fifty such rows are answered, no song twice, and all of them unless there are more |
| `Catalog.CleanupIsUnseen` | backend/src/database/catalog.rs:230-241 | cleanup at a time changes no candidate and no saved search at any time from then on |
| `Catalog.SavedReadsBack` | backend/src/database/catalog.rs:160-196 | a saved search reads back as it was for exactly a week |
| `Catalog.NewestTextStands` | backend/src/database/catalog.rs:75-76 | of two fetches the newer text stands, in whichever order they are written |
| `CatalogStores.CatalogStore.ImportStarters` | backend/src/database/catalog.rs:79-110 | the import loops leave the specified catalog, or the old one |
| `CatalogStores.CatalogStore.SaveSearch` | backend/src/database/catalog.rs:179-196 | likewise for saving a search |
| `CatalogStores.CatalogStore.CachedSearch` | backend/src/database/catalog.rs:160-178 | a saved search is answered exactly until it expires |
| `CatalogStores.CatalogStore.RecordSubmission` | backend/src/database/catalog.rs:197-229 | likewise for recording a submission |
| `CatalogStores.CatalogStore.CleanupCatalog` | backend/src/database/catalog.rs:230-241 | likewise for cleanup |
| `Sorting.SortByKeyIsStable` | backend/src/search/mod.rs:89-90 | the sort keeps every element, sorts by key and leaves each key's elements in order |
| `Sorting.StableSortIsUnique` | backend/src/search/mod.rs:119-125 | and it is the only such arrangement |
| `Ranking.WordsAreMaximalRuns` | backend/src/search/rank.rs:26-30 | the words of a text are exactly its maximal alphanumeric runs |
| `Ranking.AskingForMoreHelps` | backend/src/search/rank.rs:32-67 | asking for more words never ranks a song worse, and curated text is ranked below nothing but the unrequested |
| `Ranking.TiersOrderVersions` | backend/src/search/rank.rs:32-67 | of any two versions the better comes first: asked for before not, then the main version, then an official one, then one without lyrics; those alike rank alike |
| `Ranking.UnseenExact` | backend/src/search/mod.rs:101-118 | deduplication keeps each unseen id exactly once |
| `Ranking.KeepUnseen` | backend/src/search/mod.rs:109-118 | the loop over a set of seen ids computes that |
| `Ranking.ResponseIsMergedByRank` | backend/src/search/mod.rs:89-131 | for any candidates and any found songs: the catalog's songs and every found song they lack, each of these once, sorted by rank, the catalog first within a rank |
| `Ranking.CatalogRanksStand` | backend/src/search/mod.rs:92-97 | of distinct candidates each has in the response the rank it was first sorted by |
| `Ranking.CatalogOrderStands` | backend/src/search/mod.rs:119-125 | so the catalog's songs come in the order they were ranked in, whatever was found |
| `Ranking.EachSongOnceByItsOwnRank` | backend/src/search/mod.rs:101-125 | every song comes once; a catalog song is sorted by its candidate's rank, a found one by its uncurated rank |
| `SearchResponses.SearchAnswersFromTheCatalog` | backend/src/search/mod.rs:74-131 | all of this from the tables of any well-formed catalog: a catalog result is an eligible row's own text at that row's rank, and no answered row is left out for a worse one |
| `SearchResponses.SourcesAreTrue` | backend/src/search/mod.rs:98-131 | discovery is spared exactly when five catalog songs matched and no more was asked for; its status is passed on, at most ten songs are the catalog's, and each result's source says where it came from |
| `Ranking.MergeResults` | backend/src/search/mod.rs:89-131 | the sorts, cut and loops of the merge compute that response |
| `Ranking.DiscoveryKeepsTheBest` | backend/src/youtube/search.rs:150-158 | a discovery holds only music of the page, at most ten, and leaves out none that ranks better |
| `Ranking.DiscoverySizes` | backend/src/youtube/search.rs:95-159 | a page is its first 25 valid songs of different ids; a search answers none, or at most ten, and all of its music if that is no more |
| `Ranking.CollectPage` | backend/src/youtube/search.rs:108-142 | the page's loop keeps the first 25 valid songs with distinct ids |
| `Ranking.SearchProvider` | backend/src/youtube/search.rs:95-159 | collecting, filtering, ranking and cutting compute the specified discovery, or none |
| `Durations.ParserIsExact` | backend/src/youtube/search.rs:183-213 | the parser answers n exactly for strings of its grammar whose unbounded sum is n and at most 2^64-1, and nothing otherwise |
| `Durations.UnitsAre` | backend/src/youtube/search.rs:190-205 | days stand before the T, hours, minutes and seconds after it, and no other unit is taken |
| `Durations.PrintedParsesBack` | backend/src/youtube/search.rs:183-213 | it inverts the canonical day, hour, minute, second printer |
| `Durations.IsoSeconds` | backend/src/youtube/search.rs:184-213 | the loop with its checked arithmetic computes that parser |
| `Durations.MusicLengthExact` | backend/src/youtube/search.rs:176-181 | a duration is taken exactly when it is written in the grammar and means one to fifteen minutes, however it is divided into units |
| `Revisions.ParseInvertsPrint` | backend/src/models/queue.rs:45-75 | a text parses as a revision exactly when it is the decimal form of a positive 64-bit number |
| `Revisions.NextRevision` | backend/src/models/queue.rs:55-57 | the successor of a parsed revision is what the next number reads as, there is none exactly when that text is no revision, and no revision text lies between |

## Left out

- HTTP routing, JSON bodies, headers, error statuses and OpenAPI: plumbing around the modelled operations.
- Google sign-in, JWT signing, hashing and randomness: foreign; hashes are opaque values and ids come from arbitrary supplies.
- URL parsing, Unicode normalization, FTS5 tokenizing and bm25 order: parameters of the model (`Language`, `Rules`, `matching`), or an arbitrary initial order.
- SQLite: transactions are taken as serialized, reads as snapshots of a committed state, and UNIQUE, CHECK and cascade rules as declared; a failing statement or commit rolls back.
- The staged `submit` is modelled by its stages, with any other request between them, rather than as one method.
- The roster of a lobby view is not ordered by joining time; members are a map.
- Surrogate row ids of the catalog are replaced by its UNIQUE keys.
- Convergence.Converged: assumes that membership ids, which are random, never name seats in two lobbies of one run (`OneHome`).
- Convergence.Converged: is about one account and one mounted session; another account's session is another instance.
- MultiTab.NoRequestReplays: holds while local storage takes the stop flag (see MultiTab.SafeExactlyWhenSaved), and assumes the flag is never cleared and no tab is closed while its request is under way, and that other browsers neither present nor are issued this browser's tokens; signing in again after a stop, which clears the flag, is not modelled.
- Refresh.RotatesAtMostOnce: speaks of tokens kept by the store throughout; that a random token is never issued twice after cleanup is left to randomness.
- FlightLaws.WithinTheDailyLimit: the limit is fixed for the run; changing the configuration between restarts is not modelled.
- `apiFetch`'s own retry and the refresh before an access token's last fifteen seconds: both only call the modelled refresh.
- Milliseconds, backoff jitter, channel capacity and pool limits: timeouts and lost hints are nondeterministic.
- Listeners of the session and of the coordinator, which only repaint: their re-entrant use is not modelled.
- React components, the player, login attempts, the Google key cache and deployment: they would only add easy members.
