# Crossbridge: a verified model

Crossbridge lets the agents of separate repositories ask each other questions. A supervisor keeps
track of which repository servers are connected and tells the members of a group about each other; a
client submits an issue to a peer's server, and the peer later sends its answer back. This project
models that system in Dafny and proves what it keeps over every run.

| files | what they hold |
|---|---|
| `Protocol.dfy` | the message vocabulary |
| `Supervisor.dfy`, `State.dfy` | the supervisor: its handlers as functions of the state and of what the environment decides (the outcome of every write and file-system call, the iteration order of every hash map), and the event loop that updates the state in place, proved against them |
| `Membership.dfy`, `History.dfy`, `Cascade.dfy`, `Isolation.dfy` | what all runs of the supervisor keep: the indexes and streams, the history of every pair of connections, the end of failure cascades, and the independence of groups |
| `Listeners.dfy`, `Server.dfy`, `Sessions.dfy` | the servers: the listener table with its sockets and tasks, the session loop, the supervisor and all servers together |
| `Settling.dfy` | what can be reached: states at rest, newcomers that everybody listens for, leavers that nobody does |
| `Directories.dfy`, `Sockets.dfy` | the slug directories they share, and whether the sockets in them are there when a client needs them |
| `Issues.dfy`, `Handlers.dfy`, `Client.dfy` | the issue database updated in place, the server's request handlers and the client's commands |
| `Exchange.dfy`, `Uninterrupted.dfy`, `Delivery.dfy` | submits and answers in one direction between two repositories, one database access at a time, with commands cut off and retried and all steps interleaved |
| `Guarantees.dfy`, `Retries.dfy`, `Marks.dfy` | what that direction guarantees: one inbound issue, the round trip, early and retried answers, the status labels |
| `Completion.dfy` | that a question can be carried through from submit to settled answer |
| `Mutual.dfy` | both directions at once over the same two databases: each is a run of its own, so every guarantee holds in both |
| `Framing.dfy` | length-prefixed frames over a stream of arbitrary chunks |
| `Slugs.dfy` | the two independent slug parsers |

Imperative parts of the program (the supervisor's state, the listener set, the session loop, the
handlers, the commands, the framed stream) are classes and methods that update their fields step by
step; each is proved to do what a specification function says, and the theorems are about runs of
those functions. `Exchange` splits handlers and commands into their single database accesses;
`Uninterrupted` shows that without interleaving those steps add up to the handlers and commands.

## Premises

The code relies on these, and the theorems state those that concern them.

- Reading a notification frame is not interrupted: the `select!` at crossbridge-server/src/run.rs:122-158
  could otherwise drop a half-read frame.
- Each slug is used by one process at a time, so sockets named after a server are made and removed
  by that server, or removed with their directory by the supervisor; unlinking a socket file succeeds.
- For slug directories and the sockets in them: each slug is registered in one group (`home` in `Directories`), because the
  directory is named by the slug alone.
- A server handles a frame of its stream in one step.
- The submitted issue's own labels contain no `xb-ref:` or `xb-source:` label of another submission.
- A database transaction happens entirely or not at all; adding a label twice is adding it once; issues
  are not reopened and labels are not removed by hand.
- In the exchange, the result comments of one inbound issue differ from each other, nobody writes a comment
  that imitates one copied from the peer, new issues carry none of the labels crossbridge keeps track of, and
  when both repositories ask, uuids differ between them and an issue that was asked is not submitted onward.
- Labels are listed, and issues found, in an order nobody specifies: labels are a set whose listing is
  an input, and a lookup returns any matching issue.

## What the code does not do

Where a property one would expect does not hold, a theorem says exactly when it does.

- A submit keeps a ref label unique unless all its database calls succeed, no issue holds the submission yet,
  and the client's labels carry a foreign ref label that some issue holds (`Handlers.SubmitKeepsUniqueIff`;
  `Handlers.ForeignLabelBreaksUniqueness` is such a case).
- An issue can carry both pending and resolved: exactly the second label write of a submit that is
  repeated after the answer produces this (`Marks.ClashIff`, `Client.ResubmitAfterAnswer`).
- Handling an event can remove the directory of a live connection: exactly when another group has the
  same slug registered (`Directories.DirectoriesKeptIff`, `Directories.SharedSlugLosesDirectory`).
- `read_notification` is documented to report the end of the stream on a clean end; the code reports it
  for a stream cut in the middle of a frame as well (`Framing.EndOfStreamIff`, `Framing.TruncatedLooksClean`).
- The two slug parsers do not agree on every remote. `Slugs.AllRemotesAgreeIff` says for every text when they
  do; of remotes with clean segments, trailing slashes, a query or a fragment make them differ
  (`Slugs.ParsersAgreeIff`), and so do a missing path and a colon in the last segment.
- `ListenerSet::add` is documented to drop an existing listener for the peer first; it does so exactly unless
  the directory cannot be created, and then the old listener stays (`Listeners.OldListenerDroppedIff`).

## Model

| member | source | states |
|---|---|---|
| `State.State.constructor` | crossbridge-supervisor/src/lib.rs:158-166 | a new supervisor is the initial state, which satisfies the invariant |
| `State.State.HandleRegistration` | crossbridge-supervisor/src/lib.rs:179-264 | one registration, in place: Nack on a duplicate or a directory failure, removal of the directory on a failed Ack, otherwise the new entries, one PeerJoined offered to every peer and a Departed queued per failed write |
| `State.State.Enrol` | crossbridge-supervisor/src/lib.rs:223-263 | after the Ack the connection gets its id, watcher and entries, the peers are told and failed writes queue departures |
| `State.State.HandleDeparture` | crossbridge-supervisor/src/lib.rs:266-315 | one departure, in place: nothing for an unknown id, otherwise record, watcher, index entry and directory go, peers are told and failed writes queue departures |
| `State.State.Notice` | crossbridge-supervisor/src/lib.rs:302-310 | the fan-out loop writes one frame to every peer found and collects exactly those whose write failed, in order |
| `State.State.Report` | crossbridge-supervisor/src/lib.rs:312-314 | exactly one Departed per failed peer is appended to the queue |
| `State.State.HandleEvent` | crossbridge-supervisor/src/lib.rs:168-177 | taking and handling the head event keeps the invariant in every case |
| `State.State.Run` | crossbridge-supervisor/src/lib.rs:79-89 | the event loop, driven by any sequence of arrivals, watcher ends and outcomes, computes the specified run and keeps the invariant |
| `Supervisor.FailuresContent` | crossbridge-supervisor/src/lib.rs:302-314 | the queued departures are exactly the found peers whose write failed |
| `Membership.IndexesAreInverse` | crossbridge-supervisor/src/lib.rs:141-155 | in every reachable state the two indexes are inverse to each other, no group is empty and all ids are below the next |
| `Membership.FanOutFindsEveryPeer` | crossbridge-supervisor/src/lib.rs:228-244 | every fan-out lookup finds its record, and the peers written to are exactly the other live connections of the group |
| `Membership.QuietStatesAreComplete` | crossbridge-supervisor/src/lib.rs:236-263 | with no departure queued every live connection is watched, no write to it has failed, and its stream spells out exactly its current peers |
| `Membership.NotificationsAlternate` | crossbridge-supervisor/src/lib.rs:234-246 | on every stream up to its first failed write, joins and leaves of one slug strictly alternate, starting from the Ack |
| `Membership.AckStream` | crossbridge-supervisor/src/lib.rs:209-221 | a new stream starts with a duplicate-free Ack that lists exactly the other members and not the newcomer |
| `Membership.RegistrationKeepsInv` | crossbridge-supervisor/src/lib.rs:179-264 | a registration keeps the invariant on all its paths |
| `Membership.DepartureKeepsInv` | crossbridge-supervisor/src/lib.rs:266-315 | a departure keeps the invariant, whichever writes fail |
| `Membership.RunKeepsInv` | crossbridge-supervisor/src/lib.rs:168-177 | every run keeps the invariant: indexes, ids, watchers and streams |
| `Membership.RegistrationWatched` | crossbridge-supervisor/src/lib.rs:226-263 | after a registration every live connection is watched or has a departure queued, and a failed write always has one queued |
| `Membership.DepartureWatched` | crossbridge-supervisor/src/lib.rs:302-314 | the same after a departure |
| `Membership.RegistrationTakesEffectIff` | crossbridge-supervisor/src/lib.rs:179-264 | a registration is granted exactly if its slug is free in the group, its directory can be made and its Ack is written: then the newcomer has the next id, its record, index entry, watcher, directory and a stream that starts with the Ack, every other member is told, and a failed write queues a departure, in order; in every other case connections, indexes, ids and streams stay as they are |
| `Membership.ReplyCases` | crossbridge-supervisor/src/lib.rs:179-221 | what is replied: an Ack with the slugs of all others exactly if the slug is free and its directory can be made, otherwise a Nack with the reason |
| `Membership.DepartureTakesEffectIff` | crossbridge-supervisor/src/lib.rs:266-315 | a departure of a live connection takes away its record, watcher, index entry, directory and, with its last member, the group, and tells exactly the other members; any other departure changes nothing |
| `Membership.OtherStepsQueueUp` | crossbridge-supervisor/src/lib.rs:318-346 | arrivals and ended watchers only queue their event behind all others |
| `History.PairHistory` | crossbridge-supervisor/src/lib.rs:209-259 | of two connections ever live together without failed writes, the later one's Ack names the earlier, the earlier is told once that the later joined, and nobody is told of a departure while the other lives |
| `History.SurvivorIsToldOnce` | crossbridge-supervisor/src/lib.rs:295-310 | whoever outlives the other is told exactly once that it left, for ever |
| `History.GoneForGood` | crossbridge-supervisor/src/lib.rs:223-224 | departures are by identity: an id that is gone never comes back and no stream is told about it again |
| `History.StaleDepartureSparesNamesake` | crossbridge-supervisor/src/lib.rs:266-284 | once x is gone, and whatever has happened since, another Departed for it leaves a connection that has taken over its slug and group with its record, index entry, watcher, directory and stream, and all other streams alone |
| `History.DepartureTells` | crossbridge-supervisor/src/lib.rs:295-310 | a departure adds exactly one PeerLeft to each unbroken live stream of the group |
| `History.RunKeepsHistories` | crossbridge-supervisor/src/lib.rs:168-315 | the counts of joins and leaves about each connection, kept over every run |
| `History.CountIs` | crossbridge-supervisor/src/lib.rs:234-246 | what is counted are the frames that report the connection as joined or as left |
| `Cascade.DrainBound` | crossbridge-supervisor/src/lib.rs:266-315 | draining q queued departures with n live connections takes at most q + n(n-1)/2 handler calls, whatever writes fail |
| `Cascade.CascadeBound` | crossbridge-supervisor/src/lib.rs:318-346 | with w watchers that may fire in between, at most q + w + n(n-1)/2 events are handled |
| `Cascade.DepartureUsesWork` | crossbridge-supervisor/src/lib.rs:312-314 | each departure uses up more of the measure than the departures it queues add |
| `Cascade.SomeEnvFits` | crossbridge-supervisor/src/lib.rs:85-87 | the next event can always be handled, with any outcome of its writes and directory operations |
| `Isolation.GroupsDoNotInterfere` | crossbridge-supervisor/src/lib.rs:168-315 | deleting all other groups' events and renumbering ids leaves a run in which the group's index, connections, watchers, pending events and streams are those of the whole run |
| `Isolation.RunShown` | crossbridge-supervisor/src/lib.rs:168-315 | the simulation behind it, from any pair of matching states |
| `Listeners.ListenerSet.constructor` | crossbridge-server/src/listeners.rs:40-50 | a new listener set is empty |
| `Listeners.ListenerSet.Add` | crossbridge-server/src/listeners.rs:79-106 | adding a listener in place, with a failing directory or a failing bind, including the removal of an old listener and of a stale socket file |
| `Listeners.ListenerSet.Listen` | crossbridge-server/src/listeners.rs:92-103 | bind, spawn and enter in the table |
| `Listeners.ListenerSet.TakeOut` | crossbridge-server/src/listeners.rs:110-112 | the entry's task is aborted and its socket file unlinked |
| `Listeners.ListenerSet.RemoveFile` | crossbridge-server/src/listeners.rs:87-90 | a stale socket file is removed |
| `Listeners.ListenerSet.Remove` | crossbridge-server/src/listeners.rs:109-122 | removing a listener, and whether there was one |
| `Listeners.ListenerSet.Clear` | crossbridge-server/src/listeners.rs:126-131 | clearing removes every listener, in any order |
| `Listeners.PutOwned` | crossbridge-server/src/listeners.rs:79-106 | adding keeps every socket and task owned by a current entry whatever fails; a failed bind loses the peer's entry, a failed directory creation changes nothing |
| `Listeners.PutBinds` | crossbridge-server/src/listeners.rs:92-103 | other peers' entries and sockets stay as they are, and a new entry has its socket |
| `Listeners.PutCases` | crossbridge-server/src/listeners.rs:79-106 | all that an add changes once the directory is there: an old listener with its task and any stale file of that name are gone, and the new entry, socket and task are there exactly if the bind succeeds |
| `Listeners.DropCases` | crossbridge-server/src/listeners.rs:109-122 | all that a removal changes: entry, task and socket file of the peer, and nothing of any other |
| `Listeners.OldListenerDroppedIff` | crossbridge-server/src/listeners.rs:72-90 | an existing listener for the peer is dropped exactly unless the directory cannot be created, and then it stays |
| `Listeners.ClearLeavesNothing` | crossbridge-server/src/listeners.rs:126-131 | after clear no socket this server bound exists and no task of it is left |
| `Listeners.NothingLeaks` | crossbridge-server/src/listeners.rs:79-132 | over any sequence of adds, removes and clears with any failures, and of directories vanishing under the server, every bound socket and every task belongs to a current entry, and an entry lacks its socket only if a directory vanished |
| `Listeners.PerformCases` | crossbridge-server/src/listeners.rs:79-132 | which peers are listened for after any single operation, and which files and sockets are left when directories vanish |
| `Server.InstallPeers` | crossbridge-server/src/run.rs:111-116 | the peers of the Ack are added in order, failures skipped |
| `Server.ShakeIff` | crossbridge-server/src/supervisor.rs:70-88 | a session starts exactly after an Ack, with its peers, and a Nack is told apart from every other failure |
| `Server.Heed` | crossbridge-server/src/run.rs:125-132 | a join adds and a leave removes the listener |
| `Server.HeedAll` | crossbridge-server/src/run.rs:122-143 | the loop folds notifications, each with its own faults, into the table up to the first shutdown, end of stream, unreadable frame or response |
| `Server.ConsumedIsFirstStop` | crossbridge-server/src/run.rs:122-143 | how many notifications are heeded: up to the first reason to stop |
| `Server.ConsumedEnds` | crossbridge-server/src/run.rs:122-143 | a session ends by shutdown exactly if that is requested before any arrival that is no notification, at the end of the stream at the latest; by an error exactly if such an arrival comes first; and otherwise at the end of the stream |
| `Server.FoldManyKeys` | crossbridge-server/src/run.rs:133-142 | without faults, the table after any notifications has the keys that the supervisor's side of the stream spells out |
| `Server.ServeOneSession` | crossbridge-server/src/run.rs:103-161 | how a session ends, stated on the arrivals and the shutdown request alone; the table it leaves; and that a shutdown request reached before any disturbance leaves no socket, task or entry |
| `Server.ClearListeners` | crossbridge-server/src/listeners.rs:126-131 | the keys are collected first and each is removed |
| `Server.RunOnce` | crossbridge-server/src/run.rs:71-91 | one turn of the outer loop leaves nothing behind however registration and session end |
| `Sessions.ViewsAgree` | crossbridge-server/src/run.rs:111-142 | in every reachable state of supervisor, streams and servers, the undelivered frames turn a live, unbroken server's listener keys into exactly the slugs registered in its group minus its own |
| `Sessions.DrainedServersListenToTheirGroup` | crossbridge-server/src/run.rs:122-142 | a server that has read its stream listens for a slug if and only if another member of its group holds it |
| `Sessions.ListeningIsMutual` | crossbridge-server/src/run.rs:122-142 | two drained servers of one group listen for each other; across groups only for a namesake in the own group |
| `Sessions.ShutdownUnlinksBeforeDeparture` | crossbridge-server/src/run.rs:125-131 | a session ended by shutdown has unlinked every socket it bound before its departure is queued |
| `Sessions.SocketsBelongToListeners` | crossbridge-server/src/listeners.rs:79-132 | in every reachable state every bound socket belongs to a current entry whose accept task exists |
| `Sessions.PutAllCases` | crossbridge-server/src/run.rs:111-116 | after an Ack a peer is listened for exactly by its own fault, whatever failed for the others; nobody else's entry comes or goes |
| `Sessions.FoldCases` | crossbridge-server/src/run.rs:133-142 | after any frame and any faults, exactly which slugs are listened for |
| `Sessions.MovesAreLocal` | crossbridge-server/src/run.rs:64-92 | a server's move leaves all other sessions alone, and the supervisor's takes from a session only files in removed directories |
| `Sessions.ReadingCases` | crossbridge-server/src/run.rs:132-143 | frames are read in the order written; reading makes exactly the directories of the peers named for adding that can be made, folds the frame into the table and changes nothing else |
| `Sessions.SessionsStartEmpty` | crossbridge-server/src/run.rs:103-111 | a new connection starts a session that has read nothing and listens for nobody |
| `Settling.CanSettle` | crossbridge-supervisor/src/lib.rs:79-89 | from every reachable state the system can come to rest, with the queue empty, every stream read and every sound connection still there |
| `Settling.NewcomerIsHeard` | crossbridge-supervisor/src/lib.rs:179-264 | from every reachable state with an empty queue, registering a free slug can lead to rest with the newcomer live and every sound member of its group and the newcomer listening for each other |
| `Settling.LeaverIsForgotten` | crossbridge-server/src/run.rs:124-131 | a sound server can shut down, and that can lead to rest with nobody sound in its group listening for it |
| `Settling.AnythingCanBreak` | crossbridge-supervisor/src/lib.rs:318-346 | no state is spared from arrivals, killed servers, lost streams, failing adds and watcher errors, so what holds in every reachable state holds under all of them |
| `Settling.LossIsCleared` | crossbridge-server/src/run.rs:84-91 | a server that has lost its stream can clear its listeners, with its departure reported before or after |
| `Sessions.PlayKeepsSysInv` | crossbridge-server/src/run.rs:46-161 | the invariant of the whole system, kept by every sequence of moves of the supervisor, the watchers and the servers |
| `Directories.DirectoriesKeptIff` | crossbridge-supervisor/src/lib.rs:198-221 | handling an event keeps every live connection's directory exactly unless it removes that of a slug another group has registered |
| `Directories.LiveDirectoriesExist` | crossbridge-supervisor/src/lib.rs:286-291 | if each slug is used in one group only, every live connection's directory exists in every reachable state, whatever fails |
| `Directories.SharedSlugLosesDirectory` | crossbridge-supervisor/src/lib.rs:286-291 | a run in which a slug registered in two groups loses its directory |
| `Sockets.PeersAreReachable` | crossbridge-client/src/main.rs:103-107 | with one group per slug, a server that has read its stream can be reached by every other member of its group: it listens for it, and its socket is in a directory that is there, although directories are removed with all sockets in them and made again |
| `Sockets.SocketsLieInDirectories` | crossbridge-server/src/listeners.rs:79-92 | in every reachable state every bound socket lies in a slug directory that exists |
| `Sockets.PlayKeepsSockets` | crossbridge-supervisor/src/lib.rs:286-291 | over every run, a listener without its socket is one that an unread frame will drop |
| `Sockets.RemovedIsUnheld` | crossbridge-supervisor/src/lib.rs:198-221 | with one group per slug, a directory that is removed is that of a slug nobody holds any more |
| `Issues.FindPrefixedUnique` | crossbridge-client/src/labels.rs:20-22 | with one label carrying the prefix its value is found in every listing order |
| `Issues.FindPrefixedFirst` | crossbridge-client/src/labels.rs:20-22 | the value found is what follows the prefix in the first label that has it |
| `Issues.FindPrefixedNone` | crossbridge-client/src/labels.rs:20-22 | without such a label nothing is found |
| `Issues.Database.CreateIssue` | crossbridge-server/src/handler.rs:108-110 | a new issue under a new id, everything else unchanged |
| `Issues.Database.AddLabel` | crossbridge-server/src/handler.rs:127-127 | one label is added to one issue |
| `Issues.Database.RemoveLabel` | crossbridge-server/src/handler.rs:202-202 | one label is removed from one issue |
| `Issues.Database.AddComment` | crossbridge-server/src/handler.rs:197-197 | one comment is appended to one issue |
| `Issues.Database.CloseIssue` | crossbridge-server/src/handler.rs:216-216 | one issue is closed |
| `Handlers.FindIssueWithLabel` | crossbridge-server/src/handler.rs:231-243 | an open holder of the label if there is one, else a closed one, and none only if no issue holds it |
| `Handlers.HandleSubmit` | crossbridge-server/src/handler.rs:89-156 | find or create, in place, with the lookup, the creation or the label transaction failing |
| `Handlers.Merge` | crossbridge-server/src/handler.rs:112-124 | the labels applied are ours and the client's, without repeats |
| `Handlers.ApplyLabels` | crossbridge-server/src/handler.rs:125-130 | the transaction adds exactly the given labels |
| `Handlers.HandleAnswer` | crossbridge-server/src/handler.rs:174-228 | copying, relabelling and closing, in place, with any database call failing |
| `Handlers.ApplyAnswer` | crossbridge-server/src/handler.rs:195-208 | the transaction: comments appended, pending removed, resolved added |
| `Handlers.CopyComments` | crossbridge-server/src/handler.rs:195-198 | the missing contents are appended in order as result comments |
| `Handlers.SubmitEffect` | crossbridge-server/src/handler.rs:95-131 | whatever fails, existing issues are left alone; success names a holder of the ref label, which if it is new is open and has the title, the body with the footer, the uuid and exactly the labels asked for; failure leaves no new reference |
| `Handlers.SubmitCases` | crossbridge-server/src/handler.rs:89-156 | exactly when a submit succeeds and what it returns, exactly when it changes nothing, and that otherwise one issue is added, which a failed label transaction leaves bare |
| `Handlers.HappensNext` | crossbridge-server/src/handler.rs:89-156 | submits and closings take effect one after the other |
| `Handlers.AnswerEffect` | crossbridge-server/src/handler.rs:174-228 | exactly when an answer succeeds; only the issue found changes, and in it exactly the two status labels, the status, and the comments appended: the result comments whose tagged text is missing, in the answer's order |
| `Handlers.OccurrencesAre` | crossbridge-server/src/handler.rs:187-198 | how often a content occurs is the number of comments that have it |
| `Handlers.CopiesDiffer` | crossbridge-server/src/handler.rs:187-192 | different contents stay different when copied |
| `Handlers.SubmitKeepsUniqueIff` | crossbridge-server/src/handler.rs:95-131 | exactly when a submit keeps a ref label unique: unless all database calls succeed, no issue holds the submission, and the client's labels carry the label, foreign, while some issue holds it |
| `Handlers.ForeignLabelBreaksUniqueness` | crossbridge-server/src/handler.rs:119-124 | from the empty database, a second submit whose labels carry the first one's ref label leaves two holders |
| `Handlers.SubmitsKeepUnique` | crossbridge-server/src/handler.rs:95-131 | over any sequence of submits, retries, half-failures and closings each ref label keeps at most one holder, and a holder stays one |
| `Handlers.SubmitsAgree` | crossbridge-server/src/handler.rs:95-105 | all successful submits of one uuid return the same id, and after the first the database is left alone, open or closed |
| `Handlers.AnswerOccurrences` | crossbridge-server/src/handler.rs:179-198 | exactly how often each content occurs after an answer |
| `Handlers.AnswerContents` | crossbridge-server/src/handler.rs:187-198 | the contents become the old ones united with the prefixed results |
| `Handlers.AnswerTwice` | crossbridge-server/src/handler.rs:174-218 | applying an answer twice is applying it once |
| `Handlers.AnswerIdempotent` | crossbridge-server/src/handler.rs:174-218 | redelivering an answer that has succeeded changes nothing, though the issue is now found among the closed ones and whichever calls fail |
| `Handlers.AnswersAccumulate` | crossbridge-server/src/handler.rs:187-198 | after any sequence of deliveries, failing anywhere and retried, an issue's contents are the old ones and all that the transactions on it brought, and nothing already present is appended again |
| `Handlers.AnswersConverge` | crossbridge-server/src/handler.rs:187-198 | schedules that get the same answers written, in any order, with any repeats and whatever else fails, end with the same contents in every issue |
| `Client.SubmitCmd` | crossbridge-client/src/main.rs:90-135 | the command cut off after any number of its writes: no write without a successful reply, then outbound, pending and ref label in this order |
| `Client.AnswerCmd` | crossbridge-client/src/main.rs:139-198 | the same for answer: nothing without a successful reply, then answered, then closed |
| `Client.SubmitRequestCases` | crossbridge-client/src/main.rs:90-123 | what a submit asks, and that it does exactly if the issue exists, has a uuid and the peer is there |
| `Client.SubmitWritesCases` | crossbridge-client/src/main.rs:129-131 | the labels after each of the three writes: outbound, then pending, then the ref label, nothing else |
| `Client.AnswerRequestCases` | crossbridge-client/src/main.rs:139-180 | what an answer says and to whom, and that it does exactly if the issue exists, is inbound and has labels for both; the first such label counts |
| `Client.OnlyResultsInOrder` | crossbridge-client/src/main.rs:167-175 | exactly the result comments travel, whole and in order |
| `Client.AnswerWritesCases` | crossbridge-client/src/main.rs:190-192 | after an answer the issue is labelled answered, then closed, and nothing else changes |
| `Client.InboundIsAnswerable` | crossbridge-client/src/main.rs:149-165 | an issue labelled inbound with one source and one ref can be answered, to that source and under that uuid, in every listing order |
| `Client.SubmittedIssueIsAnswerable` | crossbridge-server/src/handler.rs:107-131 | the issue a submit creates can be answered, back to its submitter |
| `Client.RequestArrives` | crossbridge-client/src/main.rs:109-116 | the inbound issue a submit creates has the local issue's title, body and labels, names the submitter and refers to the local uuid |
| `Client.ResultsOfResults` | crossbridge-client/src/main.rs:167-175 | filtering results at both ends is filtering once |
| `Client.ResubmitAfterAnswer` | crossbridge-client/src/main.rs:129-131 | submitting again after the answer leaves the issue closed and resolved, and pending from the second write on |
| `Uninterrupted.SubmitIsUninterrupted` | crossbridge-server/src/handler.rs:89-156 | on every path (hit in either pass, creation, and each failure) the single accesses of a submit without interleaving give the handler's database and reply |
| `Uninterrupted.AnswerIsUninterrupted` | crossbridge-server/src/handler.rs:174-228 | on every path (miss, hit in either pass, and each failure) the single accesses of an answer without interleaving give the handler's database and reply |
| `Uninterrupted.PassesFindIff` | crossbridge-server/src/handler.rs:231-243 | the open and the closed pass with nothing in between find exactly what a lookup may return: an open holder if there is one, else a closed one, and none only if no issue has the label |
| `Uninterrupted.MarkingIsUninterrupted` | crossbridge-client/src/main.rs:129-131 | a submit cut off after n of its label writes leaves the issue as specified |
| `Uninterrupted.ClosingIsUninterrupted` | crossbridge-client/src/main.rs:190-192 | an answer command cut off after n of its writes leaves the issue as specified |
| `Delivery.RunKeeps` | crossbridge-server/src/handler.rs:89-228 | the invariant of the exchange over every interleaving: unique holders, no reference without its inbound issue, single copies, consistent half-done commands and handlers |
| `Delivery.AppliedFits` | crossbridge-server/src/handler.rs:195-208 | the answer's transaction completes the answer and keeps every copied content single |
| `Guarantees.AtMostOneInbound` | crossbridge-server/src/handler.rs:95-131 | however submits are repeated, cut off, half-failed and interleaved, B holds at most one issue per uuid |
| `Guarantees.OutboundHasItsInbound` | crossbridge-client/src/main.rs:124-131 | an issue of A carries a ref label only for its own uuid, and then B holds exactly one issue for it, labelled as inbound from A |
| `Guarantees.CompletedAnswerIsSettled` | crossbridge-server/src/handler.rs:195-218 | a completed answer leaves the issue closed and resolved with every result content exactly once |
| `Guarantees.AnswerRoundTrip` | crossbridge-client/src/main.rs:139-198 | whatever happens before and meanwhile, the completed answer has put each result comment of B's issue exactly once, as its text after the sender's tag, into the issue of A that B's issue refers to by uuid, and that issue is closed and resolved |
| `Guarantees.SettledForGood` | crossbridge-server/src/handler.rs:174-218 | an answered issue stays closed, resolved and with single contents under all further submits, answers and retries |
| `Retries.EarlyAnswerChangesNothing` | crossbridge-server/src/handler.rs:176-177 | if the ref label is not written by the closed pass, neither pass finds an issue, and the whole delivery ends where the others' steps alone would have led, with the command told that it failed |
| `Retries.LaterAnswerIsFound` | crossbridge-server/src/handler.rs:234-241 | once the ref label is there, no answer is lost between the two lookup passes, whatever happens between them |
| `Retries.RetrySucceeds` | crossbridge-server/src/handler.rs:174-228 | once the ref label is there and A's server is free, a waiting answer can be carried through; the holder is then closed, resolved and has all results, and the command goes on to its own writes |
| `Retries.AnswerCanComplete` | crossbridge-client/src/main.rs:139-198 | then an answer command can be carried through from start to end: A's issue is resolved and closed, B's is answered and closed |
| `Completion.ReplyCases` | crossbridge-client/src/main.rs:119-131 | a successful reply lets the waiting submit or answer go on to its label writes, anything else ends the command, and no other command is touched |
| `Completion.SubmitCanComplete` | crossbridge-client/src/main.rs:90-135 | from every reached state with B's server idle, and for any issue that has a uuid, a run exists after which the issue is outbound, pending and carries its ref label, and B holds an inbound issue for it |
| `Completion.QuestionCanBeAnswered` | crossbridge-client/src/main.rs:90-198 | from there the question can be answered: a run from the submit to the closed and resolved issue of A that contains the answer's text |
| `Completion.CutOffSubmitIsServed` | crossbridge-client/src/main.rs:119-122 | a submit whose client was cut off can still be served, with no label written at A |
| `Completion.CutOffAnswerIsServed` | crossbridge-client/src/main.rs:182-192 | an answer whose client was cut off can still be served, and settles A's issue |
| `Completion.AnyoneCanFail` | crossbridge-server/src/handler.rs:89-228 | any command can be cut off or refused and either handler can fail halfway, at any time, and that touches no database |
| `Completion.PeopleCanChange` | crossbridge-server/src/handler.rs:231-243 | people can comment on and close any issue at any time, and nothing else changes |
| `Completion.PeopleCanPost` | crossbridge-server/src/handler.rs:231-243 | people can post issues at any time, and ids can be used up, and nothing else changes |
| `Marks.NeverPendingAndResolved` | crossbridge-client/src/main.rs:129-131 | in every interleaving of one submit with any number of answers the issue never carries both pending and resolved |
| `Marks.ClashIff` | crossbridge-client/src/main.rs:129-131 | exactly which step makes an issue carry both: the second label write of a submit whose issue is resolved |
| `Mutual.DirectionsAreRuns` | crossbridge-server/src/handler.rs:89-228 | when both repositories ask each other over the same databases, each direction is a run of its own: the other one's steps are invisible in it or somebody else's doing |
| `Mutual.OnlyThisIsAssumed` | crossbridge-client/src/main.rs:90-198 | the premises of both directions in full: when exactly a step that is possible is also permitted |
| `Mutual.OneHolderInEachDatabase` | crossbridge-server/src/handler.rs:231-243 | then in either whole database each ref label has at most one holder, so every lookup has at most one issue to find |
| `Mutual.MutualRoundTrip` | crossbridge-client/src/main.rs:139-198 | the round trip of an answer, whatever both directions did before and do meanwhile |
| `Mutual.MutualNeverPendingAndResolved` | crossbridge-client/src/main.rs:129-131 | an own issue submitted at most once never carries both pending and resolved |
| `Mutual.FlippedRun` | crossbridge-client/src/main.rs:90-198 | a run turned round is a run, so all of this holds for both repositories |
| `Framing.LengthRoundTrip` | crossbridge-protocol/src/framing.rs:50-51 | the four big-endian bytes determine the length |
| `Framing.LengthDetermines` | crossbridge-protocol/src/framing.rs:69-69 | any four bytes are those of the length they give |
| `Framing.BigEndian` | crossbridge-protocol/src/framing.rs:50-51 | the most significant byte comes first: smaller lengths have lexicographically smaller bytes |
| `Framing.Reader.Read` | crossbridge-protocol/src/framing.rs:108-108 | one read delivers as much of the next chunk as fits |
| `Framing.Reader.ReadExact` | crossbridge-protocol/src/framing.rs:107-108 | the buffer is filled with the next bytes, or the stream is used up |
| `Framing.Reader.ReadMessage` | crossbridge-protocol/src/framing.rs:102-114 | the result and the rest depend on the bytes only; an announced length over the limit is refused after four bytes |
| `Framing.ReadMessages` | crossbridge-protocol/src/framing.rs:102-114 | reading repeatedly gives the messages of the bytes for every chunking |
| `Framing.Writer.WriteAll` | crossbridge-protocol/src/framing.rs:92-93 | all bytes are written, or as many as the stream takes |
| `Framing.Writer.WriteMessage` | crossbridge-protocol/src/framing.rs:82-95 | a message that cannot be sent, or is over the limit, emits no bytes; otherwise its frame, as far as the stream takes it |
| `Framing.WriteMessages` | crossbridge-protocol/src/framing.rs:82-95 | what a sequence of writes emits and how many succeed |
| `Framing.Encode` | crossbridge-protocol/src/framing.rs:15-24 | what is sent is the serialized message within the limit; it fails exactly when serializing does or when the payload is too large, and says which |
| `Framing.FrameReadsBack` | crossbridge-protocol/src/framing.rs:82-114 | a frame followed by anything reads back as its message and leaves the rest |
| `Framing.ReadIsSound` | crossbridge-protocol/src/framing.rs:102-114 | a successful read consumed exactly one frame within the limit whose payload parses to the message |
| `Framing.ReadFrameCases` | crossbridge-protocol/src/framing.rs:102-114 | every way a read ends, and what it leaves: too few bytes, a length over 16 MiB of which four bytes are consumed, a payload that parses or does not |
| `Framing.ReadAllIsSound` | crossbridge-protocol/src/framing.rs:102-114 | whatever the bytes, what is read until the first failure are the messages of consecutive frames, and reading the rest is what fails |
| `Framing.ExactlyTheSentArrive` | crossbridge-protocol/src/framing.rs:82-114 | the receiver gets exactly the messages whose writes succeeded, then the end, never a half-written one |
| `Framing.PrefixYieldsPrefix` | crossbridge-protocol/src/framing.rs:82-114 | all bytes give the whole sequence back and a strict prefix of them a strict prefix of it, then the end |
| `Framing.EndOfStreamIff` | crossbridge-server/src/supervisor.rs:137-150 | exactly when a notification read reports the end of the stream |
| `Framing.NotificationReadsBack` | crossbridge-server/src/supervisor.rs:137-150 | a notification that was sent is the one that is got |
| `Framing.ReadNotificationCases` | crossbridge-server/src/supervisor.rs:137-150 | for all bytes: a notification is got exactly if the first frame is complete, within the limit and parses to it; exactly what gives an error |
| `Framing.TruncatedLooksClean` | crossbridge-server/src/supervisor.rs:128-131 | a truncated frame is reported as the end of the stream, contrary to the documentation |
| `Slugs.ServerSlug` | crossbridge-server/src/slug.rs:133-167 | the server takes the last segment less one .git, whatever slashes, query or fragment follow, from all three forms of remote |
| `Slugs.ClientSlug` | crossbridge-client/src/slug.rs:20-35 | the client takes what follows the last separator, less one .git |
| `Slugs.ParsersAgreeIff` | crossbridge-client/src/slug.rs:1-5 | exactly when the parsers agree on a remote with clean segments: without query, fragment and trailing slash, or on a bare .git segment |
| `Slugs.AllRemotesAgreeIff` | crossbridge-client/src/slug.rs:1-35 | for every text at all, exactly when the two parsers return the same |
| `Slugs.ParsersAgree` | crossbridge-client/src/slug.rs:1-5 | on every plain remote both return the last segment less one .git |
| `Slugs.DotGitRoundTrip` | crossbridge-server/src/slug.rs:162-166 | appending .git to a clean slug and parsing gives the slug back with both parsers |
| `Slugs.TrailingSlashDisagrees` | crossbridge-client/src/slug.rs:28-34 | with trailing slashes the server finds the name and the client nothing |
| `Slugs.PathPartIs` | crossbridge-server/src/slug.rs:139-153 | the path part the server splits off, for scp-style, scheme and plain remotes |
| `Slugs.UrlPath` | crossbridge-server/src/slug.rs:141-147 | the path of any URL follows the first slash after the host |
| `Slugs.UrlWithoutPath` | crossbridge-server/src/slug.rs:144-147 | a URL without such a slash has no path |
| `Slugs.ScpPath` | crossbridge-server/src/slug.rs:148-150 | in any other text the path follows the first colon |
| `Slugs.SlugOfAnyPath` | crossbridge-server/src/slug.rs:154-167 | the name in any path: its last segment before slashes, query or fragment, without blanks around it and one .git |
| `Slugs.NameCases` | crossbridge-server/src/slug.rs:162-166 | .git is taken off once and only from the end, and an empty name is none |
| `Slugs.WhiteIs` | crossbridge-server/src/slug.rs:134-134 | what counts as blank: exactly the white-space characters of Unicode |
| `Slugs.BlankNamesNothing` | crossbridge-client/src/slug.rs:21-24 | blank text names nothing, for either parser |

## Left out

- Sockets, tasks and scheduling: a connection is a FIFO stream whose writes succeed or fail; one handler
  call is one step.
- The payload codec (postcard) and the issue store (crosslink over SQLite): neither is part of this model
  beyond a codec that parses what it serializes and a store of issues that are open or closed.
- Attachments: `handle_submit` is modelled for requests without any, which is all the client sends.
- Where the socket root, the group and the slug come from, `list_peers`, `repo_root_from`: one-branch lookups.
- Reconnect backoff: its arithmetic, and the retry loop around it.
- `prepare_base_dir` and a restart of the supervisor: runs start from an empty base directory.
- Command-line parsing, log lines, the git and jj commands, the shell helper.
- Socket files that a killed server leaves in other servers' directories: they stay until those directories go, and nothing is claimed about them.
- The texts of error messages beyond the Nack reasons and the prefix of copied comments, issue priorities and reports printed by commands.
- Server.ServeOneSession: client connections are not interleaved with notifications here, because the two branches share no state; requests are modelled in `Exchange`.
- Sessions.ViewsAgree: a server heeds a frame in one step, so directories that vanish between two adds of one Ack are not modelled; nothing is said about a connection with a failed write, whose departure is queued.
- Mutual.MutualRoundTrip: two repositories only; what either exchanges with a third one at the same time is not modelled.
- Framing.Writer.WriteAll: how many writes it takes is not modelled, only how many bytes get through.
- Marks.NeverPendingAndResolved: stated for issues submitted once, because it fails for others; `Marks.ClashIff` says exactly how.
