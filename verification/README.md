# A verified model of the LAN messenger's protocols

The messenger is a relay, clients that keep their own history and outbox, and a tunnel that lets the relay sit behind
a public host. This project models the parts of it whose correctness depends on several functions, goroutines or runs
at once, and proves what they promise over every run.

* **Delivery** (`Wire`, `ClientTables`, `OfflineQueue`, `Delivery`, `DeliverySafety`, `DeliveryOrder`,
  `DeliveryConservation`, `DeliveryTransit`, `DeliveryWitness`, `DeliverySteps`, `MessageRelay`, `BoxAuthenticity`):
  at-least-once delivery across clients and relay. One machine interleaves the single effects of `SendText` on the UI
  goroutine with the effects of the one goroutine that reads, flushes and acknowledges, and with the relay's handlers,
  dropped frames, replaced connections, expiry and the queue cap.
* **Enrollment and the registry** (`Enrollment`, `EnrollmentSafety`, `EnrollmentSteps`, `Registry`, `RelayServer`):
  who becomes ready, who may approve, and which connection of a device is current. Count-then-upsert and
  check-then-set are split where the code holds no lock.
* **Tunnel** (`Framing`, `BufferedConn`, `TunnelAccept`): framing on a stream, the adapter that hides read deadlines
  from TLS, and the pairing of streams with announced addresses.
* **Rate limiting** (`RateLimit`): the pruned in-place history against the full one.
* **Files** (`FileTransfer`, `FileReceiver`, `FileClash`, `FileDownloads`, `Decimal`): chunking, free names, and
  reassembly over a directory of inodes and open descriptors.
* **Peers, releases, versions, migrations** (`PeerTrust`, `Release`, `Version`, `SelfUpdate`, `Migrations`).

A part that changes state in place is a class whose methods are proved against a specification function or a step of
the part's machine; the theorems are lemmas over all runs of that machine. What such a function or step comes to is
also said without it, row by row or field by field, on the method or by a lemma beside it.

Assumptions: sealed boxes, signatures and digests are ideal; message and transfer ids are random and never repeat;
single SQL statements and transactions are atomic; the relay stamps the sender it authenticated; the multiplexer's
stream ids are unique within a session. In the delivery machine every client and the relay run the code, so its
theorems rest on them and not on the sealed box; `BoxAuthenticity` is about the box alone, with frames repeated,
rerouted and relabelled at will and anyone sending any box they can build. The operator's configuration starts as
given and an enrollment run starts from an empty store with its approval mode fixed.

Where the code and what is written about it differ, the model follows the code:

* `internal/version/version.go:69-70` calls the empty string the smallest version. `"-1"` compares below it;
  `Version.BelowEmptyIffNegative` says exactly which versions do.
* `SendText` writes its frame before it inserts its row (`internal/clientcore/api.go:96`, `:112`), so an ack can
  arrive before there is a row to mark, and the row is left at sent with no frame on its way
  (`DeliveryWitness.AckCanBeatRow`). `DeliveredIsSound` therefore claims only that a row shown as delivered was
  acknowledged.
* An ack also clears the outbox (`internal/clientcore/dispatch.go:142-143`). A message one of whose writes, by
  `SendText` or by a flush, reported failure although its frame left can thereby end up neither stashed nor
  successfully written (`DeliveryWitness.UncleanWriteCanLose` has a run for either kind of write).
  `NothingIsLostWhenWritesAreClean` shows that nothing else can do this; `StashedUnlessAcked` says exactly when an
  unwritten message leaves the outbox; and `NothingIsLostOnTheClient` is the general case, where such a message was at
  least acknowledged. From its write on, `DeliveryTransit.WhereMessagesAre` names every step at which a message can
  end.
* An outbound row's state moves forward only, except that it may go back for a message whose direct write reported
  failure although its frame had left: such a message is stashed and flushed again after its ack. `StatesMoveForward`
  excludes the ids with such a write, and `UncleanFailureCanRegress` is a run that takes such a row from delivered
  back to sent. `ForwardIffNoLateMark` is the exact condition: that no flush marks a row an ack marked before.
* A message already queued is ignored when enqueued again only while the queue is below its cap; at the cap a repeated
  message still makes room first (`internal/servercore/store.go:231-245`, `OfflineQueue.DuplicateIgnoredIff`).
* A stale device count or a stale "is pending" check lets a connection become ready for a device that is not active
  (`StaleCountMakesPendingReady`, `StaleDenialLeavesDeniedReady`); `ReadyMeansActive` holds as long as no stale check
  is acted on, and `TerminalIffStillPending` says exactly when active and denied are terminal.
* A received file needs its part path to itself. Two transfers of one name at a time share a part file, and one file
  is lost and the other corrupted although every frame arrived in order and every hash check passed
  (`FileClash.SharedPathLosesFile`). And a part path can be a file published before: after `f.part`, an offer of `f`
  empties it, with never two transfers at once (`FileClash.PartPathTruncatesPublished`). `PublishedIsWhole` holds when
  every accepted offer's part and final path are apart from those of the other active transfers, and its part path is
  no published file.
* A verification by the user between the read and the write of a roster upsert is lost (`VerificationCanBeLost`);
  `FlagsFollowIffRowsStand` says exactly when the flags follow the history.
* A closed interval of the limiter's window length can hold twice the maximum, for every maximum
  (`RateLimit.ClosedIntervalCanExceed`); the guarantee is for intervals that exclude their left end.
* A limiter call reads the clock before it takes the lock (`internal/ratelimit/limiter.go:33-34`), so calls of one key
  can be recorded out of time order. The limiter can then let through what a full history would refuse
  (`LateAnswersDiffer`) and more than the maximum in one window. With no call recorded more than some lateness behind
  an earlier one, `LateWindowHolds` gives the guarantee for intervals shorter than the window by that lateness, and
  `LateWindowIsTight` shows that no longer ones have it. `WindowHolds` is the case of calls recorded in time order.
* Update attempts overlap: each `Ready` event starts one (`cmd/lanmsg-cli/main.go:297-299`), and an attempt loads the
  stored seq and saves its own without a lock (`internal/update/client.go:98-108`). Two that have loaded the same seq
  can accept 7 and then 6 (`Release.OverlapCanRollBack`); accepted seqs increase exactly when every save still finds a
  smaller one stored (`AcceptedGrowIffStillNewer`).
* An attempt compares with the binary its process runs, not with the installed one
  (`internal/update/client.go:113-115`). A process that swapped but could not replace itself
  (`cmd/lanmsg-cli/update.go:70-73`) can install 2 over 3 (`SelfUpdate.UnfinishedSwapCanDowngrade`).
  `InstalledIncreaseIff` is the exact condition: a swap by a process that no longer runs what is installed must bring
  something newer than that, or the same.
* The hub writes to its control stream again after a failed write (`internal/tunnel/hub.go:173-180`). If that stream
  stayed open with a frame's body missing, the reader would get a frame that nobody wrote
  (`Framing.TornHeaderSwallowsNext`); `WritersDoNotMix` assumes that a failed write closes the stream.

## Model

| member | source | states |
|---|---|---|
| ClientTables.MarkSentMeaning | internal/clientcore/api.go:128-136 | a flush sets exactly the outbound rows of the messages it wrote to sent, and changes nothing else |
| ClientTables.InsertKeepsRows | internal/clientcore/store.go:219-229 | inserting keeps every row and its place, never makes a second row of one key, and the key is there afterwards |
| ClientTables.InsertMeaning | internal/clientcore/store.go:219-229 | a row is added, at the end, exactly when none with its id, peer and direction is there |
| ClientTables.SetStateKeepsRows | internal/clientcore/store.go:231-236 | a state change touches no key and no row order |
| ClientTables.DeleteKeepsUnique | internal/clientcore/store.go:279-309 | outbox ids stay unique under delete and replace |
| ClientTables.DeleteTakesOne | internal/clientcore/store.go:279-309 | a delete takes out the one row of its id and keeps the order of the others |
| ClientTables.ClientCore.SendText | internal/clientcore/api.go:62-118 | an unknown peer changes nothing; otherwise the sealed message is written or stashed, never neither, and one row in the matching state is inserted |
| ClientTables.ClientCore.FlushOutbox | internal/clientcore/api.go:122-137 | rows leave in outbox order up to the first failed write, each as a frame with its own id, peer and box; exactly those are deleted and exactly their outbound rows marked sent, the rest stay in order |
| ClientTables.ClientCore.HandleIncoming | internal/clientcore/dispatch.go:54-125 | every message with a sender is acknowledged; a text sealed between a known sender's key and this client's is stored as received, unless its id is already stored from that sender, and nothing else ever is |
| ClientTables.ClientCore.HandleAck | internal/clientcore/dispatch.go:134-145 | a complete ack takes exactly its id out of the outbox and sets exactly the outbound rows of its id and peer to delivered, whatever their state was; an incomplete one does nothing |
| OfflineQueue.QueueRefinesLists | internal/servercore/store.go:219-292 | over every run of enqueue, ack and purge, one recipient's rows are what a plain list under the same operations would hold, in order |
| OfflineQueue.CapHolds | internal/servercore/store.go:231-240 | in every run whose enqueues share a positive cap, no recipient's queue is ever longer than the cap |
| OfflineQueue.DuplicateIgnoredIff | internal/servercore/store.go:231-245 | enqueueing a queued message again changes nothing exactly when the recipient's queue is below the cap |
| OfflineQueue.KeepsNewest | internal/servercore/store.go:219-248 | from an empty queue with no ack or expiry, whatever is enqueued for whom and when under one cap: if a recipient's messages are distinct, its rows are exactly the last of them up to the cap, in order |
| OfflineQueue.LeavesOnlyFor | internal/servercore/store.go:231-292 | one operation removes an entry only as its own ack, by its age, or to make room for another |
| OfflineQueue.RemovedOnlyFor | internal/servercore/store.go:231-292 | over any stretch of a run, an entry that went missing went by one of those three |
| OfflineQueue.PurgeTakesPrefix | internal/servercore/store.go:281-292 | with a clock that never goes back, expiry removes a prefix |
| OfflineQueue.ApplyWellFormed | internal/servercore/store.go:219-292 | row ids stay increasing and no recipient has a message of one sender twice |
| OfflineQueue.QueueStore.EnqueueMsg | internal/servercore/store.go:219-248 | the recipient's list loses its oldest to stay below a positive cap and gains the message at its end unless it still holds it; no other recipient's list changes |
| OfflineQueue.QueueStore.Drain | internal/servercore/store.go:252-271 | one by one the recipient's messages in insertion order, leaving the queue as it is |
| OfflineQueue.QueueStore.Acknowledge | internal/servercore/store.go:273-279 | exactly the acknowledged row goes, and no other recipient's list changes |
| OfflineQueue.QueueStore.PurgeExpired | internal/servercore/store.go:281-292 | exactly the rows older than the retention go, and their number is returned; no retention removes none |
| DeliverySafety.StepKeeps | internal/servercore/handlers.go:79-148 | every step of any client or of the relay keeps the protocol's invariant |
| DeliverySafety.HistoryIsFaithful | internal/clientcore/dispatch.go:64-107 | in every run a client has no two rows of one key, and every inbound text is exactly what its peer gave to SendText for this recipient |
| DeliverySafety.DeliveredIsSound | internal/clientcore/dispatch.go:134-145 | a row is shown delivered only after its recipient's own connection sent an ack for it, and unless that ack was for an unreadable message the recipient had stored the row |
| DeliverySafety.NothingIsLostOnTheClient | internal/clientcore/api.go:96-136 | in every run: after SendText has returned successfully its message is in the outbox, was successfully written to some connection, or was acknowledged by its recipient, and its row is in the history |
| DeliveryConservation.NothingIsLostWhenWritesAreClean | internal/clientcore/api.go:96-136 | as long as no write of the message reported failure although its frame left, it is in the outbox or was successfully written, through any failed sends, partial flushes, reconnects and restarts |
| DeliveryConservation.StashedUnlessAcked | internal/clientcore/dispatch.go:134-143 | a returned, stashed and never successfully written message is still in the outbox if and only if its sender has taken no ack for it since |
| DeliveryConservation.StashLeavesOnlyByAck | internal/clientcore/dispatch.go:142 | the one kind of step at which an unwritten message leaves the outbox |
| DeliveryWitness.UncleanWriteCanLose | internal/clientcore/api.go:96-136 | for a write by SendText and for one by a flush: a run in which a message Ann gave to SendText, which returned without an error, is in no client's outbox and was never successfully written |
| DeliveryWitness.AckCanBeatRow | internal/clientcore/api.go:96-112 | a run in which the ack is taken before the row is inserted, and the row is left at sent with no frame on a connection, in a handler, a drain, the queue or an outbox |
| DeliveryConservation.QueueKeepsUntilAcked | internal/servercore/store.go:219-292 | over the whole machine: a message gone from the relay's queue expired, made room for another to its recipient, or was acknowledged by its recipient, which had stored it unless it could not read it |
| DeliveryTransit.WhereMessagesAre | internal/servercore/handlers.go:79-125 | in every run a message that left on a connection, whether or not the write reported success, is on some connection, in a handler or in the queue, or its recipient took it, or a copy ended at a named step: cut off, refused on reading, not handed over or not drained, expired, out of room, or acknowledged |
| DeliveryTransit.TakenIsStored | internal/clientcore/dispatch.go:64-107 | who takes a message is its addressee and sees its true sender; if it lists the sender under the key the message was sealed with, and that was sealed for its own key, its history has from then on the very text given to SendText |
| BoxAuthenticity.InboundRowsAreAuthentic | internal/clientcore/dispatch.go:64-107 | with nothing on the way trusted, an inbound row from a peer whose known key is another client's carries a text one of the two sealed for the other |
| DeliveryOrder.StatesMoveForward | internal/clientcore/api.go:87-137 | between any two points of a run no outbound row's state goes back, except of a message whose direct write failed although its frame left |
| DeliveryOrder.ForwardIffNoLateMark | internal/clientcore/api.go:128-136 | over a whole run no outbound row of a client goes back exactly when no flush marks as sent a row already marked delivered |
| DeliveryOrder.AckShowsDelivered | internal/clientcore/dispatch.go:143 | from the moment an ack's mark is taken, every outbound row of its message that is there by then is shown delivered, until a flush marks it |
| DeliveryWitness.UncleanFailureCanRegress | internal/clientcore/api.go:96-112 | the exception is real: a run in which such a row goes from delivered to sent |
| DeliverySteps.SendTextComposes | internal/clientcore/api.go:87-118 | with no one in between, the machine's steps of one call leave the row and the outbox that SendText promises |
| DeliverySteps.FlushComposes | internal/clientcore/api.go:122-137 | with no one in between, the machine's steps of a flush leave what flushOutbox promises |
| DeliverySteps.MessageGoesOneWay | internal/servercore/handlers.go:96-125 | a message the relay takes on is pushed to the recipient's current ready connection or queued, never both, under the sender's own id; a failed push drops it |
| DeliverySteps.AckPurgesAndPasses | internal/servercore/handlers.go:140-147 | an ack removes the acknowledger's copy and is passed on, under the acknowledger's id, only to the sender's ready connection |
| DeliverySteps.RefusedGoesNowhere | internal/servercore/handlers.go:79-138 | a frame of a connection not ready, an incomplete one, or one for a device not active changes no queue and reaches no connection |
| DeliverySteps.DrainComposes | internal/servercore/enroll.go:176-190 | with no one in between, the steps of the drain leave what SendQueued promises |
| DeliverySteps.PassedAt | internal/servercore/enroll.go:181-189 | of the drained frames those whose sends succeed arrive, each behind exactly those that succeeded before it |
| DeliverySteps.IncomingComposes | internal/clientcore/dispatch.go:54-107 | with no one in between, the steps for one message leave the history that HandleIncoming promises and one ack on the connection, marked as for an unread message exactly when the box is not a text between the known sender and this client |
| DeliverySteps.AckComposes | internal/clientcore/dispatch.go:134-145 | likewise for one ack and HandleAck |
| DeliverySteps.RegistryComposes | internal/servercore/server.go:201-217 | registering and unregistering a connection are the registry's additions and removals, and close exactly the connection displaced |
| MessageRelay.Relay.HandleMsg | internal/servercore/handlers.go:79-125 | which error for which message; a good one under the sender's own id goes to the recipient's ready connection, or is in its queue afterwards, and nothing else changes |
| MessageRelay.Relay.HandleMsgAck | internal/servercore/handlers.go:127-148 | the acknowledger's queue row goes, at most the named peer's connection gets one frame |
| MessageRelay.Relay.SendQueued | internal/servercore/enroll.go:176-190 | the connection gets the recipient's queued messages in order, each under its sender's id, failed sends skipped and all of them if none fails; the queue keeps all of them |
| Enrollment.StepKeeps | internal/servercore/enroll.go:18-139 | every effect of every connection keeps ids derived from keys, admin rows active, admin rights founded, and registry entries under their own device |
| EnrollmentSteps.EnrollComposes | internal/servercore/enroll.go:47-127 | with no one in between, one enrollment's steps leave the store, the admin list and the connection that EnrollDevice promises, and no other connection changes |
| EnrollmentSteps.ResumeComposes | internal/servercore/enroll.go:18-43 | likewise for one resumption and ResumeDevice |
| EnrollmentSteps.DecisionComposes | internal/servercore/handlers.go:199-241 | likewise for one approval or denial and HandleAdminAction: the directory, and the readiness of the target's current connection |
| EnrollmentSteps.CheckMeaning | internal/servercore/handlers.go:186-213 | the checks let through exactly a ready admin's decision, signed by that admin for this action and target, on a device that is pending |
| EnrollmentSteps.RegistryComposes | internal/servercore/server.go:201-217 | registering and closing a session are the registry's additions and removals |
| EnrollmentSafety.DirectoryIsAdministered | internal/servercore/enroll.go:75-112 | in every interleaving, ids match keys, admin rows are active, and a nonempty directory has an active admin |
| EnrollmentSafety.RowsPersist | internal/servercore/store.go:75-88 | no row disappears and none changes its key or its admin flag, re-enrollment included |
| EnrollmentSafety.StandingsChangeByAdminsOnly | internal/servercore/handlers.go:167-232 | a standing changes only by a ready admin's approval or denial carrying that admin's own signature |
| EnrollmentSafety.TerminalIffStillPending | internal/servercore/handlers.go:205-231 | active and denied are terminal in a run exactly when every approval or denial still finds its target pending, or already so |
| EnrollmentSafety.UninterruptedFindsPending | internal/servercore/handlers.go:205-232 | a decision with no one between its check and its set meets that condition |
| EnrollmentSafety.ReadyMeansActive | internal/servercore/enroll.go:28-42 | unless a stale check is acted on, every ready connection's device is active in the store under the connection's key |
| EnrollmentSafety.StaleCountMakesPendingReady | internal/servercore/enroll.go:80-121 | a run in which a stale count alone makes a pending device's connection ready |
| EnrollmentSafety.StaleDenialLeavesDeniedReady | internal/servercore/handlers.go:205-219 | a run in which a stale pending check alone leaves a denied device's connection ready |
| Registry.EntryIsCurrent | internal/servercore/server.go:201-217 | a device's entry is its most recently added connection exactly as long as that one was not removed, for every interleaving |
| Registry.ClosedAreDisplaced | internal/servercore/server.go:204-207 | the connections closed by additions are exactly the displaced ones |
| Registry.NoneForgotten | internal/servercore/server.go:201-217 | every added connection is current, closed, or was removed after |
| RelayServer.Server.UpsertDevice | internal/servercore/store.go:75-88 | a new row is stored as given; an existing one takes the name and keys and keeps its standing and admin flag; no other row changes |
| RelayServer.Server.SetDeviceState | internal/servercore/store.go:148-162 | only the standing of an existing row changes, keys and admin flags stay, and absence is reported |
| RelayServer.Server.MarkConnReady | internal/servercore/enroll.go:131-139 | the connection takes the entry's identity, and admin from configuration or directory |
| RelayServer.Server.ResumeDevice | internal/servercore/enroll.go:18-43 | which reply for which standing; an active device's connection is ready under its key and rights, a pending one's waits under its key, and any other stays without identity |
| RelayServer.Server.EnrollDevice | internal/servercore/enroll.go:47-127 | a bad name or key is refused and changes nothing; otherwise the request's name and keys are in the row of its signing key's id and no other row changes, the first device is an active admin, a later new one is pending if approval is required, one known keeps its standing, and the connection takes that identity, ready or waiting |
| RelayServer.Server.HandleAdminAction | internal/servercore/handlers.go:164-241 | not found, not pending or done exactly as the target is absent, not pending or pending for a ready admin with its own signature; only a pending target's standing ever changes, to what was decided; an approved waiting connection becomes ready, a denied one is closed |
| RelayServer.Server.AddConn | internal/servercore/server.go:201-209 | the new connection is current and the one it displaces is closed |
| RelayServer.Server.RemoveConn | internal/servercore/server.go:211-217 | the entry goes exactly when the connection is current |
| RelayServer.Server.LookupConn | internal/servercore/server.go:219-224 | the current connection by history, or none exists |
| RelayServer.Server.ReadyConns | internal/servercore/server.go:228-239 | every ready registered connection but the excepted one, each once |
| RateLimit.RunsAgree | internal/ratelimit/limiter.go:29-72 | over any run of calls recorded in time order, the pruned history holds exactly the recent part of the full one |
| RateLimit.AnswersAsFullHistory | internal/ratelimit/limiter.go:29-44 | for calls recorded in time order, every answer is the one an unpruned limiter would give |
| RateLimit.LateAnswersDiffer | internal/ratelimit/limiter.go:33-34 | not so for calls recorded late: a run in which the limiter lets through a call that the full history refuses, for every maximum from two, window and lateness within it |
| RateLimit.AllowedAreRecorded | internal/ratelimit/limiter.go:29-44 | for calls recorded in time order, those the pruned limiter lets through are exactly those the full history records |
| RateLimit.GetsThroughIff | internal/ratelimit/limiter.go:29-44 | for calls recorded in time order, a call gets through exactly when there is no limit or fewer than the maximum of its key got through in the window that ends with it |
| RateLimit.KeepsAllowed | internal/ratelimit/limiter.go:29-72 | in any order of times, the pruned history has exactly those calls let through that are in the window of every time so far |
| RateLimit.WindowHolds | internal/ratelimit/limiter.go:37-43 | for calls recorded in time order, in no interval of window length, left end excluded, does the pruned limiter let more than the maximum of a key's calls through |
| RateLimit.LateWindowHolds | internal/ratelimit/limiter.go:33-43 | for calls recorded at most some lateness behind earlier ones, the same in intervals shorter by that lateness |
| RateLimit.LateWindowIsTight | internal/ratelimit/limiter.go:33-43 | one longer can hold one call too many, for every maximum from two, window and lateness within it |
| RateLimit.ClosedIntervalCanExceed | internal/ratelimit/limiter.go:63-68 | with the left end included it can let through twice the maximum, for every maximum and window |
| RateLimit.PruneInPlace | internal/ratelimit/limiter.go:64-72 | filtering over the same backing array leaves exactly the recent times in order |
| RateLimit.Limiter.Allow | internal/ratelimit/limiter.go:29-44 | the answer and the new history, over arrays that no two keys share |
| RateLimit.Limiter.Collect | internal/ratelimit/limiter.go:49-61 | every key is pruned and empty ones are dropped |
| Framing.HeaderRoundTrip | internal/tunnel/frame.go:31-32 | a length survives its four bytes, most significant first |
| Framing.RoundTrip | internal/tunnel/frame.go:23-61 | any sequence of frames within the limit reads back as itself |
| Framing.PrefixDecodes | internal/tunnel/frame.go:44-56 | any truncation of the stream yields a prefix of the frames, then an error, never an invented frame |
| Framing.WritersDoNotMix | internal/tunnel/hub.go:173-175 | under the lock, whatever the interleaving and as long as a failed write closes the stream, what is on the wire decodes to whole frames of some writers |
| Framing.TornHeaderSwallowsNext | internal/tunnel/hub.go:173-180 | with the stream left open, a run in which the reader gets a frame nobody wrote |
| Framing.WriteFrame | internal/tunnel/frame.go:23-40 | an oversize body writes nothing; otherwise exactly the frame's bytes are appended |
| Framing.ReadFrame | internal/tunnel/frame.go:44-61 | under any fragmentation of reads the result is that of decoding the stream: a length over 64 KiB takes only the header, another exactly its body or what there is of it |
| BufferedConn.StreamIsExact | internal/tunnel/bufferedconn.go:62-137 | bytes returned, left over, in the channel and in hand are together exactly the bytes pulled from the raw stream, in order |
| BufferedConn.TimeoutTakesNothing | internal/tunnel/bufferedconn.go:93-102 | a read that times out consumes nothing |
| BufferedConn.FailureComesLast | internal/tunnel/bufferedconn.go:110-121 | an error or end of stream surfaces only after every byte |
| BufferedConn.NothingAfterTheEnd | internal/tunnel/bufferedconn.go:110-121 | once it has surfaced no later read returns bytes |
| BufferedConn.Conn.ReadStart | internal/tunnel/bufferedconn.go:79-102 | as much of the leftover as is wanted comes first; without any, a deadline that is not ahead ends the read, and otherwise it waits with the deadline it saw |
| BufferedConn.Conn.DeliverChunk | internal/tunnel/bufferedconn.go:129-137 | the caller gets as much as it asked for or the whole chunk, and that and what is kept make up the chunk |
| TunnelAccept.AcceptIsFaithful | internal/tunnel/listener.go:98-138 | every accepted connection carries the very ip and port announced for its own stream, is never the control stream, and is returned once |
| TunnelAccept.EveryStreamAccountedFor | internal/tunnel/listener.go:98-118 | every arrived stream is returned, dropped, waited for or still queued, exactly once |
| TunnelAccept.GiveUpIsDeserved | internal/tunnel/listener.go:120-138 | a stream is given up only because its own preamble has not been read or its announced address does not parse |
| TunnelAccept.SessionListener.WaitForAddr | internal/tunnel/listener.go:120-138 | the address found is the last good one read for the stream before the first poll that has any, or the one pending from before; it is taken out, and none is found exactly when there is neither |
| TunnelAccept.SessionListener.ReadControlFrame | internal/tunnel/listener.go:74-90 | a good preamble is filed under its stream, a bad one skipped |
| FileTransfer.ChunksMakeFile | internal/clientcore/files.go:95-98 | for every size the chunks concatenate to the file, all but the last are full, and only an empty file has an empty last one |
| FileTransfer.SendFile | internal/clientcore/files.go:95-163 | the offer and the chunks in order, up to the first failed send |
| FileTransfer.UniquePath | internal/clientcore/files.go:379-391 | the search ends, at the path itself or the first numbered candidate not taken |
| FileTransfer.NumberBeforeExtension | internal/clientcore/files.go:383-386 | the number goes before the extension, from the last dot of the last path element on, and at the end without one |
| FileTransfer.StreamIsFile | internal/clientcore/files.go:95-163 | the offer gives the file's name, size, digest and number of chunks, and chunk after chunk is its next stretch of 512 KiB |
| FileTransfer.TakenAreMany | internal/clientcore/files.go:385-390 | candidates differ, so a finite directory cannot hold them all |
| FileReceiver.NoInterference | internal/clientcore/files.go:196-336 | a transfer's progress and verdicts depend on its own frames alone, whatever others are interleaved |
| FileReceiver.EndsAtMostOnce | internal/clientcore/files.go:265-336 | for each time it began a transfer ends at most once, and not while it goes on |
| FileReceiver.TakesPrefixAndHashHolds | internal/clientcore/files.go:265-302 | for honest senders under any loss, repetition and order, what was taken in is the file's first chunks, more are missing, and no hash check fails |
| FileReceiver.InOrderIsVerified | internal/clientcore/files.go:248-320 | a transfer whose frames arrive once and in order passes its hash check, whatever else arrives |
| FileReceiver.InOrderIsPublished | internal/clientcore/files.go:248-320 | such a transfer is published with its full contents and keeps them, under the condition on paths |
| FileReceiver.PublishedHasOfferedDigest | internal/clientcore/files.go:297-315 | whoever sends what, under the condition on paths every published file has the digest it was offered with |
| FileReceiver.PublishedIsWhole | internal/clientcore/files.go:287-320 | with every accepted offer's paths apart from those of other active transfers and its part path no published file: published files hold the full contents and keep them, none is lost, and part files hold exactly the accepted prefix |
| FileReceiver.OfferMeaning | internal/clientcore/files.go:196-229 | an offer over the limit changes nothing; another gets a free name, its own if that is free, and an empty part file beside it |
| FileReceiver.ChunkMeaning | internal/clientcore/files.go:248-336 | a chunk out of turn or badly encoded ends its transfer and takes its part file's name away; any other is written behind those before it, and the last one ends the transfer |
| FileReceiver.FinalizeMeaning | internal/clientcore/files.go:291-320 | a wrong hash leaves no file; a right one moves the part file to its final name |
| FileClash.SharedPathLosesFile | internal/clientcore/files.go:215-217 | two transfers of one name: all in order, both hashes pass, one file lost and the other corrupted |
| FileClash.PartPathTruncatesPublished | internal/clientcore/files.go:215-217 | one transfer at a time: a published file emptied by the next offer's part file |
| FileDownloads.Downloads.HandleOfferFrame | internal/clientcore/files.go:196-229 | an offer over the limit is declined; another gets a free name and a truncated part file |
| FileDownloads.Downloads.AbortInbound | internal/clientcore/files.go:323-336 | the transfer and its part file's name go |
| FileDownloads.Downloads.FinalizeTransfer | internal/clientcore/files.go:291-320 | hash, then rename: mismatched, unmoved or published |
| FileDownloads.Downloads.HandleChunkFrame | internal/clientcore/files.go:248-321 | unknown, out of order, badly encoded, taken, or last |
| PeerTrust.FlagsFollowHistory | internal/clientcore/store.go:125-148 | a peer shows its last entry; verified holds exactly when the user said so since its insertion and last key change, key_changed exactly when keys changed since its insertion and the user's last word |
| PeerTrust.NeverBothFlags | internal/clientcore/store.go:138-146 | never both at once, also with the user between an upsert's read and write |
| PeerTrust.FlagsFollowIffRowsStand | internal/clientcore/store.go:126-146 | with the user between an upsert's read and write, the flags follow the history exactly when each write finds the row it read or brings new keys |
| PeerTrust.VerificationCanBeLost | internal/clientcore/store.go:126-146 | a run in which a verification is lost that way |
| PeerTrust.SnapshotMatches | internal/clientcore/dispatch.go:147-171 | after a snapshot the roster has exactly its ids with their last entries; flags are kept for unchanged keys and reset for changed ones |
| PeerTrust.ClientStore.UpsertPeer | internal/clientcore/store.go:125-148 | the entry replaces the known one; keys changed exactly when either key differs from the known one, which ends a verification and stays recorded |
| PeerTrust.ClientStore.SetPeerVerified | internal/clientcore/store.go:204-213 | sets the flag, clears key_changed, reports absence |
| PeerTrust.ClientStore.HandleSnapshot | internal/clientcore/dispatch.go:147-171 | both loops end in the snapshot's roster, and the peers alerted on are exactly those for which the snapshot carries keys other than those known or than each other |
| PeerTrust.ClientStore.HandleDirUpdate | internal/clientcore/dispatch.go:173-193 | remove or upsert, with an alert exactly on changed keys |
| Release.ChainGivesNewest | cmd/lanmsg-signrelease/main.go:221-235 | after any chain of releases every platform gets the newest entry naming it or the carried one, even from a list with repeats, and seq has grown by one each |
| Release.ChainOnePerPlatform | cmd/lanmsg-signrelease/main.go:307-317 | one entry a platform stays one entry a platform |
| Release.LookupMerged | cmd/lanmsg-signrelease/main.go:309-317 | merging an artifact changes what is found for its own platform only |
| Release.ReplaceOrAppend | cmd/lanmsg-signrelease/main.go:309-317 | the first match is replaced in place, or the artifact appended |
| Release.Sign | cmd/lanmsg-signrelease/main.go:201-235 | an empty spec or a bad file signs nothing; otherwise the merged manifest with the next seq |
| Release.ArtifactFor | internal/update/manifest.go:49-56 | the first entry with this very target, os and arch, or there is none |
| Release.ReplaysNeverRollBack | internal/update/client.go:98-108 | with one attempt after the other, under any replay, accepted seqs strictly increase and each was genuinely signed |
| Release.NewestIsAccepted | internal/update/client.go:98-108 | and a genuine manifest above the start and above all genuine ones before it is accepted |
| Release.AcceptedGrowIffStillNewer | internal/update/client.go:98-108 | with attempts interleaved in any way, accepted seqs strictly increase exactly when every save still finds a smaller seq stored |
| Release.OverlapCanRollBack | cmd/lanmsg-cli/main.go:297-299 | a run of two overlapping attempts that accepts 7 and then 6 |
| Release.Fetcher.FetchManifest | internal/update/client.go:70-109 | with no other attempt in between: accepted exactly when genuine, newer than the stored seq, and the new seq is stored |
| Version.CompareIsTotalPreorder | internal/version/version.go:71-87 | comparing is antisymmetric in its result, equal versions are interchangeable, and newer is transitive |
| Version.Compare | internal/version/version.go:71-82 | the loop computes lexicographic order on the parsed triples |
| Version.PartsOf | internal/version/version.go:89-100 | the loop parses the three fields, 0 for what is missing or not a 64-bit number |
| Version.WrittenReadsBack | internal/version/version.go:89-100 | any triple of 64-bit naturals in decimal parses to itself, and missing parts to 0 |
| Version.SignsAndWidth | internal/version/version.go:89-100 | a sign is read, and a number that does not fit in 64 bits counts as unreadable |
| Version.FurtherDotSpoilsThird | internal/version/version.go:89-100 | a dot in the third field makes it count as 0 |
| Version.NewerIsAhead | internal/version/version.go:71-87 | newer means ahead in the first part that differs |
| Version.BelowEmptyIffNegative | internal/version/version.go:67-82 | exactly the versions leading with a negative number are below the empty one |
| Version.EmptyIsNotSmallest | internal/version/version.go:69-70 | the documented claim fails for "-1" |
| Version.EmptyIsSmallestWithoutMinus | internal/version/version.go:69-82 | it holds for every version without a minus sign |
| SelfUpdate.InstalledIncreaseIff | cmd/lanmsg-cli/update.go:44-80 | over any history of processes and overlapping attempts, against any responses and failures and with released binaries that report their manifest version, a changed binary always reports a strictly newer version exactly when every swap by a process that no longer runs what is installed brings something newer than that, or the same |
| SelfUpdate.InstalledVersionsIncrease | cmd/lanmsg-cli/update.go:44-80 | in particular so when every process that swaps still runs what is installed |
| SelfUpdate.UnfinishedSwapCanDowngrade | cmd/lanmsg-cli/update.go:70-73 | a history in which a process that swapped and could not replace itself installs 2 over 3 |
| SelfUpdate.AttemptOnlyUpgrades | cmd/lanmsg-cli/update.go:49-79 | one attempt leaves the binary alone or installs one newer than its process runs, under a newer manifest |
| SelfUpdate.InstalledIsOffered | cmd/lanmsg-cli/update.go:49-80 | over any history, what is installed is what was at the start or the very build a genuine manifest offered for this target, os and arch |
| SelfUpdate.AttemptComposes | cmd/lanmsg-cli/update.go:44-80 | with no one in between, the moves of one attempt leave the binary and the seq that ApplySelfUpdate promises |
| SelfUpdate.Client.DownloadAndVerify | internal/update/client.go:156-169 | the download is kept exactly when its digest is the manifest's |
| SelfUpdate.Client.ApplySelfUpdate | cmd/lanmsg-cli/update.go:44-80 | the download is installed exactly when the manifest is accepted, its first entry for this platform is newer than the running binary, the digest fits and the swap succeeds |
| Migrations.AlwaysAPrefix | internal/store/store.go:42-89 | over any starts of programs with prefixes of one list and any failures, the recorded names are a prefix that never shrinks, the schema is that prefix applied once in order, and success means the whole list is applied |
| Migrations.FailureIsReported | internal/store/store.go:42-89 | a start stops and reports failure at its first failing step, which leaves nothing unless its commit landed |
| Migrations.WholeListIffDistinct | internal/store/store.go:50-88 | two clean starts apply the whole list exactly when its names differ |
| Migrations.RepeatedNameSkipsStep | internal/store/store.go:68-71 | with a repeated name success is reported although a step never ran |
| Migrations.Database.Migrate | internal/store/store.go:42-89 | the loops and transactions compute the specified database and result |

## Left out

- Eventual delivery: a push to a live connection can be lost (`internal/servercore/handlers.go:109-112`), so none is claimed.
- Order of queued against live messages: a connection is registered before its queue is drained, so they can overtake.
- Delivery of file offers, chunks and receipts: in the delivery machine every inner kind but text is only acknowledged; no client sends receipts, and files have their own model.
- Presence: fan-out, stored status and its convergence; a replaced connection still announces its device as offline.
- Roster convergence with the relay's directory: a snapshot read earlier may be sent after a newer update.
- Timestamps of messages and directory rows; the outbox is ordered by insertion, which is its creation time under a clock that never goes back.
- Sockets, TLS, WebSocket, SOCKS, the multiplexer and HTTP: reliable until closed, with unique stream ids.
- Crypto, JSON, base64 and TOML: ideal or injective; a body that does not decode is an error case where the code has one.
- SQL and disk failures outside migrations, update state and part-file renames.
- `sanitizeName`: file names arrive as a path in the downloads directory.
- Errors of `os.Stat` other than absence, under which the search for a free name need not end.
- Replacement of the backend session by a newer one: each tunnel session is modelled on its own.
- Reconnect backoff, heartbeats, handshake timeouts and the passphrase check.
- Two saves of the stored seq mixing in its temporary file, and a download or a swap mixing with another: each replaces its file at once.
- Overflow of the manifest seq after 2^63 releases, and Go's memory model below single reads and writes of shared fields.
- The GUI, tray, command line, configuration files, logging, and the event channel, which drops by design.
- DeliveryOrder.StatesMoveForward: excludes ids whose direct write failed although the frame left, because for those it can fail; ForwardIffNoLateMark is exact.
- EnrollmentSafety.ReadyMeansActive: one direction only; a stale check need not do harm in every run, and the two witnesses show each condition is needed.
- FileReceiver.PublishedIsWhole: requires the condition on paths, because each half of it has a run in which a file is lost without it.
- SelfUpdate.InstalledVersionsIncrease: requires that released binaries report the version of their manifest entry and that no process swaps that has ceased to run the installed binary; InstalledIncreaseIff has the exact condition.
- Release.ReplaysNeverRollBack: one attempt after the other, because overlapping ones can roll back; AcceptedGrowIffStillNewer is exact.
- RateLimit.AnswersAsFullHistory: requires calls recorded in time order, because for late ones it can fail.
- RateLimit.WindowHolds: requires calls recorded in time order; LateWindowHolds has the bound for late ones.
- Framing.WritersDoNotMix: requires that a failed write closes the stream, because on one left open it can fail.
- BoxAuthenticity.InboundRowsAreAuthentic: does not say which end of the pair sealed the text nor under which id, because both ends share the pair's key and the box carries no id; rosters are fixed in that model.
