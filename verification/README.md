# Verified model of whatsmeow-api

A Dafny 4.11 model of the parts of the WhatsApp daemon where state, order and failure meet, with proofs about
all their runs:

* **The resumable event stream.** `EventLog`, `Broadcast`/`Broadcaster`, `Emitter`, `EventsHandler`, `Cursor` and
  `Sse` model the log, the fan-out, the `/v1/events` handler and the text on the wire as code; `EventSource` is a
  reader of that text which keeps the id lines. `EventStream` is the same system as transitions that interleave
  freely: append and publish as two steps, subscribe, replay a page, receive, disconnect, crash, and clients that
  reconnect; `EventsWire` proves a connection of the handler to be a session of it. `StreamSafety` proves what holds
  with any number of unsynchronised emitters, `StreamGapFree` and `StreamClients` the gap-free delivery theorems, and
  `StreamLimits` and `StreamOrder` exactly where those stop.
* **The service over its store.** `Store` holds the tables with their foreign keys, `ServiceSteps` makes each service
  call one step with arbitrary database faults, and `Service` is the mutable service proved to take those steps.
  `LogFold`, `LogText`, `Unread`, `Tombstones`, `Provenance`, `MediaRows` and `MediaOverlap` prove what holds of whole
  runs: among others which call each stored value and each row of the log comes from. `EndToEnd` joins the log with the
  stream.
* **Login.** `Login` models QR and phone pairing: flows, goroutines, signals and the two fields under the mutex.
* **Storage.** `MediaStore` (content-addressed files across crashes), `Paging` (keyset pagination) and
  `MessageIndex` (the trigger-maintained full-text index).

`dafny verify dfyconfig.toml` checks everything.

Where code and documentation disagree the model follows the code:

* The events design (docs/superpowers/specs/2026-05-07-whatsmeow-api-09-events-sse-design.md:70, 217) says a request
  without a cursor gets only the live tail. The code replays the whole log, because cursor 0 precedes every row.
* Every connection starts with an `id: 0` frame (internal/transport/http/events.go:48-52). Under section 9.2.6 of the
  WHATWG HTML Standard that resets a browser's last event id. The resume theorem is about clients that keep their last
  non-zero id; `StreamLimits.StandardClientResumes` says exactly when the standard's rule resumes correctly too.
* A comment in `SendText` (internal/service/service.go:179) expects an echo to heal a failed insert. The adapter drops
  the echo of own messages (internal/waclient/whatsmeow_adapter.go:190-192), so the row stays missing:
  `ServiceSteps.FirstTextIsNotStored`.
* A QR login does not always end on its own. Once its buffer is full, whatever it has to send next, a further code, an
  outcome of the library or a cancellation, blocks its goroutine and with it every later login until the consumer
  reads again. `Login.EndsUnreadIff` says exactly when a QR login depends on its consumer; a phone login never does
  (`Login.PhoneEndsUnread`).

Assumptions the theorems name: gap-freedom assumes that rows are published in the order they were appended, which
serialised `Emit` calls guarantee (nothing in the code enforces it; `StreamLimits.RacingEmittersLoseARow` is the run
that breaks without it, `StreamOrder.GapFreeIffGivenInOrder` the exact need of each session). The media theorems assume that the bodies at hand do not collide under SHA-256. Log ids are
taken in commit order, as SQLite hands them out.

## Model

| member | source | states |
|---|---|---|
| EventLog.AfterIsSuffix | internal/store/sqlite/events_log.go:27-49 | on a log with rising ids the unlimited query returns exactly the suffix the cursor has not passed |
| EventLog.ResumeContinues | internal/transport/http/events.go:54-73 | asking again from the last id read continues exactly where that read ended |
| EventLog.AfterMonotone | internal/store/sqlite/events_log.go:27-49 | rows already returned for a cursor stay a prefix of the result when the log grows |
| EventLog.EventsLog.Append | internal/store/sqlite/events_log.go:13-25 | a new row with an id above all others, or an error and no change |
| EventLog.EventsLog.SinceSeq | internal/store/sqlite/events_log.go:27-49 | the scan returns the first rows after the cursor, at most the limit |
| Broadcast.RunKeepsInv | internal/transport/sse/broadcaster.go:40-73 | after any calls each subscriber's received and buffered events are one contiguous segment of the publish history, up to now while open; buffers never exceed their size; a channel is open exactly while its id is mapped |
| Broadcast.ClosedStaysClosed | internal/transport/sse/broadcaster.go:51-73 | a closed channel is never sent on, reopened or closed for another reason |
| Broadcast.Isolation | internal/transport/sse/broadcaster.go:62-73 | leaving out other subscribers' receives and unsubscribes changes nothing for one subscriber: a slow reader cannot affect another |
| Broadcaster.Channel.TrySend | internal/transport/sse/broadcaster.go:66-68 | the non-blocking send enqueues exactly when there is room, and needs an open channel |
| Broadcaster.Channel.Receive | internal/transport/http/events.go:90-91 | buffered events come out in order even after close, then closed or would-block |
| Broadcaster.Broadcaster.Subscribe | internal/transport/sse/broadcaster.go:40-48 | a fresh id and empty channel, starting at the present end of the history |
| Broadcaster.Broadcaster.Unsubscribe | internal/transport/sse/broadcaster.go:51-58 | takes the id out of the map and closes its channel, keeping what was buffered and received; every other subscriber is untouched; unknown ids change nothing |
| Broadcaster.Broadcaster.Publish | internal/transport/sse/broadcaster.go:62-73 | each mapped subscriber gets the event or, when full, is closed for overflow and unmapped; others are untouched |
| Broadcaster.Broadcaster.OfferEach | internal/transport/sse/broadcaster.go:65-72 | the loop in any map order, deleting as it goes, offers the event once to each subscriber there at the start |
| Emitter.Emitter.Emit | internal/service/events.go:37-70 | the log gains a row and that same row is published, or the append fails and neither happens |
| StreamSafety.StepSafe | internal/transport/http/events.go:44-104 | every interleaved step, including crashes, keeps: rising ids on the wire, every frame and buffered event a log row, one channel per running session |
| StreamSafety.FramesUnderAnySchedule | internal/transport/http/events.go:65-101 | with unsynchronised emitters, a session writes the synthetic frame, then log rows with strictly rising ids above its cursor and the kind and payload of that id, then at most one error |
| StreamSafety.LaggedMeansOverflow | internal/transport/http/events.go:90-96 | the lagged frame is written only after overflow: a full buffer or more was taken and a later published event was lost to this session |
| StreamSafety.OnlyReceiveWritesLagged | internal/transport/http/events.go:90-96 | no step but the session's own receive can write it, in particular no unsubscribe or crash |
| StreamSafety.NoSubscriptionLeft | internal/transport/http/events.go:44-46 | in every run each id in the broadcaster's map belongs to a session that is still running: however a session ended, its subscription is gone |
| StreamClients.ClientNeverSeesDuplicates | internal/transport/http/events.go:23-28 | under any schedule a client's events over all its sessions are log rows with strictly rising ids |
| StreamGapFree.HeadIsLogRow | internal/transport/sse/broadcaster.go:62-73 | a running session's channel holds exactly the log rows at its position |
| StreamGapFree.ReplayGapFree | internal/transport/http/events.go:54-73 | one replay page extends the prefix written so far, and a short page completes it |
| StreamGapFree.TailGapFree | internal/transport/http/events.go:97-101 | the duplicate filter drops a replayed row and passes the next one, keeping the prefix |
| StreamGapFree.StepGapFree | internal/transport/http/events.go:44-104 | every step but an out-of-order publish keeps all sessions gap-free |
| StreamGapFree.SessionsAreGapFree | internal/transport/http/events.go:44-104 | over every in-order run, what each session wrote is a prefix of the log rows after its cursor, even up to a lagged frame |
| StreamGapFree.CaughtUpIsComplete | internal/transport/http/events.go:83-104 | a live session with an empty open channel and nothing left to publish has written every row after its cursor |
| StreamGapFree.CaughtUpClientIsComplete | internal/transport/http/events.go:23-28 | a client that has taken every frame of such a session holds every row after its first cursor, over all its sessions |
| StreamGapFree.PrefixesChain | internal/transport/http/events.go:108-126 | a prefix read from the last id of a prefix gives a longer prefix |
| StreamGapFree.ClientsAreGapFree | internal/transport/http/events.go:23-28 | across any sessions, disconnects, overflows and crashes, a client resuming from its last non-zero id holds a prefix of the log after its first cursor, each row once |
| StreamLimits.PublishOrderMatters | internal/service/events.go:58-69 | a live session whose open channel has room, given the i-th pending row and reading on, keeps a gap-free prefix if and only if that row is the oldest or the pending row before it is not beyond what the session had written |
| StreamOrder.GapFreeIffGivenInOrder | internal/service/events.go:58-69 | over every run with emitters in any order, a session that runs or ended by its lagged frame has no gap and none coming if and only if each row put into its open channel once it was live had no log row between what the session will have passed and itself; nothing is asked while it replays |
| StreamOrder.ClientsArePrefixes | internal/transport/http/events.go:23-28 | the resume theorem for any publish order under which each session is given its rows so |
| StreamOrder.InOrderFits | internal/service/events.go:58-69 | publishing in append order is such an order |
| StreamLimits.RacingEmittersLoseARow | internal/service/events.go:58-69 | two racing emitters: one row is never delivered on an open, drained, live session |
| StreamLimits.StandardClientResumes | internal/transport/http/events.go:48-52 | a client using the standard's last-event-id rule continues where it stopped if and only if it got nothing, got a row, or no row lies at or below its cursor; otherwise the whole log is replayed |
| StreamLimits.StandardClientStartsOver | internal/transport/http/events.go:48-52 | the input on which it fails: a client that has seen row 1 reconnects, gets only the synthetic frame, and is then sent the whole log |
| EventsHandler.PageShrinks | internal/transport/http/events.go:54-73 | a non-empty page leaves strictly fewer rows to read, so replay of a finite log ends |
| EventsHandler.ReplayTurn | internal/transport/http/events.go:56-73 | one turn writes exactly the new rows, keeps the gathered rows a prefix, and stops only when they are complete |
| EventsHandler.Replay | internal/transport/http/events.go:54-73 | pages read while the log grows concatenate to all rows after the cursor as of the last query; a failed query leaves a prefix; page by page it is the session's replay in the transition system |
| EventsHandler.Wait | internal/transport/http/events.go:83-91 | one select: a disconnect, a heartbeat, or the oldest event of the subscribed channel after what others published, closed, or waiting |
| EventsHandler.LiveTail | internal/transport/http/events.go:83-104 | the loop over the subscribed channel writes the chunks of the session's moves on what the channel gives, and returns exactly when the session finishes; after a disconnect it returns at once and uses no further wake |
| EventsHandler.Turn | internal/transport/http/events.go:84-103 | one turn: a disconnect returns and writes nothing, a heartbeat writes one comment, and a look at the channel does what the session does on what it yields |
| EventsHandler.LiveChunksAreFrames | internal/transport/http/events.go:83-104 | heartbeats aside, the text written is that of the frames the session gains in the transition system |
| EventsWire.TurnIsNext | internal/transport/http/events.go:83-104 | one turn of the live loop takes session and broadcaster where the transition system's own step takes them: a disconnect its leave, a look its receive after the others' publishes, a heartbeat nowhere |
| EventsWire.TurnsAreNext | internal/transport/http/events.go:83-104 | so does every sequence of turns up to the one that finishes the session |
| EventsWire.ConnectionIsASession | internal/transport/http/events.go:44-104 | from any state, what a whole connection writes, comments aside, is the frames of one session of the transition system that opens, replays these pages, has these turns and leaves, and the broadcaster is left as that run leaves it |
| EventsHandler.OutputCarries | internal/transport/http/events.go:41-104 | comments aside, a connection writes the greeting, rows whose ids rise strictly from its cursor, the replayed ones first, and at most one final error |
| EventsWire.ConnectionReadsBack | internal/transport/http/events.go:130-138 | read back with its id lines, a connection gives the greeting under id 0, each row under a text that a reconnect resolves to that row's id, with its kind and payload, and the final error under no id; so the last id read that is not zero is that of the last row, where a reconnect continues |
| EventSource.TaggedRoundTrip | internal/transport/http/events.go:130-138 | reading printed chunks gives each frame's own id, event and data, and nothing for a comment |
| EventsHandler.Handle | internal/transport/http/events.go:26-104 | a bad cursor is refused with nothing changed; otherwise ready comment, greeting, replayed rows and the live output of its own channel in that order: comments aside the greeting, rows with ids rising strictly from the cursor and at most one error; after a disconnect it uses no further wake; on every way out its id is not mapped and its channel is closed |
| EventsHandler.RowsReadBack | internal/client/client.go:211-238 | a client with this parser gets the handler's rows back as their kinds and payloads, in order |
| Cursor.CursorRoundTrip | internal/transport/http/events.go:110-126 | an id as written, sent back as header or `since`, resolves to itself |
| Cursor.ParseIntIff | internal/transport/http/events.go:110-126 | the parser accepts exactly an optional sign and digits whose value, digit by power of ten, fits an int64, and returns that value |
| Cursor.RefusedIff | internal/transport/http/events.go:110-126 | a request is refused if and only if its cursor text, header first, is not such a numeral from zero up; otherwise its cursor is that number |
| Sse.RoundTrip | internal/transport/http/events.go:130-138 | for chunks with newline-free fields, parsing the printed text gives exactly the visible frames before the first overlong line, all of them when none is overlong |
| Sse.SeenUnchanged | internal/client/client.go:219-233 | a frame comes back as its own event and data if and only if neither ends in CR and they are not both empty |
| Sse.CutStream | internal/client/client.go:211-238 | any cut of the text parses to a prefix of the frames |
| Sse.ResponseWriter.WriteFrame | internal/transport/http/events.go:130-138 | the body gains exactly one printed frame |
| Sse.ResponseWriter.WriteComment | internal/transport/http/sse.go:37-45 | the body gains exactly one comment |
| Sse.ScanLine | internal/client/client.go:215-219 | finds the end of the next line, or that it exceeds the scanner's limit |
| Sse.ReadSSE | internal/client/client.go:211-238 | the line loop yields exactly what the character-level parser defines |
| Store.Bundle.ChatPut | internal/store/sqlite/chats.go:18-35 | upsert of the whole chat row, or no change |
| Store.Bundle.MessagePut | internal/store/sqlite/messages.go:17-41 | upsert of every column if the chat exists, otherwise rejected with no change |
| Store.Bundle.MessageSoftDelete | internal/store/sqlite/messages.go:105-111 | sets the mark; succeeds without effect for an unknown id |
| Store.Bundle.ReactionPut | internal/store/sqlite/reactions.go:15-27 | one emoji per message and sender, if the message exists |
| Store.Bundle.ReactionDelete | internal/store/sqlite/reactions.go:29-37 | removes the sender's reaction, if any |
| Store.Bundle.ReceiptPut | internal/store/sqlite/receipts.go:15-26 | upsert by message, reader and type, if the message exists |
| Store.Bundle.MediaPut | internal/store/sqlite/media.go:16-30 | upsert by message, if the message exists |
| ServiceSteps.StepIsSound | internal/service/service.go:268-684 | every call, whatever fails in it, keeps all foreign keys and loses no chat, message, receipt or media row |
| ServiceSteps.RunKeepsReferences | internal/store/migrations/sqlite/0001_init.up.sql:10-57 | no run of calls ever leaves a row without its parent |
| ServiceSteps.ReceiptRowsExactly | internal/service/service.go:639-647 | exactly the listed ids of known messages that were not rejected have the receipt afterwards; no other receipt changes |
| ServiceSteps.FirstTextIsNotStored | internal/service/service.go:169-192 | without faults, a sent text is stored if and only if its chat was known before; the chat row is there either way |
| ServiceSteps.FirstMediaIsNotStored | internal/service/service.go:425-466 | the same for the message and media rows of sent media, while the file is on disk |
| Service.Service.HandleIncoming | internal/service/service.go:268-369 | routes reaction, revoke, edit, normal in that order and takes that step, log and stream included |
| Service.Service.HandleNormal | internal/service/service.go:325-369 | chat row first, then the message; the log gains one `message.received` row only if the message was stored |
| Service.Service.HandleReaction | internal/service/service.go:272-296 | sets or clears one reaction; the log gains one `reaction.received` row only if the store took it |
| Service.Service.HandleRevoke | internal/service/service.go:299-307 | marks the message and logs one `message.deleted` row, unless the update failed |
| Service.Service.HandleEdit | internal/service/service.go:308-323 | rewrites body and edit time of a known message only, keeping any deletion mark; logs one `message.edited` row |
| Service.Service.HandleReceiptEvent | internal/service/service.go:636-651 | logs one `receipt.received` row exactly when some row of it was stored |
| Service.Service.PutReceipts | internal/service/service.go:639-647 | the loop stores every acceptable row past the rejected ones and reports whether there was one |
| Service.Service.DownloadAndPersistMedia | internal/service/service.go:375-396 | writes the file, and its row only after a successful write |
| Service.Service.SendText | internal/service/service.go:153-193 | message row first, chat row last; the reply is the message, with the chat, sender, time, text and reply target of the call, even when nothing was stored |
| Service.Service.SendMedia | internal/service/service.go:400-470 | file, message row, media row only with a file, chat row |
| Service.Service.EditMessage | internal/service/service.go:479-513 | refuses exactly the unknown, the foreign and the deleted messages before anything is sent; the reply is the row with the new text and time |
| Service.Service.DeleteMessage | internal/service/service.go:515-539 | refuses exactly the unknown, the foreign and the deleted messages; otherwise revokes and marks |
| Service.Service.SendReaction | internal/service/service.go:551-586 | sets or clears our own reaction after the network accepted it |
| Service.Service.MarkMessageRead | internal/service/service.go:595-617 | takes one off a positive unread count, never below zero |
| Service.Service.CreateGroup | internal/service/service.go:657-684 | overwrites the group's whole chat row |
| Service.Service.Emit | internal/service/events.go:37-70 | the events log stays the encoded entries, in order; an append that succeeds adds one row |
| Service.Service.OnConnectionState | internal/service/service.go:112-115 | logs one `connection.state` row with this status and reason, unless the append fails |
| Service.Service.PerformAll | internal/service/service.go:99-119 | any sequence of calls and events takes the service, its log and its broadcaster through the run of their steps |
| LogFold.SilentIff | internal/service/service.go:268-684 | a step changes a message row or reaction without logging exactly when the call and the tables before it say so: it logs nothing, gets past its checks, and would write something else than is there |
| LogFold.StepAgreesIff | internal/service/service.go:268-684 | from agreement at a message or reaction, one step keeps fold and tables agreeing there if and only if the call is not such a silent one |
| LogFold.FoldAgreesWhereAnnounced | internal/service/service.go:268-684 | over any run with any faults, the fold of the log agrees with the tables at every row no call silently changes |
| LogFold.SilentCallShows | internal/service/service.go:268-684 | and the first silent call does make them disagree |
| LogFold.ReceivingMends | internal/service/service.go:348-369 | until a message is stored and logged under that id, which restores agreement from any state |
| LogFold.RunAgreesIff | internal/service/service.go:268-684 | over whole runs, fold and tables agree on a message if and only if what the logged calls last told of its presence, origin, text and deletion is what was last stored of each |
| LogFold.LogRebuildsTables | internal/service/service.go:268-369 | inbound runs with arbitrary store rejections and successful appends: the fold equals the message and reaction tables exactly |
| LogFold.OwnCallsLogNothing | internal/service/service.go:375-684 | sends, own edits, deletes, reactions, mark-reads, groups and downloads never reach the log |
| LogFold.PrefixIsPastState | internal/service/service.go:268-369 | every prefix of such a log folds to the tables of an earlier moment of the run |
| LogFold.OwnTextIsMissingFromLog | internal/service/service.go:169-193 | after sending a text, fold and table agree on it if and only if the row was not stored |
| LogText.StepLogs | internal/service/service.go:268-369 | a call adds a row to the log exactly when the call and the tables before it say it is announced, and that row tells of it |
| LogText.RowsTellOfCalls | internal/service/events.go:76-147 | over any run with any faults the log has one row for each announced call, in their order, and no other: named `message.received`, `message.edited`, `message.deleted`, `reaction.received`, `receipt.received` or `connection.state` by what the event was, with that event's own fields |
| LogText.RowsFold | internal/service/events.go:37-70 | a follower that tells rows apart by these names and reads their payload fields does what following their entries does |
| Provenance.MessageProvenance | internal/service/service.go:268-369 | over any run a message row exists if and only if some call stored it; chat, sender, time, kind and reply target are those of the last such call, the text that of the last edit since, with its time, and else that call's, and the deletion the last since |
| Provenance.ListedByTimeGiven | internal/store/sqlite/messages.go:55-79 | on any page of a chat's listing, of two messages the one listed first was stored by a call that gave it no earlier a time |
| Provenance.ChatProvenance | internal/service/service.go:334-346 | over any run a chat row exists if and only if some message or group was written to it; its last-message time is that of the last of these, its name that of the last to start it afresh, a group's or none, and its kind the first given since |
| Provenance.ReactionProvenance | internal/service/service.go:272-296 | over any run a reaction is the emoji and time of the last call that set or cleared it, and absent if that cleared it or there was none |
| Provenance.ReceiptProvenance | internal/service/service.go:636-651 | over any run a receipt is there if and only if some event listed it and was not rejected, with the time of the last |
| Provenance.MediaProvenance | internal/service/service.go:375-396 | over any run a media row is there if and only if some call wrote its file and then the row, with the type, size, digest and path of the bytes of the last |
| Provenance.KindBySuffix | internal/waclient/waclient.go:168-182 | the kind of a chat by its address, for any user part |
| Provenance.KindUnknownIff | internal/waclient/waclient.go:168-182 | and unknown if and only if the address has none of the four endings |
| EndToEnd.FollowerHoldsAPastState | internal/transport/http/events.go:23-104 | if every step of the service is a network event whose log append succeeds and sessions are given their rows in order, a client that folds the rows it received by their names and payload fields from the beginning, across reconnects, overflows and crashes, holds the message and reaction tables as they once were; with publishes in append order, as they are now once caught up |
| EndToEnd.FollowerAgreesWhereAnnounced | internal/transport/http/events.go:23-104 | for any calls and faults, with publishes in append order, a caught-up client agrees with the tables at every row no call silently changed |
| EndToEnd.FollowerOfService | internal/service/events.go:37-70 | the first for the clients of a service object in a valid state, whose own log, with the clock in its payloads, feeds the stream |
| EndToEnd.ServiceRowsTellOfCalls | internal/service/events.go:76-170 | the log of a service object in a valid state has exactly one row for each announced call of its run, with that call's event name and fields |
| Unread.TotalPut | internal/store/sqlite/chats.go:98-104 | how one chat upsert moves the sum over all chats |
| Unread.StepConserves | internal/service/service.go:268-617 | the total moves by exactly one per normal message, minus one per mark-read that found a positive count, minus what a group creation overwrote, minus what faults of the chat table lose: a failed write its change, a failed read the old count; all other calls leave it |
| Unread.UnreadIsConserved | internal/store/sqlite/chats.go:98-104 | over any run with any faults the total equals normal inbound messages less hits less overwritten counts less losses, and without chat faults nothing is lost |
| Unread.ChatUnreadIsConserved | internal/service/service.go:325-346 | the same for each chat: a message counts for its own chat, a mark-read for the chat of the message it names, a fault for the chat it hits |
| Unread.ChatKeepsIdentity | internal/service/service.go:181-191 | a known chat keeps its name, archived flag and kind over any run without failed chat reads and without a group created under its id |
| Unread.UnreadStaysBounded | internal/service/service.go:335-346 | whatever fails, no count is negative and the total never exceeds the normal messages received |
| Unread.CreateGroupKeepsTotalIff | internal/service/service.go:674-681 | creating a group keeps the total if and only if its chat had nothing unread |
| Tombstones.StepClearsIff | internal/service/service.go:298-362 | one step clears a deletion if and only if it stores a new message under the same id |
| Tombstones.DeletionIsPermanent | internal/service/service.go:298-323 | with no new message reusing the id, no run clears the mark |
| Tombstones.DeletedStaysHidden | internal/store/sqlite/messages.go:55-119 | and the message is in no listing page, no search result and no count from then on |
| Tombstones.OwnerIsRefused | internal/service/service.go:490-528 | its owner's edits and deletes are refused and change nothing |
| Tombstones.StepKeepsOrigin | internal/service/service.go:308-317 | a step changes a stored message's text only with its edit time, to those of an edit naming it, and nothing of its origin |
| Tombstones.OriginIsPermanent | internal/store/sqlite/messages.go:17-41 | over any run a message keeps chat, sender, time, kind and reply target unless a new message takes its id |
| MediaStore.FinalNameIsNotTmp | internal/mediastore/mediastore.go:48-106 | no final name looks like a temporary one |
| MediaStore.PathInjective | internal/mediastore/mediastore.go:59-65 | a final name determines the digest in it |
| MediaStore.StepKeeps | internal/mediastore/mediastore.go:31-56 | every step of interleaved writes, failures and crashes keeps final files under their own digests and temporary files prefixes of their bodies |
| MediaStore.FinalFilesAreComplete | internal/mediastore/mediastore.go:48-55 | after any such run, a file under a final name has that name's digest: never a partial write |
| MediaStore.ShortcutHoldsBody | internal/mediastore/mediastore.go:38-40 | the equal-size shortcut takes a file with the body's digest and length: the body itself unless those two collide |
| MediaStore.FinalFilesStay | internal/mediastore/mediastore.go:52-55 | no step removes a final file or puts another digest in its place |
| MediaStore.WriteIsARun | internal/mediastore/mediastore.go:31-56 | an undisturbed successful write is a run of the interleaved system |
| MediaStore.FailedWriteIsARun | internal/mediastore/mediastore.go:42-54 | so is one that fails at its directory, its temporary file or its rename |
| MediaStore.ExtensionIsSubtype | internal/mediastore/mediastore.go:67-106 | an extension other than .bin is the subtype, but for six spellings |
| MediaStore.AliasExtensions | internal/mediastore/mediastore.go:67-106 | the extensions of those six |
| MediaStore.UnknownIff | internal/mediastore/mediastore.go:67-106 | which types get .bin: all but those six and twelve others |
| MediaStore.MediaStore.Write | internal/mediastore/mediastore.go:31-56 | exactly which failures report an error, what each leaves on disk, and that success returns a path holding the body's digest and length |
| MediaRows.WriteKeepsFiles | internal/mediastore/mediastore.go:31-56 | without collisions a write changes no finished file |
| MediaRows.StepKeepsRows | internal/service/service.go:375-454 | sends, downloads, failed writes and crashes keep every media row pointing at its file |
| MediaRows.MediaRowsPointAtFiles | internal/service/service.go:375-454 | after any run each media row's file exists, complete, with the row's digest and size |
| MediaOverlap.StepKeeps | internal/mediastore/mediastore.go:31-56 | the same with every file-system call and every row insertion a step of its own, writes of different bodies overlapping |
| MediaOverlap.RowsPointAtFiles | internal/service/service.go:375-454 | in every such interleaving, with crashes, and rows inserted any time after their own write, each media row's file exists, complete, with the row's digest and size |
| Login.StepKeepsInv | internal/waclient/whatsmeow_adapter.go:364-490 | every interleaved step of logins, goroutines and signals keeps the one-owner, current-channel and one-signal invariants |
| Login.ExactlyOneOwner | internal/waclient/whatsmeow_adapter.go:364-490 | the in-progress flag holds if and only if a flow owns the login, and never two do |
| Login.AtMostOneSignal | internal/waclient/whatsmeow_adapter.go:173-184 | the pairing channel is nil or the owning phone flow's; no channel gets a second outcome, so the drop branch is never taken |
| Login.SignalsGoToCurrentFlow | internal/waclient/whatsmeow_adapter.go:173-184 | an outcome is recorded only for the flow that is current when it is signalled |
| Login.PhoneStreamShape | internal/waclient/whatsmeow_adapter.go:470-489 | a closed phone stream is one code and one terminal event, whose outcome is its own timeout, cancellation or signal |
| Login.PhoneNeverBlocks | internal/waclient/whatsmeow_adapter.go:470-489 | a phone flow's pending send always has room, whatever the consumer does |
| Login.QRTerminalIsLast | internal/waclient/whatsmeow_adapter.go:395-423 | a QR stream has at most one terminal event and nothing after it |
| Login.EventsHaveCauses | internal/waclient/whatsmeow_adapter.go:395-489 | in every interleaving each code and outcome a login sends has its cause in the run: the library's code, the pair code returned, the library's outcome by name, a pairing signal, a cancellation asked for, or a timeout |
| Login.LibraryEventIsSent | internal/waclient/whatsmeow_adapter.go:400-421 | with room in its stream a QR login passes on what the library says: the code, success, timeout, or err- and the name of anything else |
| Login.ReadInOrder | internal/waclient/whatsmeow_adapter.go:395-489 | what a consumer has left unread is the end of what was sent, in order |
| Login.OnlyConsumerFrees | internal/waclient/whatsmeow_adapter.go:402-421 | a QR flow with a code or a terminal event to send and a full buffer is freed by its consumer's read and by nothing else |
| Login.EndsUnreadIff | internal/waclient/whatsmeow_adapter.go:395-423 | the flow that owns a QR login can still end without another read if and only if it does not have something to send into a full buffer |
| Login.StuckForever | internal/waclient/whatsmeow_adapter.go:395-423 | so from there, without its consumer, the login stays in progress and no flow ever starts again |
| Login.StuckIsReachable | internal/waclient/whatsmeow_adapter.go:402-421 | four unread codes and then a fifth, a cancellation during it, or any outcome reach such a state |
| Login.PhoneEndsUnread | internal/waclient/whatsmeow_adapter.go:470-489 | a phone login can end from anywhere without its consumer reading |
| Login.Adapter.TryBegin | internal/waclient/whatsmeow_adapter.go:440-448 | the critical section admits a login only when none is in progress, installing a channel for a phone login |
| Login.Adapter.End | internal/waclient/whatsmeow_adapter.go:473-478 | the reset frees the login, and a phone flow also removes its channel |
| Login.Adapter.Take | internal/waclient/whatsmeow_adapter.go:173-177 | taking the channel leaves nil behind |
| Paging.Select | internal/store/sqlite/messages.go:55-79 | the query's page: eligible rows, newest first, no repeats, nothing newer left out, equal times by id |
| Paging.ListByChat | internal/store/sqlite/messages.go:55-79 | the messages of the chat that are not deleted and older than the cursor, newest first, as many as asked for, none newer left out |
| Paging.ListChats | internal/store/sqlite/chats.go:49-80 | such a page over the chats, unarchived only unless asked, older than the cursor, undated ones last, equal times by id |
| Paging.WalkIsOrdered | internal/store/sqlite/messages.go:58-62 | pages that follow the cursor concatenate to an ordered list without repeats |
| Paging.WalkReturnsIff | internal/store/sqlite/messages.go:58-62 | a finished walk returns a dated row if and only if no page boundary cut it off from rows of its own timestamp |
| Paging.WalkCompleteIff | internal/store/sqlite/messages.go:55-79 | from the rows alone: a finished walk returns every dated row if and only if no multiple of the page size falls strictly inside a group of equal timestamps |
| Paging.LiveWalkIsWalk | internal/store/sqlite/messages.go:58-62 | messages that arrive between the pages leave the walk what it would be on the rows of its first page, so long as rows older than the cursor stay |
| Paging.LiveWalkCompleteIff | internal/store/sqlite/messages.go:58-62 | so the same condition decides whether it returns every dated row that was there at its start |
| Paging.TieLosesARow | internal/store/sqlite/messages.go:58-62 | two messages of one second read one at a time: the second is never returned |
| Paging.WalkIsFullListing | internal/store/sqlite/messages.go:55-79 | with distinct timestamps the walk is the full listing |
| Paging.UndatedOnlyOnFirstPage | internal/store/sqlite/chats.go:56-64 | a chat without a last message appears on the first page or never |
| Paging.WalkEnds | internal/store/sqlite/messages.go:58-62 | a walk has at most one page more than there are rows |
| MessageIndex.UpdateIndexed | internal/store/migrations/sqlite/0001_init.up.sql:39-42 | the update trigger's delete-then-insert keeps the index exact |
| MessageIndex.InsertIndexed | internal/store/migrations/sqlite/0001_init.up.sql:31-33 | so does the insert trigger |
| MessageIndex.IndexStaysExact | internal/store/migrations/sqlite/0001_init.up.sql:25-42 | over any run of inserts, upserts and soft deletes the index holds exactly the tokens of each row's current body, with multiplicity |
| MessageIndex.LookupIsMatch | internal/store/sqlite/messages.go:81-88 | a boolean query looked up in the index selects exactly the rows whose body matches |
| MessageIndex.JoinIsScan | internal/store/sqlite/messages.go:81-88 | index and join return what a filter scan over live rows would |
| MessageIndex.MessageStore.Put | internal/store/sqlite/messages.go:17-41 | the message map gains or replaces the row and the index stays exact |
| MessageIndex.MessageStore.SoftDelete | internal/store/sqlite/messages.go:105-111 | only the mark changes; unknown ids change nothing; the index stays exact |
| MessageIndex.MessageStore.Search | internal/store/sqlite/messages.go:81-103 | a newest-first page of the live messages whose current body matches |
| MessageIndex.MessageStore.Count | internal/store/sqlite/messages.go:113-119 | the number of live messages |

## Left out

- MediaRows.MediaRowsPointAtFiles: a file and its row are written in one step here; `MediaOverlap` takes them apart. Concurrent writes of the same body, for which the code gives no guarantee, take turns in both.
- StreamGapFree.ClientsAreGapFree: asks for publishes in append order of the whole run; `StreamOrder` has the exact condition for each session.
- EventsHandler.Handle: other goroutines act between its statements only as inputs, the log each query sees and the events published before each receive; free interleaving is in EventStream. The response headers and the 500 reply for a writer that cannot flush are not modelled.
- MessageIndex.MessageStore.Search: phrase, prefix and column queries and relevance are not modelled, only terms with AND, OR and NOT; the tokenizer is a parameter.
- Paging.ListByChat: the order of equal timestamps is left open, as its SQL leaves it.
- EventLog.EventsLog.Append: ids wider than int64 and rows committed out of id order, which Postgres sequences allow, are not modelled.
- Broadcaster.Broadcaster.Subscribe: the wrap-around of the uint64 subscriber counter is not modelled.
- MediaStore.MediaStore.Write: loss of power between rename and disk, and the cleaning of paths by filepath.Join, are not modelled.
- Service.Service.HandleIncoming: contacts and push names are not modelled; the download goroutine is the separate call DownloadAndPersistMedia, at any later time.
- Service calls are atomic steps: another call between the read and the write of one call is not modelled.
- Input validation (lengths, blank ids, phone numbers, limits) and HTTP error mapping: settled by reading.
- JSON: payloads are opaque text whose fields a reader can get back; times in it are whole seconds; the chat of a receipt and all but the status of connection.state are dropped.
- Heartbeat timing, and time in general: timers are steps that may happen at any point.
- Postgres stores, migrations, the key-value store, contacts, full-text ranking, `prefixCols`, `SetArchived`.
- The CLI, the MCP tools, configuration, the other HTTP handlers and the network sends of the adapter.
- The client's own LoginQR and LoginPhone loops over parsed frames.
