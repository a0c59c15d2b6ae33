# Hooks relay: a verified model

A Dafny model of the webhook relay and proofs about it. The relay stores signed webhooks in an append-only log per
source and hands them on three ways: over server-sent events, to the `hooksctl forward` client, and by push to a
registered URL. Every consumer reads the log through a cursor. Around that sit a token-bucket rate limiter, device
pairing, invites and accounts, cookie sessions, and bearer tokens with an idle sweep.

Run `dafny verify dfyconfig.toml`.

## How it is built

| file | what it models |
|---|---|
| `EventLog.dfy` | the events table, append, read, prune, and runs of them |
| `Notifier.dfy` | the one-slot wake-up channels |
| `Subscribe.dfy` | the SSE drain loops and one connection from subscribe to disconnect |
| `Stream.dfy` | all interleavings of connections, appends, publishes and prunes |
| `Sse.dfy`, `Decimal.dfy` | the bytes of the stream, and numerals |
| `Forward.dfy`, `EndToEnd.dfy` | the forward client, and client and server together |
| `PushLoss.dfy`, `ClientLoss.dfy` | exactly when a prune can lose a push delivery, or an event of the client |
| `Push.dfy`, `PushOrder.dfy` | push delivery as a protocol, and when its deliveries stay in order |
| `Dispatcher.dfy` | the worker and manager that follow it |
| `Ingest.dfy`, `Prune.dfy` | the webhook endpoint, and the periodic pass |
| `RateLimit.dfy` | the limiter and its middleware |
| `Pairing.dfy`, `PairingRuns.dfy` | device pairing, and every interleaving of its requests |
| `Accounts.dfy`, `AccountRuns.dfy` | users, what they own and invites, and every run of their transactions |
| `Sessions.dfy`, `TokenUse.dfy` | sliding sessions, and the debounced token stamp |

Code that changes state is a class whose methods are proved against specification functions on values. Concurrency is
a machine over steps: each SQL statement or transaction, channel operation, HTTP request or write is one step, and the
theorems quantify over every sequence of steps. `Dispatcher.PassRefinesProtocol`, `Stream.DrainRefines`,
`EndToEnd.StreamIsHandles`, `Ingest.ServeIsIngestStep`, `PairingRuns.PollIsTwoSteps` and
`PairingRuns.ApproveIsTwoSteps` tie the methods to those steps, as do `Stream.ConnectionRefines`,
`Sessions.LookupIsSteps` and `TokenUse.ResolveIsSteps`.

Clocks, fresh ids, secrets, hashes and the outcomes of I/O are parameters. Times are integers in nanoseconds, except in
the limiter, where they are real seconds.

## What the theorems assume

- Delivery results about whole runs in `Stream`, `EndToEnd`, `Push` and `PushOrder` assume that no prune removes the
  newest row of a source (`Guarded`). The code does not enforce this: a retention pass may remove it, and then numbering
  restarts. `Prune.SparesNewestIff` says when a pass meets the guard, `EventLog.GaplessIff` exactly when numbering
  survives, and `PushLoss` and `ClientLoss` do without it.
- A frame with a line of 1 MiB or more ends the client's stream (`Sse.WireDelivers`): nothing is lost, but the client
  does not get past it.
- Delivery claims cover only events above a consumer's starting cursor, which a client may choose freely.
- Transactions are serial, as the store's single connection makes them (internal/store/sqlite.go:56).
- Device and user codes are never drawn twice (`PairingRuns.Fresh`).
- The limiter, the session runs and the token runs assume a clock that does not run backwards. The log does not.

## Where the code and its documents differ

- The project's design documents promise gapless numbering per source. The code numbers from the largest surviving row:
  `EventLog.RestartedNumbering` gives a run that breaks the promise, `EventLog.GaplessIff` the exact condition.
- They promise that no event is lost. A prune that takes the newest row can break that, since the next event gets a
  number some consumer has already passed: `Push.LostWithoutGuard` and `ClientLoss.LostWithoutGuard` are inputs. The
  exact conditions, which can be read off before the prune, are `PushLoss.PruneLosesIff` and
  `ClientLoss.PruneLosesIff`: it must leave a position in use past every surviving number and past the starting cursor.
  Runs without such a prune lose nothing, and only those (`PushLoss.LosesNothingIff`, `ClientLoss.LosesNothingIff`).
- They also promise strictly ascending delivery with no two deliveries in parallel. A pause deregisters a worker
  before it cancels it, so a resume in between can start a second one beside it, and then neither holds:
  `PushOrder.PauseThenResumeCanRegress` is the run. `PushOrder.InOrderIffAlone` is the exact condition: order survives a
  start if and only if no live, uncancelled worker stands beside the new one. A cancelled worker's statements and
  requests fail, so it does no harm. `Push.NoLoss` says that no event is lost either way. Even a lone worker repeats an
  event it could not commit, so ascending means never going back.
- A worker that sees the pause stamp returns but stays registered, so resuming does not always start one:
  `Dispatcher.Manager.Resume` states exactly when a live worker results, and `Dispatcher.CascadeThenResume` is an input:
  deactivating a user pauses the row in SQL without telling the manager, and resuming it then leaves it without a worker.
- Stamps are written after the caller is let in, so a sweep can come in between and revoke a token in use
  (`TokenUse.SweptInFlight`) or end a session just extended (`Sessions.SweptInFlight`). `TokenUse.InUseIsSpared` and
  `Sessions.SweepShowsIff` are the exact conditions.
- The Retry-After header can be shorter than the wait it stands for: `RateLimit.HeaderFallsShort` is such a call,
  `RateLimit.HeaderCoversWait` the exact condition.

## Model

| member | source | states |
|---|---|---|
| `EventLog.EventStore.constructor` | internal/store/sqlite.go:47-81 | a store starts empty and a zero dedupe window means 24 hours |
| `EventLog.EventStore.Append` | internal/store/sqlite.go:153-223 | an empty source or delivery id, and a delivery id whose newest row was received no longer than the window ago, are refused with the tables untouched; otherwise a read from the previous maximum finds exactly one new row, with the input's source, delivery id, provider time, headers and body, received now, numbered one past that maximum; other sources are untouched and every table stays ordered and spaced |
| `EventLog.EventStore.ReadSince` | internal/store/sqlite.go:225-246 | exactly the lowest-numbered rows past the cursor, ascending, at most the limit (1000 when not positive), and all of them when fewer than the limit come back |
| `EventLog.EventStore.LatestSequence` | internal/store/sqlite.go:259-261 | where a reader has nothing to catch up on: it is 0 without rows and else one of the stored sequences, a read from it finds nothing, and a read from any smaller cursor finds something |
| `EventLog.EventStore.Prune` | internal/store/sqlite.go:263-268 | deletes exactly the rows of one source received before the cutoff, keeps every other row, and reports how many |
| `EventLog.AppendMeans` | internal/store/sqlite.go:153-223 | the same of the append on values: when it refuses, and that what a read then finds past the old maximum is what was handed in |
| `EventLog.RetainedMembers` | internal/store/sqlcgen/events.sql.go:151-153 | the retention statement keeps a row if and only if it was received at or after the cutoff |
| `EventLog.AboveFacts` | internal/store/sqlcgen/events.sql.go:168-175 | the read selects a row if and only if its sequence is past the cursor, already in sequence order |
| `EventLog.AboveDrop` | internal/store/sqlcgen/events.sql.go:168-175 | reading past the k-th selected row gives what is left after it: batches tile the selection |
| `EventLog.BatchFacts` | internal/store/sqlcgen/events.sql.go:168-175 | a batch leaves out no stored row up to its last one, and is empty only when nothing lies past the cursor |
| `EventLog.BatchFirst` | internal/push/worker.go:73-96 | the head of a batch is the first stored row past the cursor |
| `EventLog.AppendKeepsInvariants` | internal/store/sqlite.go:153-223 | an append keeps sequences increasing and duplicate deliveries further apart than the window, and an accepted one raises the maximum by exactly one |
| `EventLog.LogInvariant` | internal/store/sqlite.go:153-223 | over every run of appends and prunes, with any clock: sequences strictly increase, and of two stored rows with one delivery id the later committed one was received more than the window later |
| `EventLog.GaplessIff` | internal/store/sqlcgen/events.sql.go:128-130 | numbering is 1, 2, 3, ... over a whole run if and only if every accepted append still finds the row committed just before it |
| `EventLog.GuardedPruneGapless` | internal/store/sqlcgen/events.sql.go:128-130 | when every prune spares the newest row, numbering is gapless and the largest stored sequence is the number of events ever appended |
| `EventLog.RestartedNumbering` | internal/store/sqlcgen/events.sql.go:128-153 | without that guard gapless numbering, which the project documents, fails: a concrete run gives two different events sequence 1 |
| `Pubsub.Notifier.Subscribe` | internal/pubsub/notifier.go:29-38 | a new, open, empty channel is added to one source and nothing else changes |
| `Pubsub.Notifier.Unsubscribe` | internal/pubsub/notifier.go:41-56 | removes and closes exactly that channel; an unknown one changes nothing |
| `Pubsub.Notifier.Publish` | internal/pubsub/notifier.go:67-77 | afterwards every subscriber of the source has a signal waiting, kept if one was waiting already, and no closed channel is ever sent to |
| `Pubsub.Sent` | internal/pubsub/notifier.go:67-77 | a non-blocking send leaves the slot full and never replaces a waiting signal |
| `Subscribe.EmitBatch` | internal/subscribe/handler.go:245-256 | moves the cursor over every row of a batch, writes the kept ones, and stops at a failed write |
| `Subscribe.ReadBatchAndEmit` | internal/subscribe/handler.go:236-260 | terminates; when it ends caught up, the wire has gained exactly the kept rows above the starting cursor of the table as of the last read, commits in between included; a failed read or write leaves the cursor at the last row consumed |
| `Subscribe.InitialDrain` | internal/subscribe/handler.go:196-222 | consumes an initial stretch of the rows past the cursor, all of them when it ends caught up, and then a row is on the wire if and only if its provider time is under one second or no older than the skew; after a failed read everything consumed was written or stale, after a failed write everything but the last; the cursor is the last row consumed |
| `Subscribe.LiveDrain` | internal/subscribe/handler.go:229-231 | the same with every row written, none skipped |
| `Subscribe.StreamEvents` | internal/subscribe/handler.go:141-189 | over any script of signals, ticks and endings, a connection consumes an initial stretch of the rows past its cursor, all of them unless a drain failed, and what it writes is the initial drain's rows less the stale ones, then every later row once in order, less the last one consumed when its write failed; its channel is always unsubscribed |
| `Subscribe.Continue` | internal/subscribe/handler.go:141-189 | draining again from where the last drain stopped equals one drain from where the connection stood |
| `Subscribe.GrowSelection` | internal/subscribe/handler.go:236-260 | rows consumed and rows still to read make up the whole selection, whatever commits in between |
| `Subscribe.EmittedFacts` | internal/subscribe/handler.go:236-260 | what a drain emits is exactly the kept rows, in increasing sequence |
| `Subscribe.ParseCursor` | internal/subscribe/handler.go:307-339 | the larger of `since` (a number, or the latest sequence) and Last-Event-ID; refused exactly when `since` is malformed or negative or the header does not parse |
| `Stream.NoLostWakeup` | internal/subscribe/handler.go:141-189 | in every interleaving of appends, detached publishes, reads, writes, receives and ticks, a connection in its select with an empty channel has the publish of every stored row past its cursor still to come |
| `Stream.AllWokenStep` | internal/pubsub/notifier.go:67-77 | each single step keeps that, for every connection at once |
| `Stream.SignalWakes` | internal/pubsub/notifier.go:67-77 | a publish gives every open connection a signal, and one in its select wakes and has its slot free again |
| `Stream.ReachableOk` | internal/subscribe/handler.go:141-260 | invariant of every run whose prunes spare the newest row: written and skipped are increasing, disjoint, between start and cursor, and leave out no stored row |
| `Stream.ExactlyOnce` | internal/subscribe/handler.go:141-231 | an event past a connection's start and at or below its cursor that is still stored, or that it read before a prune took it, was written exactly once or passed over exactly once, never both; what was passed over has a provider time of at least a second and before the connection's cutoff |
| `Stream.CaughtUpWhenQuiet` | internal/subscribe/handler.go:141-189 | with no publish pending, an idle connection has written or passed over every stored event above its start |
| `Stream.NothingTakenBack` | internal/subscribe/handler.go:191-231 | over any continuation of a run what was written stays written, and once its initial drain is over a connection passes nothing over again |
| `Stream.DrainRefines` | internal/subscribe/handler.go:236-260 | whatever is appended meanwhile, however much a drain of module Subscribe consumed and whether it caught up or a read or a write failed, a run of the machine's appends, reads and emits with the same limit leaves the log and the connection as the drain does, closed after a failure |
| `Stream.DrainedWrites` | internal/subscribe/handler.go:236-260 | what such a drain leaves written: the kept rows of what it consumed in its initial drain, all of them later, without an event whose write failed |
| `Stream.ConnectionRefines` | internal/subscribe/handler.go:141-189 | every outcome of a whole connection, with any appends before the last reads of its initial drain and of its life, is a run of the machine that touches no other connection and closes this one with exactly that written |
| `Ingest.CaptureHeaders` | internal/ingest/handler.go:126-130 | every header name and no other, its values in order with a comma and a space between two of them |
| `Ingest.JoinedMeans` | internal/ingest/handler.go:126-130 | one value stands for itself, and values joined in pieces are joined as a whole |
| `Ingest.Handler.ServeSource` | internal/ingest/handler.go:85-154 | which of 404, 413, 400, 401 and 503 is answered and when, each changing nothing; 202 means exactly one new row, with the verifier's delivery id and time and the request's headers and body, and exactly one publish of its number left running; 200 means a stored duplicate inside the window |
| `Ingest.ServeIsIngestStep` | internal/ingest/handler.go:132-153 | a request that is answered 202 is exactly the ingest step of the stream model, any other no step |
| `Sse.WireDelivers` | cmd/hooksctl/forward.go:380-415 | for any frames and keepalives the parser hands over the frames in order, up to the first one with a line that does not fit its buffer |
| `Sse.WireRoundTrip` | internal/subscribe/handler.go:270-293 | every frame arrives field for field if and only if each line fits the buffer and no value starts with a space |
| `Sse.LineMeans` | cmd/hooksctl/forward.go:380-415 | what one more line does to the reader: a mebibyte ends the stream, a blank line hands over a message whose id is a number, a comment and a line without a colon do nothing, any other sets a field less one leading space |
| `Sse.KeepaliveStep` | internal/subscribe/handler.go:178-181 | a keepalive between frames hands over nothing and leaves the parser clean |
| `Sse.BrokenConnectionSafe` | cmd/hooksctl/forward.go:380-415 | cut at any byte, a stream hands over only whole frames, a prefix of those sent |
| `Sse.BrokenConnectionComplete` | cmd/hooksctl/forward.go:380-415 | and every deliverable frame whose bytes all arrived |
| `Decimal.ParseRoundTrip` | internal/subscribe/handler.go:283 | a 64-bit sequence survives being printed and parsed |
| `Decimal.ParseMeans` | internal/subscribe/handler.go:325-335 | digits, signed or not, that come to a 64-bit number parse as it; digits out of that range give the nearest number in it, with an error |
| `Decimal.NoNumeral` | internal/subscribe/handler.go:325-335 | and whatever is not digits after an optional sign gives 0 with an error |
| `Decimal.TrimMeans` | cmd/hooksctl/forward.go:538 | trimming takes blanks off both ends, and all of them |
| `Decimal.TornLine` | cmd/hooksctl/forward.go:534-549 | a cursor line cut at any byte reads back as no more than the cursor, and as the cursor itself when only the newline is missing and it fits 64 bits |
| `Forward.ForwardOne` | cmd/hooksctl/forward.go:424-472 | the same request, with its captured headers less the hop-by-hop ones, is repeated until a status from 200 to 299 or an interruption, once only with exit-on-error, never when it cannot be built; done if and only if its last answer is a status from 200 to 299; a malformed message is skipped without a request |
| `Forward.BuildRequest` | cmd/hooksctl/forward.go:431-445 | every captured header is copied unless its name, in any case, is a hop-by-hop one; id, event and delivery id go out as they came |
| `Forward.OutboundMeans` | cmd/hooksctl/forward.go:431-445 | of the captured headers exactly the ten hop-by-hop ones, whatever the case of their letters, are dropped; id, event, delivery id and body go out as they came |
| `Forward.Client.constructor` | cmd/hooksctl/forward.go:534-541 | a client starts at the number in its file, 0 when there is none |
| `Forward.Client.StreamFromCursor` | cmd/hooksctl/forward.go:363-416 | hands the stream's messages on in order up to the first failure; the cursor is the id of the last acknowledged one and the file follows it except where a write failed |
| `Forward.FileMeans` | cmd/hooksctl/forward.go:401-411 | the cursor file holds the number of the last message whose save went through, or what it held before |
| `Forward.ScanLine` | cmd/hooksctl/forward.go:380-415 | one line hands over at most one message, and an over-long line ends the stream |
| `Forward.HandledIsSent` | cmd/hooksctl/forward.go:363-416 | however the connection breaks, the n-th message handled is the n-th frame sent, and the cursor it sets is that frame's sequence |
| `EndToEnd.SaveNeverAhead` | cmd/hooksctl/forward.go:543-549 | whatever becomes of a write of the cursor file, what it reads back as is at most the cursor |
| `EndToEnd.ClientMeans` | cmd/hooksctl/forward.go:133-153 | when a dial opens a connection and from where, where the cursor stands after each outcome of a message, that a failed target drops the connection, and that a restart takes the cursor from the file |
| `EndToEnd.ReachableOk` | cmd/hooksctl/forward.go:133-153 | invariant of server and client together over every run of drops, redials, restarts and failed or torn saves; an event is settled only by the target, by being malformed, or by a connection this client dialed |
| `EndToEnd.NeverLost` | cmd/hooksctl/forward.go:363-472 | every stored event between the initial cursor and the client's was accepted 2xx, was malformed, or was passed over by a connection this client dialed, and then has a provider time of at least a second and before that connection's cutoff; the saved cursor is never ahead |
| `EndToEnd.NothingOwedWhenQuiet` | README.md:5 | when server and client are idle no stored event above the initial cursor is still owed |
| `ClientLoss.PruneLosesIff` | internal/store/sqlcgen/events.sql.go:128-153 | the exact condition for the client: after a run of harmless prunes, one more has a continuation without prunes in which a stored event between the initial cursor and the client's is not settled, if and only if it leaves the client's reach past every surviving number and the initial cursor; its reach is its cursor, or how far its connection has read or written for it |
| `ClientLoss.NeverLoses` | cmd/hooksctl/forward.go:363-472 | no loss on the client's side in any run of drops, redials, restarts and torn saves whose prunes are harmless |
| `ClientLoss.LosesNothingIff` | cmd/hooksctl/forward.go:363-472 | whenever the prunes of a run stop the client loses nothing from then on, if and only if each of them was harmless |
| `ClientLoss.GuardedIsHarmless` | internal/prune/prune.go:76-95 | sparing the newest row is harmless here too |
| `ClientLoss.LostWithoutGuard` | internal/store/sqlcgen/events.sql.go:128-153 | an input that loses one: a client handles an event, a prune removes it, and a later one at its number never reaches the target |
| `EndToEnd.StreamIsHandles` | cmd/hooksctl/forward.go:363-416 | reading one connection's bytes, cut off anywhere, is a run of the machine's handle steps, one for each message acknowledged, and leaves the cursor and the file they leave |
| `Push.NoLostWakeup` | internal/push/worker.go:73-93 | a worker idling on an empty channel has no stored event past its cursor whose publish has already run |
| `Push.ReachableOk` | internal/push/worker.go:30-155 | invariant over any number of overlapping workers, crashes, pauses and rotations: each loaded, idle or persisted cursor has nothing stored below it that was not answered 2xx |
| `Push.NoLoss` | internal/push/worker.go:117-155 | every event between the starting and the persisted cursor was answered 2xx or has been pruned |
| `Push.CaughtUpWhenQuiet` | internal/push/worker.go:73-93 | with no publish pending, a worker idling on an empty channel has had every stored event past the starting cursor answered 2xx |
| `Push.PostedInOrder` | internal/push/worker.go:96-112 | in every run, overlaps included, nothing is sent past a stored event that has not been answered 2xx |
| `Push.SignalWakes` | internal/pubsub/notifier.go:67-77 | a publish gives every worker that has not returned a signal, and one that idles starts another pass |
| `Push.CursorMovesOnlyOnSuccess` | internal/store/sqlcgen/push.sql.go:373-381 | only a commit moves the cursor, to a sequence answered 2xx and past the one its worker loaded |
| `Push.LostWithoutGuard` | internal/store/sqlcgen/events.sql.go:128-153 | without that guard delivery can fail: in a concrete run a prune restarts the numbering and a stored event at or below the cursor was never sent and no later read returns it |
| `PushLoss.PruneLosesIff` | internal/store/sqlcgen/events.sql.go:128-153 | the exact condition: after a run of harmless prunes, one more has a continuation without prunes in which a stored event between the starting and the persisted cursor was never answered 2xx, if and only if it leaves the row's cursor, or a position an uncancelled worker can still commit, past every surviving number and the starting cursor |
| `PushLoss.NeverLoses` | internal/push/worker.go:117-155 | no loss in any run whose prunes are harmless, newest row spared or not |
| `PushLoss.LosesNothingIff` | internal/push/worker.go:117-155 | whenever the prunes of a run stop nothing is lost from then on, if and only if each of them was harmless |
| `PushLoss.GuardedIsHarmless` | internal/prune/prune.go:76-95 | sparing the newest row is harmless, so this condition is the weaker one |
| `PushOrder.DeliveriesAscend` | internal/push/dispatcher.go:244-263 | as long as no worker starts beside a live one, deliveries are sent in ascending order and at most one uncancelled delivery is in flight |
| `PushOrder.CursorGrows` | internal/push/worker.go:117-155 | and no step takes the persisted cursor back |
| `PushOrder.InOrderIffAlone` | internal/push/dispatcher.go:244-263 | after any run: starting a worker keeps the deliveries that follow ascending, one in flight at a time and the cursor from going back, whatever follows short of another start, if and only if no live, uncancelled worker stands beside it; each of the three separately |
| `PushOrder.BesideLiveRegresses` | internal/push/worker.go:44-112 | from any state in which a worker starts beside a live one, whatever they were doing, a run of the two sends events out of order and takes the cursor back |
| `PushOrder.BesideLiveOverlaps` | internal/push/worker.go:44-112 | and another run has both with a request at the target |
| `PushOrder.PauseThenResumeCanRegress` | internal/push/dispatcher.go:146-165 | the code gets there: a pause deregisters, a resume starts a second worker, and before the pause cancels the first one deliveries can overlap, and they and the cursor can go back |
| `PushOrder.CancelledFirstIsSafe` | internal/push/dispatcher.go:146-165 | a pause that cancels before the next start keeps the order |
| `Dispatcher.SubStore.UpdateCursorAndSuccess` | internal/store/sqlite.go:607-621 | stores the cursor, sets the failure count to zero, clears the error and stamps success in that row; no other row changes |
| `Dispatcher.SubStore.RecordFailure` | internal/store/sqlite.go:623-639 | adds one failure with its error, cut to 1024 bytes, and its stamp, and leaves the cursor; no other row changes |
| `Dispatcher.SubStore.Pause` | internal/store/sqlite.go:641-653 | pausing a paused row is reported as not found and keeps the first stamp |
| `Dispatcher.SubStore.Resume` | internal/store/sqlite.go:655-664 | clears the pause stamp and nothing else |
| `Dispatcher.Worker.Deliver` | internal/push/worker.go:117-155 | true if and only if the answer is a status from 200 to 299 and the write goes through; then the stored cursor is the event's sequence; a refusal by the target counts one failure and leaves the cursor |
| `Dispatcher.Worker.Pass` | internal/push/worker.go:44-112 | one pass of the loop: what it posts, the row it leaves and where it goes next |
| `Dispatcher.PassMeans` | internal/push/worker.go:44-155 | when a pass sends anything and what: the lowest row past the cursor, and only over an unpaused row with a secret at hand; the cursor moves if and only if a status from 200 to 299 comes back and the write goes through, to that row's sequence; only a refused attempt counts a failure |
| `Dispatcher.RowSteps` | internal/store/sqlite.go:607-664 | the statements on a row are the protocol's steps on it |
| `Dispatcher.Worker.Run` | internal/push/worker.go:30-112 | the loop over any script of passes equals the specification loop and ends at the first exit, and only then is its channel unsubscribed |
| `Dispatcher.OneWorkerInOrder` | internal/push/worker.go:73-112 | against a fixed table one worker's posts run through the selection ascending, each event repeated until committed, none left out |
| `Dispatcher.PassRefinesProtocol` | internal/push/worker.go:44-155 | a pass, over a present or a missing row, is five uninterrupted steps of the protocol of module Push |
| `Dispatcher.Manager.EnsureWorker` | internal/push/dispatcher.go:244-263 | a new worker, subscribed first, unless one is registered |
| `Dispatcher.Manager.Add` | internal/push/dispatcher.go:130-135 | stores the secret and sees to a worker; no other worker changes |
| `Dispatcher.Manager.Rotate` | internal/push/dispatcher.go:139-143 | replaces one secret |
| `Dispatcher.Manager.Deregister` | internal/push/dispatcher.go:147-150 | the half of a pause under the mutex: the worker leaves the table and is not yet cancelled |
| `Dispatcher.Manager.Pause` | internal/push/dispatcher.go:146-154 | deregisters and then cancels that worker only |
| `Dispatcher.Manager.Resume` | internal/push/dispatcher.go:158-165 | afterwards the registered worker is live if and only if there was none before or it was live already |
| `Dispatcher.Manager.Remove` | internal/push/dispatcher.go:168-177 | a pause that also forgets the secret |
| `Dispatcher.Manager.Stop` | internal/push/dispatcher.go:112-126 | every registered worker is cancelled and the table is empty |
| `Dispatcher.Manager.Start` | internal/push/dispatcher.go:94-109 | one worker for each subscription that is not paused, and none when the listing fails |
| `Dispatcher.Manager.SendTest` | internal/push/dispatcher.go:181-210 | a test is sent only with a row, a secret and a request that can be built, succeeds if and only if the answer is a status from 200 to 299, and changes no row |
| `Dispatcher.Manager.ReplayOne` | internal/push/dispatcher.go:215-242 | the event goes exactly once to each subscription that is unpaused, of its source, has a secret and whose request can be built, and to no other; to none when the listing fails; whatever the targets answer, and without changing a row |
| `Dispatcher.ResumeDuringPause` | internal/push/dispatcher.go:146-165 | a resume between the two halves of a pause leaves two live workers of one subscription |
| `Dispatcher.CascadeThenResume` | internal/store/users_store.go:198-254 | a pause by SQL alone ends the worker but leaves it registered, and resuming the row then starts nothing: the row is unpaused and its only worker has exited |
| `RateLimit.Limiter.Allow` | internal/ratelimit/ratelimit.go:107-150 | let through if and only if every bucket, grown by Burst / Per a second since its last update and capped at its burst, holds a token; then each of the key's buckets loses one, else none does; other keys are untouched |
| `RateLimit.HoldsAfter` | internal/ratelimit/ratelimit.go:125-134 | a bucket at some level holds, t later, that level plus t * Burst / Per, or its burst if that is less |
| `RateLimit.OutcomeMeans` | internal/ratelimit/ratelimit.go:121-149 | a refusal's wait is the longest that any bucket short of a token needs for one |
| `RateLimit.RefillAll` | internal/ratelimit/ratelimit.go:121-142 | the refill loop brings every bucket to its level, finds whether all hold a token, and the longest wait |
| `RateLimit.Limiter.Sweep` | internal/ratelimit/ratelimit.go:153-168 | evicts exactly the keys not seen for more than twice the period of every limit, and leaves the others as they are |
| `RateLimit.KeysIndependent` | internal/ratelimit/ratelimit.go:107-168 | in any run of a whole limiter a key ends as if only its own calls and the sweeps had happened |
| `RateLimit.RunOk` | internal/ratelimit/ratelimit.go:107-168 | in every run with a forward clock each bucket holds between nothing and its burst |
| `RateLimit.RefusalCostsNothing` | internal/ratelimit/ratelimit.go:143-149 | after a refused call every later level of every bucket is what it would have been without it |
| `RateLimit.LevelLater` | internal/ratelimit/ratelimit.go:125-134 | refilling in pieces is refilling once |
| `RateLimit.SweepKeepsLevels` | internal/ratelimit/ratelimit.go:152-168 | an evicted entry would have been full |
| `RateLimit.SweepIsInvisible` | internal/ratelimit/ratelimit.go:107-168 | with sweeps at any moments every call gets the answer it gets with none |
| `RateLimit.RateBound` | internal/ratelimit/ratelimit.go:107-150 | in every run, for every limit and every window of length T, at most Burst + T * Burst / Per calls are let through |
| `RateLimit.RetryExact` | internal/ratelimit/ratelimit.go:121-144 | after a refusal with wait w every call before now + w is refused, however many there are, and a later one is let through if and only if it comes at or after now + w |
| `RateLimit.Guard` | internal/ratelimit/ratelimit.go:183-202 | an empty key is passed without accounting; a refusal carries the rounded wait |
| `RateLimit.HeaderCoversWait` | internal/ratelimit/ratelimit.go:192-196 | the Retry-After seconds cover the wait if and only if it does not run past a whole second by less than a nanosecond, and overshoot by less than a second |
| `RateLimit.HeaderFallsShort` | internal/ratelimit/ratelimit.go:192-196 | it does fall short: a concrete limiter lets three calls through, refuses a fourth, and refuses again a client that waited exactly the seconds of the header |
| `RateLimit.HeaderMeans` | internal/ratelimit/ratelimit.go:192-196 | the Retry-After header is the least whole number of seconds, at least one, that falls short of the wait by less than a nanosecond |
| `Pairing.PairingStore.Insert` | internal/store/device_pairings_store.go:39-63 | an empty or taken code is refused; otherwise one row is added |
| `Pairing.PairingStore.UpdateAwaiting` | internal/store/sqlcgen/device_pairings.sql.go:147-181 | changes exactly the pending rows with that user code and counts zero if and only if there is none |
| `Pairing.PairingStore.Approve` | internal/store/device_pairings_store.go:91-140 | commits the token and the pairing together, or leaves neither |
| `Pairing.PairingStore.Deny` | internal/store/device_pairings_store.go:142-154 | denies the pending pairing or changes nothing |
| `Pairing.PairingStore.MarkFetched` | internal/store/device_pairings_store.go:156-165 | finishes an approved, unfetched pairing and erases its plaintext, or changes nothing |
| `Pairing.PairingStore.Sweep` | internal/devicepair/api.go:503-523 | expires pending pairings past their expiry, then deletes done, denied and expired ones more than a day old, and touches no other |
| `Pairing.GrantIsAuthorized` | internal/devicepair/api.go:352-396 | a grant needs the password and a pending unexpired pairing, and every scope in it was requested and is held by the approver |
| `Pairing.Api.Start` | internal/devicepair/api.go:130-195 | records the requested scopes, account by default and admin on request, in a pending row that holds the codes and expires 15 minutes from now |
| `Pairing.RequestedMeans` | internal/devicepair/api.go:130-160 | what a start requests: what was asked, account when nothing was, and admin besides if and only if it was asked for and not among them |
| `Pairing.Api.ApproveCore` | internal/devicepair/api.go:352-421 | each refusal leaves the tables alone; a grant mints exactly when the transaction finds the pairing still pending |
| `Pairing.DecideMeans` | internal/devicepair/api.go:352-396 | when an approval is refused, check by check, and the scopes it grants otherwise: those asked for, or all that were requested when none was |
| `Pairing.Api.Poll` | internal/devicepair/api.go:208-316 | the answer for each status, and a fetch mark exactly behind a token answer that was written |
| `Pairing.PollMeans` | internal/devicepair/api.go:208-316 | the plaintext goes out if and only if the pairing is approved and unfetched, its token is there, and the answer can be written; and the answer in every other state |
| `PairingRuns.RowsConsistent` | internal/store/device_pairings_store.go:91-173 | in every reachable state a plaintext is present exactly while approved and unfetched, and a token id exactly from approval on, naming an existing token of the approver, no wider than requested, that no other pairing names |
| `PairingRuns.StepMoves` | internal/store/sqlcgen/device_pairings.sql.go:13-181 | a status moves only from pending to approved, denied or expired and from approved to done; only finished rows disappear; codes, times and request never change |
| `PairingRuns.PairingHistory` | internal/store/device_pairings_store.go:91-173 | through any run a pairing keeps its codes, times, request and, once approved, its token, and only moves on |
| `PairingRuns.ApprovesOne` | internal/store/device_pairings_store.go:91-140 | an approval that commits changes exactly one pairing and adds exactly one token |
| `PairingRuns.TokensKept` | internal/store/device_pairings_store.go:91-140 | no step removes or rewrites a token |
| `PairingRuns.AnswersAgree` | internal/devicepair/api.go:240-311 | over any interleaving of polls all 200 answers for a device code carry one plaintext |
| `PairingRuns.UnansweredIsFetchable` | internal/devicepair/api.go:240-285 | until some 200 was written the minted plaintext is there for the next poll, whatever writes failed |
| `PairingRuns.FailedWriteMarksNothing` | internal/devicepair/api.go:279-285 | a poll whose write fails schedules nothing and changes nothing |
| `PairingRuns.MarkMakesOver` | internal/devicepair/api.go:286-311 | running a scheduled fetch mark finishes the pairing |
| `PairingRuns.GoneForGood` | internal/devicepair/api.go:213-239 | once fetched, every later lookup is told 410, or 404 when the row is gone, through any run |
| `PairingRuns.PollIsTwoSteps` | internal/devicepair/api.go:208-316 | a poll nothing interrupts is a lookup and a write of the runs |
| `PairingRuns.ApproveIsTwoSteps` | internal/devicepair/api.go:352-421 | an approval nothing interrupts is a lookup and a transaction of the runs |
| `Accounts.AccountStore.DeactivateUserCascade` | internal/store/users_store.go:198-254 | refused exactly for a missing user, one already inactive, or an active admin with no other; a committed one stamps the user's row and leaves it otherwise as it was, stamps the user's live tokens and subscriptions, and changes nothing else |
| `Accounts.StopOwned` | internal/store/sqlcgen/tokens.sql.go:291-295 | the update stamps exactly the owner's live rows and returns their number |
| `Accounts.CascadeConserves` | internal/store/users_store.go:198-254 | a committed cascade leaves nothing of the user's live, keeps earlier stamps and other owners' rows, and its counts are the drop in live tokens and subscriptions; a refused one changes nothing |
| `Accounts.CascadeMeans` | internal/store/users_store.go:198-254 | the same of the cascade on values, row by row |
| `Accounts.AccountStore.ReactivateUser` | internal/store/users_store.go:150-159 | clears the stamp of that user and touches nothing else |
| `Accounts.AccountStore.UpdateUserProfile` | internal/store/users_store.go:117-134 | name and default scopes only |
| `Accounts.AccountStore.SignupTx` | internal/store/invites_store.go:245-304 | email in use, id taken or invite consumed leave everything as it was; success adds the user and consumes the invite and any bootstrap invite |
| `Accounts.SignupMeans` | internal/store/invites_store.go:245-304 | when a signup is refused, and that one that goes through marks the used invite and any open bootstrap invite consumed by the new user now, and nothing else |
| `Accounts.AccountStore.Provision` | internal/invites/provision.go:27-107 | each refusal in order, and a created user with exactly the invite's role and scopes |
| `Accounts.ProvisionMeans` | internal/invites/provision.go:27-107 | each refusal by the state it rests on, and the user it makes |
| `Accounts.AccountStore.EnsureBootstrapInvite` | internal/store/invites_store.go:184-236 | returns the bootstrap invite in force, replacing a spent or expired one; a taken code changes nothing |
| `Accounts.AccountStore.InsertInvite` | internal/store/invites_store.go:85-97 | adds one unconsumed, non-bootstrap invite under a free code |
| `Accounts.AccountStore.DeleteInvite` | internal/store/invites_store.go:168-177 | removes an invite if and only if it is there and unconsumed, and no other |
| `AccountRuns.RunOk` | internal/store/invites_store.go:184-304 | over every run emails stay distinct up to case, there is at most one bootstrap invite, and a consumed invite names an existing user |
| `AccountRuns.TokenStepsMean` | internal/store/sqlcgen/tokens.sql.go:95-100 | minting adds one live token of the given owner under a free id, revoking stamps a live one and keeps an earlier stamp |
| `AccountRuns.SubStepsMean` | internal/store/sqlite.go:641-664 | the same of subscriptions, and a resume clears the stamp of one |
| `AccountRuns.LastAdminSafe` | internal/store/users_store.go:198-254 | once there is an active admin there always is one |
| `AccountRuns.RefusedIffLast` | internal/store/users_store.go:217-225 | deactivating an active admin is refused if and only if no other is active |
| `AccountRuns.StoppedStays` | internal/store/users_store.go:150-159 | a revoked token keeps its stamp through any run, and a paused subscription until it is resumed itself |
| `AccountRuns.CascadeIsFinal` | internal/store/sqlcgen/tokens.sql.go:291-295 | after a committed deactivation every token the user owned is revoked for good, reactivation or not |
| `AccountRuns.StaysInactive` | internal/store/users_store.go:227-232 | after a committed deactivation the user is inactive with that stamp through any run that does not reactivate that id, and every other user's row was left as it was |
| `AccountRuns.SignupEffect` | internal/store/invites_store.go:245-304 | a signup that succeeds adds exactly one user and leaves no usable bootstrap invite; one that fails changes nothing |
| `AccountRuns.ConsumedOnce` | internal/store/sqlcgen/invites.sql.go:198-221 | no step changes a consumed invite, except that a spent bootstrap invite may be replaced |
| `AccountRuns.ConsumedForGood` | internal/store/sqlcgen/invites.sql.go:217-221 | an ordinary invite once consumed stays as it is through any run |
| `AccountRuns.SameBootstrap` | internal/store/invites_store.go:184-236 | through any run without a signup, until it expires or is deleted, the bootstrap invite handed out is the same one |
| `AccountRuns.EnsureEffect` | internal/store/invites_store.go:184-236 | afterwards one is in force and every other invite is as it was |
| `Sessions.CookieRoundTrip` | internal/auth/sessions.go:125-136 | a cookie comes apart into the id and secret it was made of if and only if the id has no dot |
| `Sessions.SessionManager.CreateSession` | internal/auth/sessions.go:105-126 | one new row expiring a TTL from now, under a free id |
| `Sessions.SessionManager.Lookup` | internal/auth/sessions.go:132-173 | the verdict from the row, the secret, the clock and the user; overdue rows and rows of inactive users are deleted, those stamped an hour ago or more extended to TTL from now, failed writes change no verdict |
| `Sessions.JudgeMeans` | internal/auth/sessions.go:132-160 | let in if and only if the secret is right, the row not past its expiry and its user active; told expired if and only if the secret is right and the row is past it |
| `Sessions.LookupMeans` | internal/auth/sessions.go:132-173 | when a lookup deletes the row, when it extends it and to what, and that every other leaves it |
| `Sessions.SessionManager.DeleteSession` | internal/auth/sessions.go:182-199 | deletes the row if and only if the cookie holds its secret |
| `Sessions.SessionManager.DeleteExpired` | internal/store/sqlcgen/sessions.sql.go:12-14 | deletes exactly the rows past their expiry |
| `Sessions.KeptAlive` | internal/auth/sessions.go:132-173 | an owner whose lookups take up to any given delay each, overlapping in any way, and who comes back within TTL less an hour less four delays, is always let in, whatever sweeps and lookups with a wrong secret come between; with no delay that is TTL less an hour |
| `Sessions.TooLateFails` | internal/auth/sessions.go:132-173 | in every run from a login, however lookups overlap, those decided more than TTL after the last success fail |
| `Sessions.SweepIsInvisible` | internal/auth/sweeper.go:16-36 | with lookups overlapping in any way, sweeps at any moments change no accept or reject, as long as none deletes the row while a lookup on its way can still bring it back |
| `Sessions.SweepShowsIff` | internal/auth/sweeper.go:16-36 | the exact condition: after any run from a login, deleting an overdue row changes some later answer in some continuation if and only if a lookup on its way has read an expiry not yet passed or has one to write |
| `Sessions.SweptInFlight` | internal/auth/sessions.go:163-172 | such a state is reached: a lookup lets its caller in at the row's last instant, and the sweep comes before the new expiry is written |
| `Sessions.LookupIsSteps` | internal/auth/sessions.go:132-173 | a lookup nothing interrupts is a read, a decision and a write of the runs |
| `TokenUse.TokenStore.LookupByPlaintext` | internal/store/sqlite.go:351-378 | a row that is not revoked and whose hash verifies, and none if and only if there is none |
| `TokenUse.TokenStore.TouchLastUsed` | internal/store/sqlite.go:380-385 | stamps one row |
| `TokenUse.TokenStore.ExpireEphemeralTokensIdle` | internal/store/sqlcgen/tokens.sql.go:13-20 | revokes exactly the live ephemeral rows last used, or if never used created, before the cutoff |
| `TokenUse.Authenticator.ResolvePlaintext` | internal/tokens/middleware.go:60-82 | resolves only to an unrevoked, verifying token that has no expiry or is not past it, and does so whenever every such match is unexpired; its stamp is written unless one was within the last minute; a refusal writes nothing |
| `TokenUse.Authenticator.MaybeTouch` | internal/tokens/middleware.go:86-96 | writes the stamp unless this process wrote it within the last minute |
| `TokenUse.LagBounded` | internal/tokens/middleware.go:86-96 | over every run, however requests overlap, restarts included, the newest stamp written or on its way lags the last use by less than a minute and no stamp is newer, so with that stamp in place the stored one lags less than a minute |
| `TokenUse.InUseIsSpared` | internal/prune/prune.go:98-101 | with its newest stamp in place no sweep up to 24 hours less a minute after the last use revokes the token; and its being in place is the exact condition for every sweep up to 24 hours after it to spare a live ephemeral token |
| `TokenUse.StaysSettled` | internal/tokens/middleware.go:86-96 | the newest stamp stays in place until a newer one is set out to be written or an older one lands late |
| `TokenUse.LandSettles` | internal/store/sqlcgen/tokens.sql.go:310-312 | and landing puts it there, if and only if it is the newest |
| `TokenUse.SweptInFlight` | internal/tokens/middleware.go:86-96 | a token in use can be swept: in a concrete run the sweep comes before its first stamp in a day has landed |
| `TokenUse.ResolveIsSteps` | internal/tokens/middleware.go:60-96 | a request nothing interrupts is a lookup, a clock reading, a look at the memo and a stamp of the runs |
| `TokenUse.OutOfUseIsSwept` | internal/store/sqlcgen/tokens.sql.go:13-20 | a sweep more than 24 hours after the last use always revokes the token, and exactly 24 hours after minting decides for one never stamped, however requests overlap |
| `TokenUse.RevokedForGood` | internal/store/sqlcgen/tokens.sql.go:95-100 | a revoked token stays revoked with the same stamp of revocation and no further request finds it; only a request that had found it before can still stamp its use |
| `TokenUse.Debounced` | internal/tokens/middleware.go:86-96 | stamps one process sets out to write are at least a minute apart, however its requests overlap |
| `Prune.Pruner.RunOnce` | internal/prune/prune.go:76-113 | each source with a positive retention keeps exactly its rows received no longer ago than that by the clock as read for it, a failing source is skipped, and then ephemeral tokens out of use for more than 24 hours are swept, unless no token store is wired in or its statement fails |
| `Prune.SparesNewestIff` | internal/prune/prune.go:76-95 | a pass spares a source's newest row if and only if that row is within the retention |

## Left out

- HTTP routing, JSON bodies, cookie attributes, HTML pages, the terminal UI and its variant of the forward loop, command-line flags, logging and audit records.
- Argon2, SHA-256, HMAC, base64, JSON and randomness: hash checks and parsed payloads are parameters. The Standard Webhooks verifier is not part of this model.
- SQLite itself, migrations and connection handling: a statement or transaction is one step.
- Backoff and jitter values, timer periods, HTTP timeouts, the failure-streak warning and queue depth: a wait is a step that may come at any moment.
- Ownership transfer of tokens and subscriptions, which can hand a live token to a deactivated user, so it is not among the steps of the account runs.
- The unguarded single-user deactivation, which no handler calls.
- Manual pruning across all sources, and the inspector's listings.
- Floating-point rounding in the limiter; the middleware's cut to whole nanoseconds is modelled.
- Logouts in the session runs: after one the row is gone for good.
- Two processes stamping one token at once: a restart ends the requests of the process before it.
- Dispatcher.Manager.Stop: does not wait for the workers to finish, because a method call here runs alone.
- Pairing.Api.ApproveCore: the password check and the token's randomness are arguments.
