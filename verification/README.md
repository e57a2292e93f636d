# zerortt: a verified model of the connection lock, the wakeups and the ring buffer

This project models three parts of the repository and proves properties of them over all
inputs and all interleavings.

**A. Connections and their waiters.** A QUIC connection is shared by callers, timers, an I/O
thread and asynchronous tasks through a try-lock. An operation that finds the lock taken is
refused; what it wanted is noted in a ledger (`reties` in the source, `retries` here), and the
next holder to release the lock replays the ledger: it turns entries into readiness events,
performs deferred closes, drains the readable and writable streams and schedules the next
`Send`. A group holds the connections under one mutex, but guards live outside of it, so their
drops interleave in any order. Above it, a dispatch loop turns polled events into wakeups and
queues for tasks that registered a waker before trying their operation.

| module | file | what it is |
|---|---|---|
| `Api` | `api.dfy` | tokens, events, stream identifiers |
| `QuicheLib` | `quiche.dfy` | the wrapped library connection: a log of calls and an arbitrary schedule of replies; the deadline of a `Send` |
| `Readiness` | `readiness.dfy` | the queue of ready and delayed events, as object and as last-write-wins map |
| `Conns` | `conn.dfy` | the lock, the ledger and the release, as functions and as an object proved equal to them |
| `Releases` | `release.dfy` | what one release achieves |
| `Replays` | `replay.dfy` | exactly what the single operations do: calls made, answers of the library, events raised |
| `Announcements` | `announce.dfy` | what one release announces: readable and writable streams, closure, establishment |
| `Sessions`, `SessionRuns` | `session.dfy`, `sessionrun.dfy` | one connection with its outstanding guards: invariants, whole runs |
| `Groups`, `GroupRuns` | `group.dfy`, `grouprun.dfy` | the group as a state machine over its critical sections: invariants, whole runs |
| `GroupTraces` | `grouptrace.dfy` | the connections that events name, and runs that show what a group does not promise |
| `GroupObjects` | `groupobject.dfy` | the group object; each method is proved to be a step of the state machine |
| `ReadEvents` | `readevents.dfy` | no event is raised that the dispatch loop cannot handle |
| `Futures` | `futures.dfy` | wakers, queues and dispatch of the asynchronous layer |
| `Systems`, `Accepts`, `Arrivals`, `SystemRuns` | `system.dfy`, `accepts.dfy`, `arrivals.dfy`, `systemrun.dfy` | tasks, dispatch loop and group together |

**B. The ring buffer and the pipe.** `RingBuffer` (`ringbuf.dfy`) refines the buffer with its
monotone cursors and split ranges to a bounded queue; `Pipes` (`pipe.dfy`) is the pipe on top,
as an object and as threads around a spin lock.

**C. The retry token.** `RetryToken` (`retrytoken.dfy`) is the codec of the simple address
validator, with the digest as an arbitrary function to 32 octets (section 8.1.2 of RFC 9000).

## How it is built

- What the source does in place is a method of a class (`Queue`, `QuicConn`, `Group`, `State`,
  `RingBuf`, `RawRingBufPipe`); its `ensures` equates the new state with a specification
  function of the old one, or with one step of a state machine. The properties are proved of
  those functions and steps.
- A *run* is any sequence of enabled steps. Each critical section is one step; a guard may be
  used and dropped by any thread at any time. The theorems on runs start from the empty group,
  from the empty system, or from an arbitrary state that meets the invariant.
- The library connection is a value with a log of the calls made on it. Call number i is
  answered by `replies(i)`, an arbitrary function, so each theorem is for all behaviours of the
  library. Two things are assumed of it: stream credits grow only while packets are received,
  and a closed connection stays closed.
- A group keeps `Possible` steps and `Orderly` ones apart: a step is orderly unless it takes a
  connection out while a guard of it is outstanding. Runs are made of orderly steps;
  `GroupRuns.GuardsLostExactly` says what exactly that leaves out.
- The order in which a hash set yields its entries is a ghost result of the methods (`order`)
  and part of the step; every order is allowed.

## Where the code is not what one might expect

- `send` takes the lock as `Recv`, so a busy `send` leaves a `Recv` entry in the ledger
  (crates/poll/src/group.rs:392). `Groups.Take` does the same.
- `close`, `stream_open` and `stream_close` ignore the closed flag that `unlock` returns
  (crates/poll/src/conn.rs:237), and so does `register`. `Closed` may be raised several times for
  one connection: `GroupTraces.ClosedTwice` is such a run. `Announcements.ActRaisesClosed` says
  which actions raise it: those that end with a release and leave the connection closed;
  `Announcements.ClosedAgain`: once closed, every further release.
- `unlock` drops the mutex of the group before it calls `deregister`
  (crates/poll/src/group.rs:98-99). In between another thread may take the lock, and `deregister`
  then takes the connection out from under its guard, whose drop does not find it any more
  (crates/poll/src/group.rs:82-86): `GroupTraces.GuardTakenInTheGap`. By
  `GroupRuns.GuardsLostExactly` this happens exactly when a connection is taken out, by either
  way, while a guard of it is outstanding.
- `deregister` leaves the connection's events in the queue (crates/poll/src/group.rs:205-223), so
  polled events may name tokens that are gone: `GroupTraces.DeadTokenIsNamed`. By
  `GroupTraces.LiveExactly` a step has that effect exactly if it takes out a connection with an
  event queued, delayed or handed out. Every event names a connection that is in the group or
  was taken out (`GroupTraces.EventsNameConnections`).
- The release of one of several read locks replays the ledger while others are inside
  (crates/poll/src/conn.rs:394-409). `SessionRuns.CloseMeetsReader` is a run in which a deferred
  close is carried out under a reader; `SessionRuns.DeferredCallsMeetReaders` says when exactly:
  another reader is inside and the ledger holds a request that makes a call. In a group the read
  lock is taken in `register` only, and no deferred call meets a guard.
- A remote stream that becomes readable after a higher one of its kind is never announced for
  acceptance: `Releases.LateStreamIsNeverAnnounced` gives the ids 4, 0. Every remote stream is
  announced if and only if those of each kind first appear in increasing order
  (`Releases.AllAnnouncedIffInOrder`).
- Validation subtracts the timestamp of a token from "now" without a check
  (crates/api/src/acceptor.rs:113); for a timestamp later than now that subtraction panics. The
  model returns the verdict `FromTheFuture` there. `RetryToken.FutureTokenPanics` gives such a
  token for every validator and digest, `RetryToken.FutureExactly` says which tokens do this.
- A poll with an empty buffer parks even though progress is possible
  (crates/ringbuff/src/pipe.rs:119-126). `Pipes.SoundUnlessEmptyPoll` says that this is the only
  case.

## Model

| member | source | states |
|---|---|---|
| Readiness.Queue.Insert | crates/poll/src/readiness.rs:21-30 | the new queue is the old one with the event moved to "ready" or to its new deadline |
| Readiness.Queue.Remove | crates/poll/src/readiness.rs:32-36 | the event is in neither part afterwards |
| Readiness.Queue.PopDue | crates/poll/src/readiness.rs:50-65 | takes out an event of least deadline if that is due within the threshold, else takes out nothing |
| Readiness.Queue.Poll | crates/poll/src/readiness.rs:40-71 | terminates; outputs without duplicates the ready events and those due within the threshold, keeps the others, and reports the least remaining deadline if there is one |
| Readiness.QueueIsLastWriteMap | crates/poll/src/readiness.rs:21-71 | over any history of calls the two parts stay disjoint and, for every event, hold what a last-write-wins map from events to "now or deadline" holds |
| Readiness.StandingInsertion | crates/poll/src/readiness.rs:21-71 | the map holds an entry if and only if some insertion of it was neither overwritten nor due at a poll since |
| Readiness.PollOutputsExactly | crates/poll/src/readiness.rs:40-71 | a poll outputs an event if and only if a standing insertion of it is due: none early beyond the threshold, none kept past the first poll at which it is due, none twice |
| Readiness.DueExactly | crates/poll/src/readiness.rs:50-65 | a poll takes out an event delayed to d if and only if d is at most now plus the threshold; else it keeps it with its deadline |
| QuicheLib.MinOfSome | crates/poll/src/utils.rs:6-12 | absent exactly if both are; otherwise one of the present values, and no greater than either |
| QuicheLib.DelaySend | crates/poll/src/utils.rs:14-40 | there is a deadline exactly if there is a release time, or a timeout and the sender reported "done"; it is one of the two and no later than either |
| Conns.QuicConn.constructor | crates/poll/src/conn.rs:157-171 | a free lock, an empty ledger, the first local ids of this side |
| Conns.QuicConn.TryLockPrv | crates/poll/src/conn.rs:173-206 | grants on a free lock or reader to reader, otherwise enters the request in the ledger if it needs a retry; both assertions of the source hold |
| Conns.QuicConn.StreamClosePrv | crates/poll/src/conn.rs:299-340 | the calls made for each kind of stream, in order, and whether all succeeded |
| Conns.QuicConn.StreamOpenPrv | crates/poll/src/conn.rs:342-375 | without credit nothing changes; otherwise the next local id of the kind is used up, even if the library then fails |
| Conns.QuicConn.ReplayEntry | crates/poll/src/conn.rs:414-563 | the event, call or re-entry for each kind of ledger entry; the `unreachable!` arm is dead |
| Conns.QuicConn.HandleRetryEvents | crates/poll/src/conn.rs:414-563 | the whole ledger is replayed, each entry once, in the order in which the set yields it |
| Conns.QuicConn.HandleStreamStateChanged | crates/poll/src/conn.rs:616-650 | both loops terminate in the state that draining one stream at a time reaches |
| Conns.QuicConn.AcceptOrReceive | crates/poll/src/conn.rs:652-713 | announces a remote stream above the running maximum of its kind, and raises the maximum; else reports it readable |
| Conns.QuicConn.RescheduleSend | crates/poll/src/conn.rs:715-748 | `Send` becomes ready, delayed or is removed |
| Conns.QuicConn.HandleStateChanged | crates/poll/src/conn.rs:565-614 | establishment at most once, closure whenever closed, which is also the result |
| Conns.QuicConn.LeaveLock | crates/poll/src/conn.rs:390-404 | frees the lock and bumps the count, or leaves it to the remaining readers |
| Conns.QuicConn.UnlockWith | crates/poll/src/conn.rs:390-412 | the release as a whole is the specification function `Unlock` for some order of the ledger, and keeps the object valid |
| Conns.QuicConn.CloseConn | crates/poll/src/conn.rs:209-240 | refused: the request is in the ledger and the result is Ok; granted: the call is made and the lock released again, whatever the call answers |
| Conns.QuicConn.OpenStream | crates/poll/src/conn.rs:243-272 | the reply in each case; without credit the request enters the ledger before the release |
| Conns.QuicConn.CloseStream | crates/poll/src/conn.rs:275-297 | as for closing the connection |
| Replays.StreamIdTable | crates/api/src/lib.rs:96-106 | the two low bits of an identifier tell who opened the stream and its kind (section 2.1 of RFC 9000) |
| Replays.TryLockExactly | crates/poll/src/conn.rs:173-206 | granted if and only if the lock is free or a reader meets readers; any other request but `Send` enters the ledger |
| Replays.CloseBothSidesExactly | crates/poll/src/conn.rs:299-340 | the very calls that close a stream, for each kind and each reply, and that the result is Ok exactly if none of them failed |
| Replays.StreamCloseExactly | crates/poll/src/conn.rs:275-297 | `stream_close`: refused and noted, or these calls, once |
| Replays.CloseExactly | crates/poll/src/conn.rs:209-240 | `close`: refused and noted, or one call |
| Replays.OpenExactly | crates/poll/src/conn.rs:243-272 | when an open is Busy, Retry, None, an error or an id; which id; what it uses up; what it notes |
| Replays.ReplayOneExactly | crates/poll/src/conn.rs:414-563 | the very calls that each kind of ledger entry makes |
| Releases.CloseBothSidesApplies | crates/poll/src/conn.rs:299-340 | the calls that close a stream are in the log from the given position on, for bidirectional, local and remote streams, up to the first failure |
| Releases.ReplayOneDischarges | crates/poll/src/conn.rs:414-563 | replaying an entry discharges it: it is now an event, or a call on the connection whose refusal or answer is reported as an event where the caller waits for one, or a stream open without credit that stays |
| Releases.ReplayAllDischarges | crates/poll/src/conn.rs:414-563 | replaying the ledger in any order discharges every entry |
| Releases.ReplayAllLeavesStarvedOpens | crates/poll/src/conn.rs:448-481 | all that is left is stream opens whose kind has no credit, even at the end of the replay |
| Releases.UnlockReleases | crates/poll/src/conn.rs:390-412 | one release: lock word and count advance, every entry of the ledger is discharged, `Send` is scheduled, other events stay, only events of this connection come, closure is reported |
| Replays.UnlockOpens | crates/poll/src/conn.rs:448-481 | an open event is new only if an opener of that kind was waiting and there was credit; an opener without credit stays in the ledger and raises nothing; with credit left it is answered |
| Replays.UnlockReports | crates/poll/src/conn.rs:414-563 | `Recv` and `ReadLock` are raised if and only if such a request is in the ledger |
| Replays.UnlockReportsFailures | crates/poll/src/conn.rs:430-515 | an error event is raised for a deferred close, or for a waiting sender, if and only if the library failed that call |
| Replays.UnlockCalls | crates/poll/src/conn.rs:414-563 | a release makes calls on the library exactly if the ledger holds a close, a stream close or a stream send |
| Releases.FinishFacts | crates/poll/src/conn.rs:715-748 | `Send` is removed only if the sender reported "done" and there is neither a timeout nor a release time; else it is ready, or delayed to the least of these |
| Releases.HandleReadableAnnounces | crates/poll/src/conn.rs:652-713 | one readable stream is announced with `StreamAccept` exactly if it is larger than all earlier remote ones of its kind, otherwise with `StreamRecv`; the `seen` fields stay the running maxima |
| Releases.DrainReadableAnnounces | crates/poll/src/conn.rs:633-650 | over a whole drain the `StreamAccept` events added are exactly the new strict maxima |
| Releases.UnlockAnnounces | crates/poll/src/conn.rs:390-412 | a release announces exactly the streams that became strict maxima during it, and none it had announced before |
| Releases.AnnouncedExactly | crates/poll/src/conn.rs:652-713 | a stream is ever announced if and only if its first appearance exceeds every earlier remote stream of its kind |
| Releases.AllAnnouncedIffInOrder | crates/poll/src/conn.rs:652-713 | every remote stream that became readable is announced if and only if the remote streams of each kind first appear in increasing order (section 2.1 of RFC 9000) |
| Releases.InOrderAcceptsFirst | crates/poll/src/conn.rs:652-713 | in order, a stream is announced at its first appearance and at no other, and any later appearance comes after it |
| Releases.LateStreamIsNeverAnnounced | crates/poll/src/conn.rs:666-694 | out of order a remote stream may never be announced |
| Announcements.UnlockRaisesReadable | crates/poll/src/conn.rs:633-650 | a release leaves no readable stream behind, and each id it drained was announced as new or as readable, as its rank demands |
| Announcements.UnlockRaisesWritable | crates/poll/src/conn.rs:482-522 | a release leaves no writable stream behind; it announces as writable exactly the streams of which the library said so when asked for a refused sender, and those writable once the ledger is replayed |
| Announcements.DrainReadableReceives | crates/poll/src/conn.rs:633-650 | over a whole drain the `StreamRecv` events added are exactly those of the drained ids that are no new maxima |
| Announcements.UnlockReceives | crates/poll/src/conn.rs:390-412 | a release raises `StreamRecv` exactly for the receivers it finds in the ledger and for the drained ids that are no new maxima |
| Announcements.ActReceives | crates/poll/src/conn.rs:390-412 | the same over every action |
| Announcements.InOrderAcceptsBeforeReceiving | crates/poll/src/conn.rs:652-713 | in order, a remote stream gets a `StreamRecv` caused by readability only after it was announced for acceptance |
| Announcements.ActRaisesClosed | crates/poll/src/conn.rs:599-613 | an action raises `Closed` if and only if it ends with a release that leaves the connection closed |
| Announcements.ClosedAgain | crates/poll/src/conn.rs:599-613 | a closed connection raises `Closed` again at every further release |
| Announcements.UnlockEstablishes | crates/poll/src/conn.rs:565-597 | the establishment event is raised exactly if the flag turns in this release |
| Announcements.ActEstablishes | crates/poll/src/conn.rs:565-597 | over all actions the flag turns exactly at a release that finds the connection established, never turns back, and the event is raised exactly then |
| Sessions.PrepareKeepsInv | crates/poll/src/conn.rs:173-297 | taking the lock, using a guard, closing and opening keep all invariants of lock, ledger and closes up to the release |
| Sessions.ReleaseKeepsInv | crates/poll/src/conn.rs:390-412 | a release by any outstanding guard, in any order of the ledger, keeps them |
| Sessions.ActKeepsInv | crates/poll/src/conn.rs:173-412 | every action keeps them, and the lock count never decreases |
| Sessions.GrantAddsGuard | crates/poll/src/conn.rs:201-205 | a granted request adds one guard of the current lock count, with nothing reported done |
| Sessions.ActKeepsEntry | crates/poll/src/conn.rs:414-563 | an entry of the ledger stays, or the action discharges it |
| Sessions.ActAnnounces | crates/poll/src/conn.rs:616-713 | over every action the streams announced are exactly the new strict maxima |
| SessionRuns.LockDiscipline | crates/poll/src/conn.rs:173-206 | over all runs: no guard is out when the lock is free, as many as counted in read mode, one otherwise; each carries the current count; the assertions of `try_lock_prv` and `unlock` never fire |
| SessionRuns.ReleaseAdvances | crates/poll/src/conn.rs:390-404 | the release of the last holder frees the lock and raises the lock count by one; that of one reader of several only lowers the number of readers |
| SessionRuns.GuardsOfGenerations | crates/poll/src/conn.rs:390-392 | over all runs no guard handed out after the lock was freed carries the count of an earlier one |
| SessionRuns.FreeLockOwesNothing | crates/poll/src/conn.rs:414-563 | over all runs: whenever the lock is free the ledger holds only stream opens without credit, and for every close that returned Ok the calls were made since |
| SessionRuns.ClosesAreNeverDropped | crates/poll/src/conn.rs:209-240 | a close of connection or stream that returned Ok, even one that repeats another: after any run its calls have been made since, or it is in the ledger of a taken lock |
| SessionRuns.RefusedRequestStays | crates/poll/src/conn.rs:190-199 | from its refusal until the next release every request but `Send` is in the ledger, and the lock stays taken |
| SessionRuns.RefusedRequestIsDischarged | crates/poll/src/conn.rs:390-412 | the next release, whoever performs it, discharges every refused request but `Send` |
| SessionRuns.DeferredCallsMeetReaders | crates/poll/src/conn.rs:394-409 | a guard's drop makes deferred calls while another guard is outstanding if and only if there is another reader and a deferred call |
| SessionRuns.CloseMeetsReader | crates/poll/src/conn.rs:394-409 | a run in which a deferred close is carried out under a reader |
| SessionRuns.RemoteStreamsAreAnnounced | crates/poll/src/conn.rs:652-713 | over all runs every remote stream that became readable was announced, each at its first appearance, if and only if they appeared in order |
| SessionRuns.EstablishedBeforeIsSilent | crates/poll/src/conn.rs:157-171 | a connection that was established when it was wrapped is never announced as established |
| SessionRuns.FirstEstablishmentIsAnnounced | crates/poll/src/conn.rs:565-597 | one that was not is announced by the first release that finds it established |
| SessionRuns.IdsByFour | crates/poll/src/conn.rs:342-375 | over all runs ids of a kind start at 0 or 2 for a client, 1 or 3 for a server, and count up by four with every open that finds credit (section 2.1 of RFC 9000) |
| SessionRuns.ActNumbers | crates/poll/src/conn.rs:342-375 | the next local ids never go back, and an id handed out lies below the new and not below the old one |
| SessionRuns.OpenNowNumbers | crates/poll/src/conn.rs:342-375 | an id handed out is local to this side and of the requested kind |
| SessionRuns.OpenedIdsDiffer | crates/poll/src/conn.rs:243-272 | two successful opens with any run in between return different ids |
| Groups.StepKeepsInv | crates/poll/src/group.rs:75-430 | every critical section of every thread keeps the invariant: maps agree, parked receivers have a guard to wait for, sessions are sound, `Send` is covered, no guard is without its connection; the unlock of a closed connection and its `deregister` are separate steps |
| Groups.FreshIdIsUnknown | crates/poll/src/group.rs:172-178 | the assertion of `register` holds for a source id that no connection uses |
| Groups.DropScidKeepsInv | crates/poll/src/group.rs:217-221 | the assertion of `deregister` holds: the id still leads to the token of the connection taken out |
| Groups.ActLeavesExclusive | crates/poll/src/group.rs:75-101 | in a group a connection is never left read-locked, and a release frees it |
| GroupRuns.NoLostSend | crates/poll/src/group.rs:75-101 | over all runs each connection is locked, or its `Send` is ready, delayed or handed out and not yet tried, or its last release was a "send done" with nothing to wait for |
| GroupRuns.QuietExactly | crates/poll/src/conn.rs:715-748 | that last case holds exactly if the guard reported "done" and there is neither a timeout nor a release time |
| GroupRuns.PollExactly | crates/poll/src/group.rs:367-374 | a poll hands out each event that is ready or delayed by at most 250 microseconds from now, once, and keeps the others |
| GroupRuns.SendAsksAsReceiver | crates/poll/src/group.rs:391-392 | `send` holds the lock as a receiver, or leaves a `Recv` entry in the ledger |
| GroupRuns.RegisteredIsScheduled | crates/poll/src/group.rs:186-201 | a connection that registers is left free, owes nothing, and its `Send` is ready or delayed |
| GroupRuns.ScidsAreInverse | crates/poll/src/group.rs:160-223 | over all runs `scids` is the inverse of token-to-source-id, up to entries whose removal is under way |
| GroupRuns.ParkingWaits | crates/poll/src/group.rs:121-134 | a receiver told Busy with an unparker waits for a guard that is outstanding |
| GroupRuns.ReceiverStaysParked | crates/poll/src/group.rs:112-134 | it keeps waiting for one, whatever happens, until the connection is released |
| GroupRuns.ReleaseUnparks | crates/poll/src/group.rs:75-80 | that release unparks it |
| GroupRuns.DeferredCallsMeetNoGuard | crates/poll/src/group.rs:75-101 | in a group every release, by a drop or at the end of a call, makes its deferred calls with no guard outstanding, and every close that returned Ok has been carried out since |
| GroupRuns.TakenOutOwesNothing | crates/poll/src/group.rs:205-223 | a connection taken out, by a user or automatically, has carried out every close that returned Ok |
| GroupRuns.EveryGuardFindsItsConnection | crates/poll/src/group.rs:82-86 | over all runs every outstanding guard finds its connection registered and locked by it: neither the `expect` nor the assertions of `unlock` fire |
| GroupRuns.GuardsLostExactly | crates/poll/src/group.rs:98-99 | a step keeps that if and only if it does not take out a connection with a guard outstanding |
| GroupTraces.EventsNameConnections | crates/poll/src/group.rs:205-223 | over all runs every event queued, delayed or handed out names a connection that is registered or was taken out |
| GroupTraces.LiveExactly | crates/poll/src/group.rs:205-223 | a step keeps "events name registered connections" if and only if it does not take out a connection with such an event |
| GroupTraces.ClosedTwice | crates/poll/src/conn.rs:237 | a run in which `Closed` of one connection was polled and is ready again |
| GroupTraces.DeadTokenIsNamed | crates/poll/src/group.rs:205-223 | a run in which an event names a token that is gone |
| GroupTraces.GuardTakenInTheGap | crates/poll/src/group.rs:98-99 | a run after which the pending `deregister` would take a connection out from under a guard |
| GroupObjects.Group.Lock | crates/poll/src/group.rs:28-43 | refused, granted or not found; otherwise a step of the state machine |
| GroupObjects.Group.DropGuard | crates/poll/src/group.rs:75-101 | the drop of a guard is the release step; if that leaves the connection closed, the removal from `conns` and that from `scids` follow as steps of their own |
| GroupObjects.Group.RecvLock | crates/poll/src/group.rs:112-134 | the lock for an incoming packet; when busy the unparker is left behind |
| GroupObjects.TakenTokens | crates/poll/src/group.rs:163-170 | the tokens passed by the wrapping search are distinct, so at most as many as connections live |
| GroupObjects.Group.NextFree | crates/poll/src/group.rs:163-170 | with fewer than 2^32 connections the search ends, on the first free token from `token_next` on |
| GroupObjects.Group.Register | crates/poll/src/group.rs:160-201 | the registration step: fresh token, fresh source id, one read lock taken and released |
| GroupObjects.Group.Deregister | crates/poll/src/group.rs:205-223 | the two steps of a removal, explicit or automatic, whether guards are outstanding or not |
| GroupObjects.Group.Close | crates/poll/src/group.rs:233-239 | the close step; Ok means the close is carried out or noted |
| GroupObjects.Group.StreamOpen | crates/poll/src/group.rs:243-254 | the open step and its reply |
| GroupObjects.Group.StreamShutdown | crates/poll/src/group.rs:258-264 | the stream close step; Ok means carried out or noted |
| GroupObjects.SendUseIsDue | crates/poll/src/group.rs:394-428 | nothing is called while the release time is more than 250 microseconds ahead; else timeouts are served and one packet asked for, and "done" is reported exactly if the library has nothing to send |
| GroupObjects.Group.UseToSend | crates/poll/src/group.rs:394-428 | between lock and drop: the same, of the library's replies, the guard and the state of the group |
| GroupObjects.Group.Poll | crates/poll/src/group.rs:367-374 | a poll is the polling step, with the events handed out as a batch without duplicates |
| ReadEvents.UnlockRaisesNoRead | crates/poll/src/conn.rs:545-561 | a release whose ledger has no read lock raises no `ReadLock` event |
| ReadEvents.StepRaisesNoRead | crates/futures/src/lib.rs:151-153 | no step of a group raises one |
| Futures.State.WakeOne | crates/futures/src/lib.rs:169-176 | the registered task is woken and unregistered, others are left alone |
| Futures.State.CloseConn | crates/futures/src/lib.rs:179-193 | every task of the connection is woken once, its incoming streams are dropped |
| Futures.State.DispatchOne | crates/futures/src/lib.rs:131-153 | the effect of each kind of event |
| Futures.State.RunOnce | crates/futures/src/lib.rs:122-153 | a batch is dispatched event by event |
| Futures.State.RegisterWaker | crates/futures/src/lib.rs:378-383 | the waker replaces the former one of its slot |
| Futures.State.TryAccept | crates/futures/src/lib.rs:308-343 | hands out the oldest announced stream, or leaves the waker |
| Futures.State.TryAcceptConn | crates/futures/src/lib.rs:782-802 | hands out the oldest new connection, or leaves the waker |
| Futures.State.TryEstablished | crates/futures/src/lib.rs:287-304 | consumes the mark of an established connection, or leaves the waker |
| Futures.State.ShutdownStream | crates/futures/src/lib.rs:563-580 | wakes who sends and who receives on the stream |
| Futures.DispatchWakesExactly | crates/futures/src/lib.rs:131-253 | an event wakes exactly the registered tasks it is for, each once, and unregisters them; all others stay registered |
| Futures.DispatchQueuesExactly | crates/futures/src/lib.rs:196-211 | `Connected` marks the connection, `Accept` queues it and wakes a waiting listener, no other event does either |
| Futures.DispatchIncoming | crates/futures/src/lib.rs:179-239 | `StreamAccept` appends to the incoming streams of its connection, `Closed` drops them, no other event touches them |
| Futures.BatchInOrder | crates/futures/src/lib.rs:129-153 | a batch is dispatched from its front |
| Futures.ShutWakesExactly | crates/futures/src/lib.rs:563-580 | the shutdown of a stream wakes its sender and its receiver, and nobody else |
| Futures.RegisterExactly | crates/futures/src/lib.rs:378-383 | registering touches one slot, in which the new waker replaces the old one |
| Futures.UnregisterExactly | crates/futures/src/lib.rs:393-395 | unregistering empties one slot and touches no other |
| Futures.TakenInOrder | crates/futures/src/lib.rs:287-343 | streams and connections are handed out oldest first, an establishment once; a waker is left exactly if there is nothing |
| Systems.DispatchHub | crates/futures/src/lib.rs:122-253 | dispatching an event keeps each task registered or wakes it, and wakes those it is for |
| Systems.GroupStepPromise | crates/poll/src/conn.rs:414-563 | every step of the group keeps every promise made to a refused task, even when the connection closes or is deregistered in it |
| Systems.TryOpenPromises | crates/poll/src/conn.rs:243-272 | an open that returns Busy or Retry leaves its request in the ledger or its event in the queue |
| Systems.TryRecvPromises | crates/poll/src/conn.rs:173-206 | a receive that finds the lock taken leaves its request in the ledger |
| Systems.StepKeepsTasks | crates/futures/src/lib.rs:358-408 | every step of tasks, group and dispatch loop keeps every task covered |
| SystemRuns.NoStrandedTask | crates/futures/src/lib.rs:358-408 | over all runs a task left pending in `open` or `recv` was woken since its poll began, or its waker is registered and its request is in the ledger, or its event or `Closed` is queued or in a polled batch |
| SystemRuns.AtRestOnlyCreditIsAwaited | crates/futures/src/lib.rs:358-408 | over all runs, with all locks free, nothing ready and nothing to dispatch, each task left waiting was woken or waits to open a stream on an open connection without credit |
| SystemRuns.ReleaseAnswers | crates/poll/src/conn.rs:414-563 | the next release queues an event that answers a task whose request is in the ledger, unless it waits to open a stream and the release leaves no credit |
| SystemRuns.PollHandsOut | crates/poll/src/readiness.rs:40-71 | the next poll hands that event out |
| SystemRuns.DispatchWakes | crates/futures/src/lib.rs:122-176 | its dispatch wakes the task |
| Arrivals.StepKeepsArrivals | crates/futures/src/lib.rs:196-343 | every step keeps: who was left waiting for an arrival was woken since, or is registered with nothing to take |
| SystemRuns.NoArrivalIsMissed | crates/futures/src/lib.rs:287-343 | over all runs, who was left waiting for an establishment, a stream or a connection was woken since, or is registered and there is none to take |
| SystemRuns.PolledCanBeDispatched | crates/futures/src/lib.rs:131-153 | over all runs what is polled is `Send`, `Recv` or an event the dispatch loop handles: its `unreachable!` arm never runs |
| Accepts.StepConserves | crates/futures/src/lib.rs:229-239 | every step keeps the books of announced streams |
| SystemRuns.AcceptsAreConserved | crates/futures/src/lib.rs:308-343 | over all runs an announced stream is in exactly one place: queued, in a batch, incoming, handed out or discarded by a close; one not announced is in none |
| SystemRuns.NoStreamIsHandedOutTwice | crates/futures/src/lib.rs:308-343 | over all runs `accept` hands out a stream at most once, and only remote announced ones |
| RingBuffer.CellIsRemainder | crates/ringbuff/src/ringbuf.rs:141-180 | the cell of a cursor, found lap by lap, is its remainder modulo the capacity |
| RingBuffer.SplitExact | crates/ringbuff/src/ringbuf.rs:141-180 | the ranges list the cells `(pos + i) % capacity` in order, for every i below the size |
| RingBuffer.ReadableAndWritablePartition | crates/ringbuff/src/ringbuf.rs:141-180 | each cell of the block is in exactly one of the full readable and full writable ranges |
| RingBuffer.WriteAppends | crates/ringbuff/src/ringbuf.rs:83-109 | a write appends exactly the longest prefix that fits |
| RingBuffer.ReadRemoves | crates/ringbuff/src/ringbuf.rs:55-80 | a read removes exactly the oldest bytes |
| RingBuffer.FillThenCommitIsWrite | crates/ringbuff/src/ringbuf.rs:112-139 | filling the lent slice and advancing the cursor gives the contents and cursors of a copying write |
| RingBuffer.SliceThenConsumeIsRead | crates/ringbuff/src/ringbuf.rs:112-139 | the lent slice is the head of the contents, and consuming from it is a copying read |
| RingBuffer.TwoRoundsEmpty | crates/ringbuff/src/ringbuf.rs:213-226 | fetching and consuming twice empties the ring, and the two slices concatenate to the contents |
| RingBuffer.TwoRoundsFill | crates/ringbuff/src/ringbuf.rs:112-139 | filling and advancing twice fills the ring, and appends the two pieces |
| RingBuffer.ApplyIsFifo | crates/ringbuff/src/ringbuf.rs:45-139 | each call, copying or not, is a step of a bounded queue, and readable plus writable is the capacity |
| RingBuffer.RunIsFifo | crates/ringbuff/src/ringbuf.rs:45-139 | over any mixed run what came out followed by what is buffered is what was there followed by what went in |
| RingBuffer.RingBuf.Read | crates/ringbuff/src/ringbuf.rs:55-80 | the caller's buffer starts with the oldest bytes and is otherwise untouched |
| RingBuffer.RingBuf.Write | crates/ringbuff/src/ringbuf.rs:83-109 | the block and cursors afterwards, across the wrap |
| RingBuffer.RingBuf.ReadableBuf | crates/ringbuff/src/ringbuf.rs:118-122 | the slice lent out is a prefix of the contents, empty exactly if nothing is readable |
| RingBuffer.RingBuf.WritableBuf | crates/ringbuff/src/ringbuf.rs:112-116 | the slice lent out is at the write cursor, empty exactly if the ring is full |
| RingBuffer.RingBuf.ReadableConsume | crates/ringbuff/src/ringbuf.rs:124-130 | consumes within the readable length; the block is untouched |
| RingBuffer.RingBuf.WritableConsume | crates/ringbuff/src/ringbuf.rs:133-139 | commits within the writable length; the block is untouched |
| Pipes.RawRingBufPipe.Close | crates/ringbuff/src/pipe.rs:59-70 | closed, and both parked sides woken |
| Pipes.RawRingBufPipe.Read | crates/ringbuff/src/pipe.rs:72-89 | delivers the oldest bytes, wakes the writer; BrokenPipe when closed and nothing was read |
| Pipes.RawRingBufPipe.Write | crates/ringbuff/src/pipe.rs:91-109 | refuses when closed, else accepts what fits and wakes the reader |
| Pipes.RawRingBufPipe.PollRead | crates/ringbuff/src/pipe.rs:111-131 | as read, but parks on an open pipe and returns 0 on a closed one |
| Pipes.RawRingBufPipe.PollWrite | crates/ringbuff/src/pipe.rs:133-153 | as write, but parks when full and returns 0 when closed |
| Pipes.SoundUnlessEmptyPoll | crates/ringbuff/src/pipe.rs:59-153 | a call keeps "parked only without possible progress" if and only if it is not a poll that parks although progress is possible, which takes an empty buffer |
| Pipes.NeverBothParked | crates/ringbuff/src/pipe.rs:59-153 | reader and writer are never parked together |
| Pipes.WakesExactlyOnProgress | crates/ringbuff/src/pipe.rs:59-153 | every call that lets a parked side progress wakes it; no other call wakes anybody, unless its buffer is empty |
| Pipes.EndOfStreamExactly | crates/ringbuff/src/pipe.rs:72-131 | with a non-empty buffer, end of stream is returned if and only if the pipe is closed and drained |
| Pipes.ServeAnswers | crates/ringbuff/src/pipe.rs:59-153 | every call moves as many bytes as fit, the count it answers is the number of bytes moved, and when it answers BrokenPipe or is pending |
| Pipes.ServeWakes | crates/ringbuff/src/pipe.rs:59-153 | whom every call wakes, in order, and whom it leaves parked |
| Pipes.ServeConserves | crates/ringbuff/src/pipe.rs:72-153 | each call, with any buffer, keeps "delivered, then buffered, is accepted", and accepts nothing once closed |
| Pipes.StepKeepsInv | crates/ringbuff/src/pipe.rs:37-57 | every step of every thread around the spin lock keeps the invariant |
| Pipes.PipeSafety | crates/ringbuff/src/pipe.rs:37-153 | over all runs: one thread in the body, stream integrity, no premature end of stream; and, unless some poll had an empty buffer, no side parked with progress possible and never both |
| Pipes.ParkedReaderIsWoken | crates/ringbuff/src/pipe.rs:91-131 | over all runs a parked reader is woken, or still parked on an open pipe, which is empty unless some poll had an empty buffer |
| Pipes.ParkedWriterIsWoken | crates/ringbuff/src/pipe.rs:72-153 | over all runs a parked writer is woken, or still parked on an open pipe, which is full unless some poll had an empty buffer |
| Pipes.ClosedAcceptsNothing | crates/ringbuff/src/pipe.rs:91-153 | nothing is accepted after close |
| RetryToken.BigEndianInverts | crates/api/src/acceptor.rs:59-65 | decoding the encoded timestamp gives it back |
| RetryToken.FromBigEndianInverts | crates/api/src/acceptor.rs:105-107 | encoding the decoded octets gives them back |
| RetryToken.FirstOctetWeighsMost | crates/api/src/acceptor.rs:105-107 | the first octet of the timestamp is the most significant one |
| RetryToken.MintRetryToken | crates/api/src/acceptor.rs:45-81 | the token is address, timestamp, original id, digest |
| RetryToken.ValidateAddress | crates/api/src/acceptor.rs:83-136 | the verdict of each early return, and the id returned on success |
| RetryToken.RoundTrip | crates/api/src/acceptor.rs:45-136 | a minted token, presented with the new id from the same address not before its second and within the expiry, yields exactly the original id |
| RetryToken.TokenIsBoundToAddress | crates/api/src/acceptor.rs:90-103 | from another address of the same family a token is rejected, at any time and with any id |
| RetryToken.FutureExactly | crates/api/src/acceptor.rs:95-115 | the subtraction panics if and only if the token is long enough, begins with the address and bears a later timestamp |
| RetryToken.FutureTokenPanics | crates/api/src/acceptor.rs:113 | for every validator, address and digest there are such tokens |
| RetryToken.AcceptsExactlyMinted | crates/api/src/acceptor.rs:83-136 | a token is accepted with an id if and only if it is the token minted for that id at a time not in the future and not expired |

## Left out

- The library connection (TLS, packets, flow control) is an arbitrary schedule of replies; that
  stream credits grow only while packets are received and that a closed connection stays closed
  is assumed of it.
- The I/O layer over sockets (crates/mio) and its bounded send queue; it appears as the
  environment that tries `send` once for each polled `Send` and keeps `Recv` to itself.
- Version negotiation, handshake plumbing and configuration in crates/api; crates/fixedbuf.
- The digest is an arbitrary function; unforgeability and randomness are out of scope.
- `stream_send`, `stream_recv` and `recv_with_acceptor` of the group are the steps lock, use,
  release, and are not methods of their own; their Retry results depend on the library only.
- Tasks waiting in the `send` of a stream: whether the library reports such a stream writable
  is up to the library, so nothing is claimed for them; likewise a `recv` answered with Retry.
- The shutdown path: `stopped` is read but never set, and `stop` wakes everybody.
- The `unwrap` on a waker map that a `Closed` dispatch may have removed in between
  (crates/futures/src/lib.rs:395); the model drops the entry if it is there.
- Several tasks waiting in one event slot; each slot keeps one waker, the last one.
- What a guard does to a connection that was taken out from under it: the guard is counted
  (`orphans`), its further use is not modelled, and runs exclude the step that leads there. In
  runs of the two layers together nobody deregisters explicitly.
- GroupObjects.Group.Register: supposes a source id that neither a registered connection has nor
  one whose `scids` entry is still to be removed, as the assertion of the source demands.
- Reuse of tokens: the conservation of accepted streams is stated for runs that do not give
  out the token of a connection that is gone; in runs of the two layers no token is given out
  while a `deregister` of it is pending.
- SystemRuns.NoStrandedTask: says nothing on when the next release or poll happens.
- The time at which a `Send` is due is what the library says at the release; the clock is a
  parameter of each step and need not even be monotone.
- Lock counts and stream ids are unbounded here; the source counts in 64 bits.
- RingBuffer.RingBuf.Write: the read cursor plus the capacity must stay below 2^64, where the
  source adds them; the other cursor arithmetic has the same bound.
- `priority_queue` appears as a map with a least-deadline peek.
- Memory safety of the unsafe blocks, weak memory orders, panics while a lock is held.
- Logging, formatting, error conversion, the zero-copy `AsyncBufRead` plumbing.
