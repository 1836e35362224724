# Agorabus: a verified model

Agorabus is a local message bus: a daemon that keeps who is present, who owns which session, who holds which
claim on a path, and what each session says it is working on; it passes published messages on to subscribers, keeps
part of its state in a journal across restarts, and can be joined to other daemons by a relay. This project models
the daemon as a state machine over the steps of all its tasks, the relay network, the client protocols that rest on
it, and the derived views, and proves what they keep over every run.

## How the model is laid out

- `Protocol.dfy` — messages, records, replies: the decoded values.
- `BusModel.dfy` — the four maps behind the daemon's lock and what each handler does while it holds it (`Critical`).
- `Daemon.dfy` — the machine: connections, the bounded broadcast channel with one cursor for each subscriber, the
  64-slot signal queue, the debounced journal writer, the shutdown sequence, restart. An action is one step of one
  task; clock sampling, the critical section, the signal, the broadcast and the reply of one handler are separate
  actions, so they interleave with every other task's. `Run` is any sequence of enabled actions from any boot.
- `Handlers.dfy`, `Connections.dfy`, `Persist.dfy` — the same code in its own imperative form: `BusState` with its four
  maps updated in place, the channel, the signal queue, a connection's own variables, the connection loop, the persist
  task and the state file. Their methods are proved to end where the machine's own steps end, with other tasks' steps
  wherever they wait.
- `Durability`, `Shutdown`, `Shape`, `Exclusion`, `Replay`, `LazyExpiry`, `Ownership`, `Guests`, `Records`, `Delivery`,
  `Subscriptions`, `Grammar`, `Turns`, `Presence`, `Listing`, `Intents` — the theorems about every run of the machine.
- `Scenes.dfy` — runs from a fresh boot that reach the exceptions.
- `Uplink.dfy` — N daemons joined by an echoing, lossy broadcast.
- `ClaimGuard.dfy`, `Backoff.dfy`, `Reconnect.dfy` — the auto-renewed lease and the reconnecting subscriber.
- `Fleet.dfy`, `Reload.dfy` — the store of remote peers and the one-command bounce; `Sorting.dfy` — insertion in order.

Fields marked *history* (lines read, hops of a cursor, stamps on relayed messages, `ioOk`) are never consulted by
a step; they let a theorem speak of the past.

## Where the obvious statement is false

- A peer pruned as stale keeps its owner, so it does not come back by a heartbeat (`Ownership.PrunedStaysPruned`).
- A task that leaves through a failed write or an error reply skips its cleanup; its session stays owned for the
  daemon's life. A session is freed if and only if its owner's loop broke (`Ownership.FreedIffBroke`).
- Journal and memory differ by expired claims, which are pruned without a signal, so agreement is up to expiry.
- Pruning at a sample from before the lock is observable as soon as two samples commit out of order: it is
  unobservable exactly for ordered ones (`LazyExpiry.PruningUnobservableIffOrdered`), and a run reaches disorder
  (`Scenes.DisorderHappens`).
- From every state of a shutdown its end stays in reach, but a final flush that failed is not tried again unless a signal is still queued or the writer
  still at work (`Shutdown.NeverWedges`, `Shutdown.FailedFlushIsFinal`).
- `claim.acquire` is broadcast after the unlock, so one broadcast can overtake another and leave an observer naming the
  evicted session (`Scenes.ReplayCanMislead`). As long as broadcasts leave in commit order the replay is right, however
  the operations overlap (`Replay.ClaimReplay`); of two that are swapped it is right exactly under the condition of
  `Replay.OvertakingIsRightIff`.
- The lease of a guard can be found expired although it renews at two thirds of its time, exactly when truncation,
  two requests, the oversleep and the interval do not fit in the lease (`ClaimGuard.NeverExpiredIffSustainable`): with
  whole seconds and no delay at all a TTL of 1 or 2 seconds is not enough.
- The saturating backoff window equals the documented one exactly under the condition of `Backoff.WindowIsDocumentedIff`.
- A dry run and a skipped build report `Reloaded` too, and a peers query that failed before a bounce makes the
  bounce count as whole (`Reload.UnansweredIsWhole`).

Where code and documentation disagree, the code is followed:

- the header of `src/reconnect.rs` says that the backoff exponent resets after a session that survived `cap_ms`; the
  code resets it at every handshake, and the later reset finds it zero already (`Reconnect.Subscriber.Serve`);
- `merge_peers` says that a remote record of the same session on the same node yields to the local one; local records
  usually carry no node, and then the keys differ and both are listed (`Fleet.UntaggedLocalsHideNothing`);
- `src/protocol.rs` speaks of an `unknown_op` error; the daemon answers an unknown operation with `malformed_json`.

## Assumptions

Within a run the daemon's clock, in whole UNIX seconds, does not run back; two tasks may still commit their samples in
any order. Counters the model leaves unbounded: connection ids (u64, they would have to wrap) and UNIX seconds. The
channel's `capacity` is the one in effect. Locks, queues and the channel behave as their libraries promise.

## Model

| member | source | states |
|---|---|---|
| Durability.JournalAgreement | src/daemon.rs:206-227 | in every interleaving, unless the last journal operation failed: a signal is queued or due, or the writer is at work, or journal and memory agree up to expired claims; no more than 64 signals are queued, a full queue loses no update, and a copy about to be saved is current or a signal is outstanding |
| Durability.ShutdownDurability | src/daemon.rs:297-324 | when the daemon has stopped, the journal equals final memory up to expiry, even where the writer overwrote the final flush with an older copy |
| Durability.RestartRestores | src/daemon.rs:197-203 | a graceful restart brings back every intent and exactly the unexpired claims, and no peers or owners |
| Durability.UnsignalledChangesAreExpiry | src/daemon.rs:486-814 | a critical section that asks for no signal changes the durable slice by nothing but expiry |
| Durability.Always | src/daemon.rs:206-324 | the invariant behind the three above, in every reachable state |
| Shutdown.NeverWedges | src/daemon.rs:278-325 | from every reachable state past the drain notice, at most 8 steps for each connection and 76 besides, all of them always possible, end the daemon with the journal equal to memory up to expiry, unless the final flush had failed already and nothing was left to make the writer save again |
| Shutdown.SomethingHelps | src/daemon.rs:278-325 | in every state of a shutdown some enabled step lowers the measure |
| Shutdown.FailedFlushIsFinal | src/daemon.rs:310-322 | that exception is final: no later step of the daemon changes the journal |
| Shape.Always | src/persist.rs:51-57 | in every reachable state, restarts included, claims are filed under their own path, records under their own session, and neither memory nor journal holds an empty intent or one over 8 paths |
| Shape.CriticalKeepsShape | src/daemon.rs:585-643 | every critical section keeps that shape |
| Exclusion.ClaimExclusion | src/daemon.rs:687-795 | below a claim's expiry its session goes on holding the path through any interleaving, any order of samples, any disconnects and graceful restarts, unless it gave the claim up or shortened it, was evicted by force, or a restart found no good journal |
| Exclusion.TakeoverHasACause | src/daemon.rs:687-795 | a holder gone or replaced before its time proves that one of those steps happened |
| Exclusion.CriticalKeepsClaim | src/daemon.rs:695-738 | no critical section of another kind removes or shortens a live claim |
| Replay.ClaimReplay | src/daemon.rs:717-795 | while broadcasts on a path are made in the order of their commits, however many are due at a time, folding the bus in order rebuilds the holder and expiry of the path, through any number of graceful restarts, as soon as the broadcasts still due are counted |
| Replay.ApartIsInTurn | src/daemon.rs:717-795 | claim operations that do not overlap broadcast in that order |
| Replay.OperationIsAnnounced | src/daemon.rs:717-795 | whatever is still due before it, the events of one operation, its eviction ahead of them all, carry its whole effect on the path |
| Replay.EventsSay | src/daemon.rs:717-791 | what each claim event says and when there is one: a granted acquire with path, session, TTL and reason, after the release of a live holder it forces out; a release that released; nothing else |
| Replay.OtherOperations | src/daemon.rs:687-804 | an operation on another path neither moves this one nor says anything about it |
| Replay.OvertakingIsRightIff | src/daemon.rs:743-756 | wherever two broadcasts on a path are due, the later may be made first, and then the observer is right if and only if: two acquires say the same or have both expired; an acquire and a release are of different sessions or the acquire has expired; two releases, always |
| Replay.SwapIsRightIff | src/daemon.rs:743-756 | the same of any two events heard in the wrong order |
| Replay.RaceCommits | src/daemon.rs:717-746 | a plain and a forced acquire in a row: the second holds the path, one eviction is on the bus, both broadcasts are due |
| Replay.LoserBroadcastsLast | src/daemon.rs:743-756 | the evicted acquirer may broadcast last |
| Replay.OverlapMisleads | src/daemon.rs:743-756 | an instance: then every observer names the evicted session although the other one holds the path |
| Scenes.ReplayCanMislead | src/daemon.rs:743-756 | a run from a fresh boot, without a publish or a restart, that ends with no broadcast due and an observer who is wrong |
| Scenes.RaceIsReachable | src/daemon.rs:687-698 | from a fresh boot two connections come to wait for the same free path, one of them by force |
| LazyExpiry.DaemonRefinesLeaseTable | src/daemon.rs:127-129 | in a run whose claim samples commit in order, restarts from a good journal included, every acquire, release and list reply is that of a table, defined on its own, that never deletes on expiry and filters when asked |
| LazyExpiry.CommittedAreOrdered | src/daemon.rs:198-204 | boots need no assumption: no sample from before a boot is worked with after it |
| LazyExpiry.PruningUnobservableIffOrdered | src/daemon.rs:695-804 | replies agree for every table and all operations if and only if the samples never run back |
| LazyExpiry.OrderedIsUnobservable | src/daemon.rs:695-804 | the one direction, from any two tables equal up to expiry |
| LazyExpiry.DisorderShows | src/daemon.rs:796-804 | the other: a table and lists that tell the difference for any sample that runs back |
| Scenes.DisorderHappens | src/daemon.rs:796-804 | a run from a fresh boot in which two lists commit in reverse of their samples and the second hides a claim that by its sample is live |
| LazyExpiry.CommittedAreEager | src/daemon.rs:687-804 | the replies a stretch of a run decides on, restarts included, are those of the pruning table alone, so nothing but claims influences them |
| LazyExpiry.CriticalIsEager | src/daemon.rs:687-804 | and so for each handler |
| Ownership.Always | src/daemon.rs:516-556 | every peer has an owner, the owner carries that session and has not cleaned up, no connection owns two sessions, keys are session ids |
| Ownership.OwnersMove | src/daemon.rs:467-476 | an owner changes only when a free session is announced or by the owner's own cleanup |
| Ownership.OwnedUntilCleanup | src/daemon.rs:467-476 | at any later point of the same daemon an owner still owns its session or has been through its cleanup |
| Ownership.FreedIffBroke | src/daemon.rs:400-476 | once the owner's task has ended, the session is free if and only if its loop broke |
| Ownership.PrunedStaysPruned | src/daemon.rs:679-681 | a pruned peer does not return until its owner's cleanup |
| Ownership.GuestsLeaveNoTrace | src/daemon.rs:527-551 | guest announces and disconnects by themselves leave the whole bus state as it was |
| Guests.GuestsCanBeLeftOut | src/daemon.rs:527-561 | any run, with others at work and any number of connections that only announce owned sessions, and the same run in which those connections come and go without a word: at every point the whole bus, journal, log and every other connection is the same |
| Ownership.SessionIsForGood | src/daemon.rs:553-565 | a connection's session never changes once set, and an ended task stays ended |
| Records.OthersAreUntouched | src/daemon.rs:486-814 | a handler leaves other sessions' owner, intent and record alone, except to prune a stale record |
| Records.OthersKeepTheirClaims | src/daemon.rs:695-738 | a handler takes another session's live claim only by force, and not without an eviction event |
| Records.EpochBeginsAsAnnounced | src/daemon.rs:533-551 | a new record is exactly what the announce said, with no tool and no intent set, owned by the connection that sent it |
| Records.IdentityIsFixed | src/daemon.rs:571-656 | within an epoch session, pid and node of a record never change, and an unsupplied directory, intent or tool stays |
| Records.LastUpdateWins | src/daemon.rs:571-605 | directory and intent are those of the last update that supplied them, the tool that of the last heartbeat that named one |
| Delivery.OrderedDelivery | src/daemon.rs:405-418 | in every run the events sent are those of an unbroken walk along the broadcast log from the first Subscribe to the cursor, each message at most once and in order, kept if the prefixes in force at its receive want it |
| Delivery.EveryMessageOnce | src/daemon.rs:405-418 | between start and cursor every message was either taken exactly once, before the channel overwrote it, or skipped exactly once, after |
| Delivery.MatchesWhatIsWanted | src/daemon.rs:828-835 | a topic matches if and only if there are no prefixes or the topic is some prefix followed by something or nothing |
| Delivery.WithoutLagIsFilter | src/daemon.rs:828-835 | without lag and with fixed prefixes the events are exactly the matching part of the log |
| Delivery.CursorIsNeverReset | src/daemon.rs:659-673 | later Subscribes only ever continue the walk |
| Subscriptions.ReceiveSends | src/daemon.rs:405-418 | one receive to the letter: past an overwritten window to the oldest message left; else one message further, with one event of its topic, payload and sender if the prefixes asked for want it, and the task lost if the socket fails |
| Subscriptions.PrefixesAreAsked | src/daemon.rs:659-668 | in every reachable state the prefixes in force are those of the Subscribe lines read |
| Subscriptions.AskedAre | src/daemon.rs:666-668 | all of them, past the first line, and no other |
| Subscriptions.AskedOnce | src/daemon.rs:666-668 | and each once |
| Subscriptions.BeginsAtFirstSubscribe | src/daemon.rs:669-671 | a subscriber begins at the end of the log as it stands when its first Subscribe is read, and by no other step |
| Subscriptions.PublishIsSent | src/daemon.rs:644-650 | a publish puts its own topic and payload on the bus, from its session, when its line is read |
| Subscriptions.PublishReachesSubscriber | src/daemon.rs:405-418 | end to end: without lag and with fixed prefixes, a subscriber standing before a publish is sent it if and only if its prefixes want it, once, as published, in its place |
| Subscriptions.DrainIsTold | src/daemon.rs:419-431 | a connection that takes the drain signal gets the notice with the configured hint exactly if subscribed and its socket takes it, and writes nothing after |
| Grammar.OutputGrammar | src/daemon.rs:380-465 | in every run one reply to each nonblank line, in order and of its kind; nothing after an error that closes; events only after a Subscribe reply; a drain notice only last, on a subscribed connection; the session is the one first announced |
| Grammar.CriticalAnswers | src/daemon.rs:567-811 | every critical section decides on a reply of the right kind, none of the two that close |
| Turns.SampledWhenRead | src/daemon.rs:675-799 | a handler's line was read by its connection's last step before, and Peers and the claim handlers work with the clock of that moment, all others with the clock under the lock |
| Turns.DecidedIsWritten | src/daemon.rs:567-811 | the reply decided under the lock is the next one written |
| Presence.TimestampIsLastTouch | src/daemon.rs:571-778 | a record's timestamp is that of the session's last touch in this daemon's life |
| Presence.ListedWasTouched | src/daemon.rs:674-686 | whoever is listed was touched no longer than the timeout before the query's sample |
| Presence.ListedIffFresh | src/daemon.rs:674-686 | while its owner stays, a session that was listed is in the reply to a query if and only if neither that query nor any before it found its last touch more than the timeout before the query's sample |
| Presence.KeptIffNeverFoundStale | src/daemon.rs:679-681 | and its record is there if and only if no query since found it stale |
| Presence.SteadyIsListed | src/daemon.rs:674-686 | a session whose touches are never further apart than the timeout, nor its last one from a query after it, is in every reply until its owner's cleanup, for queries that commit in the order of their samples with later touches |
| Listing.ReplyIsTheTable | src/daemon.rs:678-685 | a peers reply is, record for record, the table the query leaves, whose records it has not altered |
| Listing.ListedAsTouched | src/daemon.rs:678-685 | a listed record carries its session's last touch and the identity of its epoch |
| Listing.ListedAsUpdated | src/daemon.rs:571-581 | and the directory and intent last supplied by an update |
| Listing.ListedAsBeaten | src/daemon.rs:600-623 | and the tool, skill, slug and paths last supplied by a heartbeat |
| Intents.LastSuppliedWins | src/daemon.rs:585-643 | within an epoch each of skill, slug and paths is the last value an accepted heartbeat supplied, from any connection of the session |
| Intents.Unsupplied | src/daemon.rs:606-623 | a field nobody supplies keeps its value, so a rejected heartbeat changes nothing |
| Intents.EpochBeginsBlank | src/daemon.rs:534-550 | an epoch begins with no intent in the record |
| Intents.MoveIsMirrored | src/daemon.rs:606-641 | only a heartbeat of the session moves the three intent fields of its record; right after, the durable entry has the same three fields, or is absent if all are blank, and the writer is to be signalled |
| Intents.MirrorsFromFirstChange | src/daemon.rs:624-636 | from the epoch's first step that moves the record's intent on, the durable entry mirrors the record field by field, absent if blank |
| Intents.OlderIntentStaysUntilChange | src/daemon.rs:624-636 | as long as the record's intent does not move, the entry keeps what an earlier epoch or the journal left |
| Handlers.BusState.FromDurable | src/daemon.rs:116-123 | boot state: intents whole, claims unexpired, no peers |
| Handlers.BusState.PruneExpiredClaims | src/daemon.rs:127-129 | keeps exactly the claims that expire later |
| Handlers.BusState.Announce | src/daemon.rs:527-551 | in place, the specification of an announce |
| Handlers.BusState.Update | src/daemon.rs:571-581 | in place, the specification of an update |
| Handlers.BusState.Heartbeat | src/daemon.rs:599-637 | field by field in place, the specification of a heartbeat, and whether the intent changed |
| Handlers.BusState.Touch | src/daemon.rs:740-742 | in place, the timestamp of a present record |
| Handlers.BusState.ListPeers | src/daemon.rs:675-683 | in place, the stale are pruned and the rest listed |
| Handlers.BusState.Acquire | src/daemon.rs:693-743 | in place, the specification of an acquire: conflict, eviction event under the lock, new record, touch |
| Handlers.BusState.Release | src/daemon.rs:764-779 | in place, the specification of a release |
| Handlers.BusState.ListClaims | src/daemon.rs:797-801 | in place, the specification of a list |
| Handlers.BusState.Leave | src/daemon.rs:470-476 | in place, the record goes with its owner only |
| Handlers.Connection.Serve | src/daemon.rs:567-811 | lock, mutate, unlock, signal, broadcast: the objects end as `Critical` says, signal dropped when the queue is full |
| Handlers.Connection.UnderLock | src/daemon.rs:567-811 | the critical section alone: state, events sent under the lock, what is still to be signalled and broadcast, and the reply are those of `Critical` |
| Handlers.Connection.HandleLine | src/daemon.rs:486-814 | a line ends where the machine's steps for it end, for every kind of line, with any steps of other tasks while it waits for the lock, between unlock, signal and broadcast, and while it waits to write |
| Handlers.ServedIsARun | src/daemon.rs:486-814 | what a line comes to, with what others did at its pauses, is a sequence of enabled steps of the machine |
| Handlers.ServedLocked | src/daemon.rs:571-804 | the whole effect of a line that takes the lock: state, channel, signals, reply |
| Handlers.CommittedWhole | src/daemon.rs:687-795 | the same from the lock on, up to the reply |
| Connections.HandleConnection | src/daemon.rs:363-479 | the loop of a connection, its break and its cleanup refine the machine, with any steps of other tasks between its turns and within them |
| Connections.MetAllIsARun | src/daemon.rs:380-476 | whatever a connection meets and others do in between is a run of the machine |
| Connections.TakeMessage | src/daemon.rs:405-418 | one receive: a jump if overtaken, else passed on if it matches, else the task is lost if the socket fails |
| Connections.Part | src/daemon.rs:419-476 | the drain notice on subscribed connections only, then, after the wait for the lock, the cleanup |
| Connections.FlushIsARun | src/daemon.rs:215-227 | one turn of the writer is a sequence of enabled steps that serves every queued signal with one write |
| Connections.Flush | src/daemon.rs:215-227 | empties the queue and writes the current slice |
| Connections.RunOut | src/daemon.rs:216-227 | with nobody left to signal, the writer takes one turn if a signal is queued and then ends |
| Connections.Stop | src/daemon.rs:310-322 | each save failing or not on its own, the journal ends equal to memory up to expiry whenever the last save tried succeeds, whatever older copy the writer still held and whichever save came last |
| Persist.StateFile.Save | src/persist.rs:96-126 | temporary file, chmod and rename, any of which may fail: after every step the path holds the old content and mode or the new state at mode 0600, never goes back, and holds the new one exactly if the save succeeds |
| Persist.InterruptedSaveIsWhole | src/persist.rs:69-126 | a daemon killed at any moment of a save starts from the old state or the new |
| Persist.LoadInvertsSave | src/persist.rs:69-85 | a readable load gives back what was saved, and an empty state exactly where there is no file, one that does not parse, or an empty one |
| Uplink.NoLoopNoAmplification | src/uplink.rs:276-310 | for any names and any loss: each local message is put on the transport at most once and in order, each node gets it at most once and in order with its topic and payload, and nothing comes back to its own bus |
| Uplink.ExactlyOnceIffNamesDiffer | src/uplink.rs:300-302 | with nothing lost, a drained network has carried exactly another node's local messages, once each and in order, if names differ up to ASCII case, and none if they do not |
| Uplink.ExactlyOnceForDistinctNames | src/uplink.rs:300-302 | for names without ASCII capitals, as configuration leaves them: exactly once each if the names are different strings, none if equal |
| Uplink.SameNameIsCaseBlind | src/uplink.rs:300-302 | the self-echo test is blind to the case of ASCII letters and to nothing else |
| Uplink.DrainsInBoundedSteps | src/uplink.rs:276-310 | every step but a publish uses up a measure that bounds the steps still possible |
| Uplink.PublishCosts | src/uplink.rs:276-310 | one publish adds 2N + 1 to it |
| Uplink.SubjectRoundTrips | src/uplink.rs:281-297 | a topic's subject is `wm.bus.` and the topic; mapping back is the identity, and no other subject maps to it |
| Uplink.Always | src/uplink.rs:276-310 | bus entries are local or copies of another node's local message, in every reachable state |
| Uplink.Relay.TakeLocal | src/uplink.rs:278-294 | in place, a local message goes out once, one from the uplink nowhere |
| Uplink.Relay.TakeRemote | src/uplink.rs:295-308 | in place, own echo and foreign subjects are dropped, the rest is sent on the bus as from the uplink |
| Uplink.Relay.Serve | src/uplink.rs:276-310 | the select loop is the fold of those turns until one side closes |
| ClaimGuard.LeaseContinuity | src/claim_guard.rs:82-112 | with a sustainable TTL and timely rounds the claim is the guard's and unexpired in every state from the first acquire until one request after the loop would next have woken up, through any interleaving and graceful restarts, if nobody forces |
| ClaimGuard.HeldToRelease | src/claim_guard.rs:82-137 | so from acquire to release, even of a guard that never renewed: held in every state, and the release is answered with true |
| ClaimGuard.NeverExpiredIffSustainable | src/claim_guard.rs:193-217 | no timely schedule finds the lease expired if and only if one second, two latencies, the oversleep and the interval fit in it |
| ClaimGuard.SmallestWholeTtl | src/claim_guard.rs:195-211 | for whole seconds the exact smallest sustainable TTL; with no delays, 3 seconds |
| ClaimGuard.IntervalAndLease | src/claim_guard.rs:193-211 | the interval is the greatest whose triple is within twice the TTL, or 10 ms if that is more, or the TTL itself where doubling overflows; the lease is the whole seconds, or one |
| ClaimGuard.SustainableCovers | src/claim_guard.rs:193-217 | the condition suffices for any number of rounds |
| ClaimGuard.RenewalsGranted | src/claim_guard.rs:212-222 | every renewal of a covered schedule is granted by the daemon |
| ClaimGuard.HeldBetween | src/claim_guard.rs:201-222 | between two rounds the claim is held and unexpired in every state |
| ClaimGuard.Renewer.RenewLoop | src/claim_guard.rs:201-272 | the loop makes exactly the requests specified, until it is cancelled |
| ClaimGuard.Renewer.TakeTurn | src/claim_guard.rs:201-272 | one turn: sleep, request, and after a failure a second request |
| ClaimGuard.Renewer.TryReconnectRenew | src/claim_guard.rs:277-308 | keeps the expiry already computed and swaps the client only on success |
| ClaimGuard.LoopIsTimely | src/claim_guard.rs:193-272 | if each turn succeeds in time, by its first request or by the second, the granted rounds are one for each turn and those the lease theorem asks for |
| ClaimGuard.TurnSucceeds | src/claim_guard.rs:211-272 | a turn that succeeds adds one granted round, in time, for the expiry of its own sample |
| ClaimGuard.FailedTurnIsRetried | src/claim_guard.rs:223-272 | a failed request is followed by one for the same expiry over a new connection, and the loop goes on |
| Backoff.WindowIsDocumentedIff | src/reconnect.rs:64-67 | the clamped saturating window is `min(cap, base * 2^n)` exactly when n <= 62, base = 0 or cap <= base * 2^62 |
| Backoff.WindowGrowsToCap | src/reconnect.rs:64-67 | monotone in n, bounded by cap and product, constant once at the cap |
| Backoff.Delay | src/reconnect.rs:68-83 | for any seed the wrapped jitter stays below a nonzero window |
| Reconnect.Subscriber.Subscribe | src/reconnect.rs:118-269 | the loop comes to what counting failures since the last handshake says, and a streak's sleeps stay within both budgets |
| Reconnect.Subscriber.Turn | src/reconnect.rs:122-268 | one round: outcome, callbacks and counters for each thing the environment does |
| Reconnect.Subscriber.Serve | src/reconnect.rs:182-268 | a session resets the counters, and its loss is failure number one |
| Reconnect.Subscriber.Consume | src/reconnect.rs:206-234 | the read loop reads up to and with the first event at which the callback says stop or the limit is reached, hands every event up to it to the callback, in order, and no other |
| Reconnect.ConsumedUpTo | src/reconnect.rs:222-232 | the same of the reference's count |
| Reconnect.Subscriber.Fail | src/reconnect.rs:139-154 | counts, gives up past the limit, else sleeps within the window; exponent equals failures below saturation |
| Reconnect.GivesUpOnTheNextFailure | src/reconnect.rs:140-146 | with limited retries the loop gives up on exactly the (max + 1)-th failure since the last handshake |
| Reconnect.UnlimitedNeverExhausts | src/reconnect.rs:141-146 | without a limit on retries the loop never gives up |
| Reconnect.StreakBudget | src/reconnect.rs:147-153 | a streak sleeps at most max * cap and at most base * (2^max - 1) |
| Reconnect.CallbacksWithinLimit | src/reconnect.rs:224-232 | callbacks across all reconnects never exceed `max_events` |
| Reconnect.GoingMeansWithinLimit | src/reconnect.rs:245-251 | while the loop goes on, failures since the last handshake are within the limit |
| Reconnect.Ends | src/reconnect.rs:122-268 | with finitely many handshakes and limited retries the loop ends within the limit after the last; without `reconnect` in its first round |
| Fleet.FleetStore.Announce | src/fleet.rs:75-98 | in place, the newest announce under its session and node |
| Fleet.FleetStore.Remove | src/fleet.rs:101-107 | in place, that key is gone |
| Fleet.FleetStore.LivePeers | src/fleet.rs:111-125 | for every iteration order exactly the live records, strictly sorted by node and session |
| Fleet.Sorted | src/fleet.rs:119-123 | the same records, strictly sorted |
| Fleet.FoldIsLastEvent | src/fleet.rs:75-107 | a key is stored if and only if its last event is an announce, and just as that one had it |
| Fleet.ViewIsCanonical | src/fleet.rs:111-125 | two views of the same entries are the same list |
| Fleet.SortedIsUnique | src/fleet.rs:119-123 | a strictly sorted list is determined by its members |
| Fleet.ViewIsRecentAnnounces | src/fleet.rs:111-125 | a key is in the view if and only if its last event is an announce and now is no later than its arrival plus the TTL |
| Fleet.ViewSaysLastAnnounce | src/fleet.rs:75-98 | and its record has that announce's pid, directory, timestamp, session and node, and nothing else |
| Fleet.ViewGoesByNode | src/fleet.rs:119-123 | the view goes by node, and by session only within a node, each in lexicographic order |
| Fleet.LessIsLexicographic | src/fleet.rs:119-123 | the order of names is decided where they part: the first ends there or has the lower character |
| Fleet.MergePeers | src/fleet.rs:143-158 | the local list whole, then in order the remote records no local key matches |
| Fleet.MergedKeysAreUnique | src/fleet.rs:143-158 | of duplicate-free lists the merge is duplicate-free, begins with the local one and covers every remote key |
| Fleet.SortedIsDistinct | src/fleet.rs:119-123 | a view has no duplicate keys |
| Fleet.UntaggedLocalsHideNothing | src/fleet.rs:137-157 | local records without a node never hide a remote one |
| Reload.RunReload | src/reload.rs:172-405 | a dry run changes nothing; the daemon is touched exactly if the run goes ahead; peers listed, then build, install, signal, wait for exit, launch, wait for the socket, queries, in that order, each once, and nothing after a failure; `Reloaded` exactly if not refused and, where a daemon was bounced, whole again in time; exit 0 exactly for `Reloaded`; `Failed` exactly if refused, and then nothing was done; exactly when it aborts without a verdict; both pids, both binary labels, the build command and destination |
| Reload.Bounce | src/reload.rs:314-402 | relaunch, wait, poll: the verdict is confirmed against the last query |
| Reload.Confirm | src/reload.rs:329-351 | the socket is waited for, then the peers are asked for until the first look that is whole or at the deadline |
| Reload.Relaunch | src/reload.rs:314-327 | the signal goes to the pid found, the launch follows the wait for its exit, whether or not it came in time |
| Reload.Prepare | src/reload.rs:261-290 | build and install after the peers were listed, and nothing of the daemon touched |
| Reload.BuildAndInstall | src/reload.rs:502-558 | success exactly if built, found and installed, in that order |
| Reload.PollUntil | src/reload.rs:646-658 | stops at the first look that is good or at the deadline |
| Reload.StopIsUnique | src/reload.rs:329-351 | there is one such look, and the pauses before it fit in the time allowed |
| Reload.Judge | src/reload.rs:353-402 | recovered and missing, sorted, the status they give, what is found of the new binary, and the plan as it was |
| Reload.SortedList | src/reload.rs:355-364 | a set as its sorted list |
| Reload.VerdictDivides | src/reload.rs:353-375 | recovered and missing partition the set of before, in number too; `Reloaded` exactly if some look before or at the stop was whole |
| Reload.UnansweredIsWhole | src/reload.rs:261-262 | a failed query before the bounce makes it whole |

## Left out

- Text of JSON, TOML and the command line: the model works on decoded values; whether a line parses is a choice of the environment.
- Sockets, file modes, process spawning, signals, `/proc`, extended attributes: environment choices or effects in a trace.
- Two savers at once: both use one temporary name for a process, and the bytes they would interleave are outside; in the machine a save is one atomic replace that may fail, which is what one saver alone amounts to (`Persist.StateFile.Save`).
- Crashes: a restart follows a completed shutdown; what was not yet flushed when a process dies is not spoken of.
- Partial writes: a line is written whole or the socket fails.
- Order of lists: the daemon lists a hash map in no order, so `peers` and `claim.list` replies are sets.
- Content of the uplink status report, and the connection events behind it.
- Contents of presence announcements: `run_fleet_presence_broadcaster` is an action that puts one on the bus at any time.
- NATS itself: a lossy broadcast with one ordered queue from each sender to each receiver, the sender included; messages put there by other programs are not part of it, nor payloads that do not decode.
- Accept errors, reaping of finished tasks, creation of directories at boot.
- `extra` fields of a peer record: carried through unread.
- Best-effort release in `Drop` of the guard, and quality of the jitter: they promise nothing.
- `claim acquire --wait`: it promises no wake-up.
- `src/main.rs`, `src/doctor.rs`, `src/client.rs`: plumbing and printing; the doctor's verdict is an input of `Reload`.
- Elapsed time in a reload verdict, and messages on stderr.
- Durability.JournalAgreement: speaks of runs in which the last journal read or write succeeded, because a failed save is only logged and not retried.
- Replay.ClaimReplay: excludes clients that publish their own messages under `claim.acquire` or `claim.release`, because the bus does not tell them from the daemon's.
- Reconnect.GivesUpOnTheNextFailure: needs `max_attempts` below the largest `usize`, where a saturating counter can never pass it.
- Reconnect.StreakBudget: is for limited retries; without a limit a streak is not bounded.
- Reload.RunReload: resolves the build paths once, where the code resolves them again before building; the environment is taken not to change in between.
