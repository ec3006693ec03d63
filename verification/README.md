# Nivek: the delivery and limiting cores, verified

Nivek is a Twitch bot with a core API. A streamer's overlay receives cheers,
redemptions, extension purchases and chat commands through a relay with a durable
log; the bot and the API also limit, deduplicate, schedule and repair. This project
models those cores in Dafny and proves what the code and its comments promise of
them. `dafny verify dfyconfig.toml` checks all of it.

## The overlay relay

`Relay` is one broadcaster's relay as a state machine. Its requests (webhook,
extension and dispatch endpoints) take their endpoint's ingest lock, append to the
log, look up the attached connection and offer it the frame; a full outbox of 64
closes the connection. Its connections attach and displace their predecessor, page
through the log 500 events at a time, drain the outbox into a buffer meanwhile, send
`ready`, flush, and stream, until they fail, are cancelled, or exhaust the budget of
5000. Every step is one atomic action of one goroutine, so a run is any interleaving.
Ghost history records what each outbox received and what each connection wrote.

- `RelayInvariants`, `RelayConnections`, `RelaySafety`: what holds whichever
  endpoints race.
- `RelayRegistry`, `RelayCauses`: who is registered and who holds an ingest lock, and
  why a connection was cancelled, ended or refused a frame, told from the actions of a
  run.
- `RelayOrder`, `RelayClient`: order on every connection, and no loss across
  reconnects, for non-command requests that go through one ingest lock.
- `RelayTwoLocks`: that this condition is exact.
- `IngestRace`, `EventStore`: the log under writers that read `MAX(seq)` and insert
  later, and the service as an object with its retry loop.
- `ReplayLoop`: the connect handler's replay, drain and flush loops, as methods, each
  step mirrored by a step of the machine's connection.
- `KeyedMutexes`, `Registries`: the two shared objects, as classes. Each
  `KeyedMutex` method is one atomic section of `Lock` or of its release function.

Two things differ between the code and its own documentation; the model follows the
code. The extension endpoint says it keeps frames in order "exactly as the eventsub
handler does" (cmd/core-api/endpoints/overlay/extension.go:44-46), but each endpoint
builds its own `KeyedMutex`, so the two do not exclude each other: events are
safe in all runs if and only if at most one of the two is in use, and `RelayTwoLocks`
has a run in which both are and a cheer never reaches its overlay. And a live event
at or below the client's `since` can still be written, because the dedup threshold
starts at 0; the prefix statements are therefore about events above the larger of
`since` and the device's start position, and `RelaySafety` says exactly which frames
the dedup drops.

## The smaller cores

- `ExecutorLink`, `ExecutorClient`, `ExecutorRefinement`: the link from the bot to the
  game executor, as a protocol with late servers and lost answers, as client and
  server objects, and the proof that the objects follow the protocol.
- `AlertLimiter`: the alert hook's dedupe map with eviction.
- `MessageIdRing`: the ring of recently seen message ids.
- `PromoScheduler`: per-promo tick histories, and the loop that applies them.
- `DadLimiter`, `DadPersistence`: the per-stream `!dad` limit, the persisted counts,
  go-live and restart. The state service says its key survives duplicate go-live
  webhooks (internal/libraries/user/service.go:103-111), but the bot resets its
  counters on each of them, so after a duplicate the two disagree, and a restart brings
  back counts the bot had forgotten, unless nothing was persisted or persisted counts
  have been merged since. Boot joins a channel before its rehydration has finished
  (internal/libraries/twitchbot/bot.go:282-289), so a roll in between is decided and
  persisted from zero; `LateMergeIff` says exactly when that leaves no trace. The usage
  service says rows without a stream key do not exist
  (internal/libraries/dadusage/service.go:36-39); the upsert writes one when the
  broadcaster has no key yet, and the model keeps such rows.
- `Helix`, `SubscriptionRepair`, `OverlayReconcile`: the subscription table and the
  two passes that converge it. A repair that is answered 409 after deleting the last
  bad subscription reports success without a healthy one (`RepairedToNothing`);
  `ReportMeans` states when a reported repair has converged.

`Events` and `Basics` hold what several of these share.

## Assumptions

- After a connection's context is cancelled no frame is written. A frame counts as
  written only when its write succeeded.
- A failed append committed nothing.
- One broadcaster's relay is modelled: log, locks, registry entry and connections
  are all keyed by user.
- The clock does not run backwards (alerts, promos).
- Both ends of the executor link are honest: envelopes that arrive verify, unless the
  step says they do not.
- Each call of a run may fail or be answered differently, but how a given delete, or
  the create for a given broadcaster and type, is answered is fixed for that run. A
  successful create adds one enabled subscription with the client's callback.
- In `DadPersistence` an event is over before the next one: a counted roll is persisted,
  a go-offline's state update has landed, and, except where `Lose` and `Rehydrate` are
  told apart, a restart has rehydrated before the next roll.
- Twitch ids are distinct in a list of users, and promo ids in a fetched list: both
  are unique columns.
- Lower-casing is that of ASCII, which is what logins consist of.

## Model

| member | source | states |
|---|---|---|
| `RelayClient.NoLoss` | cmd/core-api/endpoints/overlay/connect.go:99-237 | In every state of every run of server and client, whatever disconnects, overflows, displacements and budget closes happened, each non-command event above the device start and at or below the position the client would reconnect with has been processed, when non-command requests use one ingest lock |
| `RelayClient.ClientOnRuns` | cmd/core-api/endpoints/overlay/eventsub.go:105-128 | The invariant behind it over all interleavings of requests, connections and the client: everything up to the position the current connection started from was processed, and so was every frame read since |
| `RelayClient.SettledIsComplete` | cmd/core-api/endpoints/overlay/connect.go:192-237 | When the registered connection is streaming with empty queues and no push is under way, its wire above the floor is exactly the whole log above the floor |
| `RelayClient.SettledClientHasAll` | cmd/core-api/endpoints/overlay/connect.go:99-107 | A client that has read such a connection to its end has processed every non-command event after its device was minted |
| `RelayOrder.OrderedOnRuns` | internal/libraries/overlayrelay/keyedmutex.go:8-14 | In every state of every run under one ingest lock, every connection ever opened (displaced, overflowed and closed ones included) has written a gap-free, duplicate-free prefix of the non-command log above its floor |
| `RelayOrder.WireInOrderOnRuns` | cmd/core-api/endpoints/overlay/connect.go:192-228 | In every state of every run under one ingest lock, non-command frames left each connection in strictly increasing position, those at or below its floor included |
| `RelayOrder.FrameInOrder` | cmd/core-api/endpoints/overlay/connect.go:199-228 | Writing the next live frame extends the written prefix by exactly the next event of the log: nothing replayable is skipped |
| `RelayTwoLocks.LosslessIffOneLock` | cmd/core-api/endpoints/overlay/extension.go:43-46 | In all runs a client that has read a settled connection to its end has everything, and in all runs it never moves past an event it lacks; each holds if and only if the webhook and the extension endpoint are not both in use |
| `RelayTwoLocks.TwoLocksLose` | cmd/core-api/endpoints/overlay/extension.go:119-139 | A concrete run with both in use, each under its own mutex: the client moves past a cheer, loses its connection, reconnects, and reads a settled connection to the end without it |
| `RelayTwoLocks.LostForGood` | cmd/core-api/endpoints/overlay/connect.go:119-122 | However that run goes on, the client never gets the cheer |
| `RelaySafety.CoverageOnRuns` | cmd/core-api/endpoints/overlay/connect.go:83-206 | In every state of every run, whichever endpoints race: on the registered, uncancelled connection every replayable event is written, ahead of the replay, waiting at a position the dedup lets through, or in the hands of a request about to push it |
| `RelaySafety.InvOnRuns` | cmd/core-api/endpoints/overlay/connect.go:83-239 | The relay invariant holds in every state of every run of every mix of endpoints |
| `RelaySafety.AtMostOnceOnRuns` | cmd/core-api/endpoints/overlay/connect.go:199-228 | In every state of every run, all three endpoints racing: no event is written twice on one connection, a command on the wire came through the one outbox that received it and never by replay, and so is written at most once over all connections |
| `RelaySafety.HandledFrameFate` | cmd/core-api/endpoints/overlay/connect.go:217-227 | In every state of every run, a handled live frame is on the wire exactly when it lies above the last replayed position or the replay wrote it; so apart from replayed events the dedup drops only commands and events at or below the floor |
| `RelaySafety.NothingReplayedNothingDropped` | cmd/core-api/endpoints/overlay/connect.go:107-111 | In every state of every run, a connection that replayed nothing passes every live frame through, even below an over-reported `since` |
| `RelaySafety.ReplayPages` | cmd/core-api/endpoints/overlay/connect.go:113-122 | In every state of every run, what is left of a page holds no command and nothing at or below `since` or the device's start position |
| `RelaySafety.ReplayBudget` | cmd/core-api/endpoints/overlay/connect.go:28-34 | In every state of every run, no connection replays more than 5000 events, `ready` comes only after fewer than 5000, the live buffer stays within 5000 and the outbox within 64 |
| `RelaySafety.IngestedOnce` | internal/libraries/overlayrelay/service.go:74-113 | Over a whole run, however many deliveries of one message arrive through whatever endpoints, at most one inserts it and Push is called at most once for it |
| `RelaySafety.AppendRefinesRace` | internal/libraries/overlayrelay/service.go:121-154 | The relay's atomic append step is what a racing insert does: the same row, the same duplicate, or no change |
| `RelayConnections.MoveKept` | cmd/core-api/endpoints/overlay/connect.go:154-237 | Every step of a connection handler keeps the closed form of its wire: the replayed stretch of the log followed by the handled outbox frames above it |
| `RelayRegistry.RegisteredIff` | internal/libraries/overlayrelay/registry.go:49-87 | In every state of every run, a connection is the registered one if and only if it attached, nobody attached after it, and it has not been removed: no teardown evicts a replacement |
| `RelayRegistry.CoverageOfLastAttached` | cmd/core-api/endpoints/overlay/connect.go:83-206 | For the connection the history says attached last and has not left: while uncancelled and replaying or streaming, each of its replayable events is written, ahead of the replay, waiting at a position the dedup lets through, or about to be pushed to it |
| `RelayRegistry.LastAttachedIsComplete` | cmd/core-api/endpoints/overlay/connect.go:192-237 | Once that connection streams with empty queues and no push is under way, its wire above the floor is the whole log above the floor |
| `RelayRegistry.DisplacedOnRuns` | internal/libraries/overlayrelay/registry.go:49-87 | In every state of every run, a connection that is not the registered one has been cancelled or is about to be by its successor; one that is gone is not registered |
| `RelayRegistry.LockHeldOnRuns` | cmd/core-api/endpoints/overlay/eventsub.go:105-128 | In every state of every run, a request holds its ingest lock if and only if it is past it and has not returned |
| `RelayCauses.CancelledForCause` | internal/libraries/overlayrelay/registry.go:49-111 | Over every run, a connection was cancelled only because its context ended, its handler was done, its successor attached, or a frame found 64 waiting |
| `RelayCauses.EndedForCause` | cmd/core-api/endpoints/overlay/connect.go:134-186 | Over every run, a handler returned only because something failed, because one frame more than 5000 was waiting, or at 5000 replayed events after a full page |
| `RelayCauses.RefusedForCause` | internal/libraries/overlayrelay/registry.go:103-110 | Over every run, a push was refused only by a connection with 64 frames waiting |
| `IngestRace.LogSafety` | database/overlay-relay.sql:36-54 | With writers that read MAX and insert later interleaving in any way, committed positions are always exactly 1..n and message ids distinct |
| `IngestRace.InsertAppends` | internal/libraries/overlayrelay/service.go:115-127 | An insert reports a duplicate exactly when the message is there, succeeds exactly when nobody took the position, and then appends at the very next position; otherwise the log is untouched |
| `IngestRace.NewOnce` | internal/libraries/overlayrelay/service.go:76-80 | Of any number of deliveries of a message at most one is told it is new |
| `IngestRace.ExhaustedLeavesNothing` | internal/libraries/overlayrelay/service.go:100-113 | A writer that gives up after five attempts committed nothing, and at least five other events were committed meanwhile |
| `EventStore.Store.AppendEvent` | internal/libraries/overlayrelay/service.go:121-154 | One statement against competing commits: known, lost race, new or failed, with the exact resulting log |
| `EventStore.Store.Ingest` | internal/libraries/overlayrelay/service.go:81-113 | The retry loop computes the attempt-by-attempt specification, in which only a lost position is retried and any other error ends the call |
| `EventStore.IngestIsIdempotent` | internal/libraries/overlayrelay/service.go:74-113 | A message is stored at most once, reported new exactly by the call that stored it, and given up only when every attempt was overtaken |
| `EventStore.FailureStoresNothing` | internal/libraries/overlayrelay/service.go:100-113 | A call that failed, by a database error or by giving up, committed nothing of its own |
| `EventStore.GivesUpIff` | internal/libraries/overlayrelay/service.go:100-113 | A call gives up if and only if every attempt was overtaken and none of those who overtook it brought the same message |
| `EventStore.Store.EventsAfter` | internal/libraries/overlayrelay/service.go:246-281 | A page is a prefix of the non-command events above the cursor: at most as many as asked for, 500 for a limit below 1 or above 500, and all of them when shorter; at limit 500 it is the query of the relay machine |
| `EventStore.Store.CreateDevice` | internal/libraries/overlayrelay/service.go:304-341 | Minting revokes every earlier device and starts the new one where nothing of the existing log can be replayed |
| `ReplayLoop.Session.Replay` | cmd/core-api/endpoints/overlay/connect.go:119-190 | The paged loop over a log that grows between reads sends a prefix of the unbounded query, all of it when it reaches `ready` and then fewer than 5000 events; buffered and queued frames are exactly those that arrived, in order; and every step of it is a step of the connection of the relay machine |
| `ReplayLoop.Session.DrainOutbox` | cmd/core-api/endpoints/overlay/connect.go:134-147 | The drain keeps order and content and fails exactly when more than 5000 frames are pending |
| `ReplayLoop.Session.Flush` | cmd/core-api/endpoints/overlay/connect.go:192-206 | After `ready` exactly the buffered frames above the last replayed position follow, in order, again step by step with the relay machine |
| `ReplayLoop.ActIsStep` | cmd/core-api/endpoints/overlay/connect.go:154-206 | What the loops mirror is what the relay machine does to its connection: a handler move, or a frame offered |
| `ReplayLoop.Connect` | cmd/core-api/endpoints/overlay/connect.go:176-186 | One connection over a log that stands still delivers all that is owed, or exactly 5000 events and leaves the rest for the next position |
| `ReplayLoop.CatchUp` | cmd/core-api/endpoints/overlay/connect.go:28-34 | A static backlog of N events is delivered in order, without repetition, in N / 5000 + 1 connections |
| `KeyedMutexes.KeyedMutex.Enter` | internal/libraries/overlayrelay/keyedmutex.go:36-43 | All live callers of a key get one entry, counted under the map's lock |
| `KeyedMutexes.KeyedMutex.Acquire` | internal/libraries/overlayrelay/keyedmutex.go:45 | An entry is taken only when free; the caller becomes its only holder |
| `KeyedMutexes.KeyedMutex.Release` | internal/libraries/overlayrelay/keyedmutex.go:48 | Only the holder frees the entry |
| `KeyedMutexes.KeyedMutex.Leave` | internal/libraries/overlayrelay/keyedmutex.go:49-54 | The entry leaves the map exactly when no caller of the key is left, so no lock in use is ever removed |
| `KeyedMutexes.KeyedMutex.Guarantees` | internal/libraries/overlayrelay/keyedmutex.go:5-7 | In every reachable state: at most one holder per key, one shared entry per key, its count equal to its waiting, holding and releasing callers, and an entry precisely while there is one |
| `Registries.Conn.Close` | internal/libraries/overlayrelay/registry.go:24-32 | The cancel function runs at most once |
| `Registries.Conn.Offer` | internal/libraries/overlayrelay/registry.go:103-110 | A full outbox drops the connection, never a frame already queued |
| `Registries.Registry.Add` | internal/libraries/overlayrelay/registry.go:49-72 | The new connection is the attached one; its predecessor is closed with its queue intact; every connection ever added keeps its promises |
| `Registries.Registry.Remove` | internal/libraries/overlayrelay/registry.go:74-87 | For any connection ever added, attached or long displaced, or none: detaches only if still the registered one |
| `Registries.Registry.EveryConnection` | internal/libraries/overlayrelay/registry.go:10-32 | For every connection ever added: its cancel ran at most once, exactly if it is closed; its outbox holds at most 64 frames, the newest pushed, in push order; and it is closed unless still attached |
| `Registries.Takeover` | internal/libraries/overlayrelay/registry.go:74-76 | A displaced connection tearing down after its replacement registered does not evict it, and is cancelled once |
| `Registries.Registry.Push` | internal/libraries/overlayrelay/registry.go:89-111 | Never blocks: queued in order, dropped with its connection when full, ignored when nobody is attached |
| `Registries.Registry.DisconnectDevice` | internal/libraries/overlayrelay/registry.go:134-145 | Closes the live connection exactly when it is that device's |
| `Registries.Registry.ConnectedDeviceId` | internal/libraries/overlayrelay/registry.go:121-132 | Reports a device exactly when the history says a connection of that user is attached, and that connection is the only one |
| `ExecutorLink.AtMostTwice` | internal/libraries/overseer/client.go:33-56 | Over any run of lost writes, lost answers, late servers and reconnects, one Send causes at most two submits |
| `ExecutorLink.SuccessIsReal` | internal/libraries/overseer/client.go:79-102 | A successful Send was submitted once or twice and its answer carries that command's id |
| `ExecutorLink.ReplayChecksPass` | internal/libraries/overseer/server.go:64-69 | Between honest ends neither replay check ever fires: the next request and the next answer always carry a fresh number |
| `ExecutorLink.InvOnRuns` | internal/libraries/overseer/client.go:61-103 | The invariant over every run: attempts are submitted at most once each, only after being written, and both counters run in step on the client's connection |
| `ExecutorClient.Client.Send` | internal/libraries/overseer/client.go:44-56 | Which commands reached the executor, the result, and whether the connection stays, for every pair of attempt fates, case by case; the retry happens only after a transport failure |
| `ExecutorClient.Client.SendOnce` | internal/libraries/overseer/client.go:61-103 | One attempt: outcome, retryability and whether the connection survives |
| `ExecutorRefinement.SendIsARun` | internal/libraries/overseer/client.go:44-103 | Whatever the fates of its attempts, a Send of the client object is a run of the protocol with the same submits, result and connection state |
| `ExecutorClient.Client.EnsureConnected` | internal/libraries/overseer/client.go:117-131 | A fresh connection starts both counters at zero; an open one is reused |
| `ExecutorClient.Link.Serve` | internal/libraries/overseer/server.go:64-97 | One server turn: a replayed number is refused without submitting |
| `AlertLimiter.Hook.Allow` | internal/libraries/alerting/discord_hook.go:88-112 | Posts if and only if every earlier post is at least 2 s old and every earlier one of the same message at least 300 s, and leaves at most 256 entries |
| `AlertLimiter.PostsApart` | internal/libraries/alerting/discord_hook.go:30-35 | Accepted posts are at least 2 s apart each, equal messages at least 5 min |
| `AlertLimiter.AllowedIff` | internal/libraries/alerting/discord_hook.go:30-35 | A post is allowed if and only if every earlier post is at least 2 s old and every earlier one of the same message at least 300 s |
| `AlertLimiter.WindowHolds` | internal/libraries/alerting/discord_hook.go:30-35 | At most 151 posts fit into one dedupe window |
| `MessageIdRing.Cache.Seen` | internal/libraries/twitchbot/eventsub_dedupe.go:30-52 | True exactly when the id is among the last n claims; a new non-empty id is claimed; claims of one id have at least n claims of other ids between them |
| `MessageIdRing.Cache.SlotsAreClaims` | internal/libraries/twitchbot/eventsub_dedupe.go:10-18 | The set is exactly the occupied slots, each holding a different id |
| `MessageIdRing.Cache.constructor` | internal/libraries/twitchbot/eventsub_dedupe.go:20-28 | A non-positive size means 8192 |
| `PromoScheduler.PostsPunctually` | internal/libraries/twitchbot/bot.go:401-447 | While it stays live and fetched with one interval I and ticks at most P apart, it posts at the first tick I after its last post, less than max(60 s, I) + P later |
| `PromoScheduler.PostSpacing` | internal/libraries/twitchbot/bot.go:397-447 | Whatever fetch failures, edits, deletions and live flips intervene, a post comes at least 60 s and at least its own interval after every earlier post, offline tick, absence and first sighting of the promo, never at a first sighting |
| `PromoScheduler.PostsWhenDue` | internal/libraries/twitchbot/bot.go:430-447 | After its clock was set, a promo that stays live posts at a successful fetch if and only if at least 60 s and at least its interval have passed, failed fetches in between or not |
| `PromoScheduler.SightOf` | internal/libraries/twitchbot/bot.go:412-429 | A tick sees a fetched promo with its own interval, live or offline as its channel is |
| `PromoScheduler.Scheduler.Evaluate` | internal/libraries/twitchbot/bot.go:412-457 | The loop over the fetched list, with its clean-up, applies the per-promo rule to every promo id at once and posts none twice |
| `PromoScheduler.Scheduler.RunTick` | internal/libraries/twitchbot/bot.go:411-457 | What a tick posts is decided by each promo's own tick history |
| `PromoScheduler.Scheduler.SetLive` | internal/libraries/twitchbot/bot.go:490-509 | Flips one channel's liveness, case-insensitively, and no other's |
| `DadLimiter.FiveThenOneThenSilence` | internal/libraries/twitchbot/dad_limit.go:48-71 | Within one stream, rehydrations included: at most five served rolls, then at most one reject, then silence, never back |
| `DadLimiter.RollsAlone` | internal/libraries/twitchbot/dad_limit.go:48-71 | Of any number of rolls the first five are served, the sixth is rejected and the rest are ignored |
| `Basics.SameLogin` | internal/libraries/twitchbot/dad_limit.go:49-50 | Two logins share one key if and only if they differ in nothing but ASCII case |
| `Basics.LowerIsFixed` | internal/libraries/twitchbot/dad_limit.go:49-50 | A login is its own key if and only if it has no capitals, and a key is its own key |
| `DadLimiter.Limiter.Check` | internal/libraries/twitchbot/dad_limit.go:48-71 | The decision and the new count are those of the chatter's own history; nobody else's changes |
| `DadLimiter.Limiter.StartStream` | internal/libraries/twitchbot/dad_limit.go:78-86 | Every chatter of the channel starts fresh, other channels are untouched |
| `DadLimiter.Limiter.EndStream` | internal/libraries/twitchbot/dad_limit.go:88-96 | The channel's counters are dropped |
| `DadLimiter.Limiter.Rehydrate` | internal/libraries/twitchbot/dad_limit.go:104-131 | Persisted counts are merged by maximum, chatter by chatter |
| `DadPersistence.HandleRoll` | internal/libraries/twitchbot/cmd_dad.go:85-99 | A roll is counted in any channel and written through, to exactly its row, exactly when it counted and the channel is tracked and known; then memory and database still agree on every chatter if they did |
| `DadPersistence.HandleGoLive` | internal/libraries/twitchbot/bot_api.go:218-236 | The counters are reset whatever the state update finds; memory and database agree afterwards if and only if the channel was not already live or nothing of the running stream had been persisted |
| `DadPersistence.HandleGoOffline` | internal/libraries/twitchbot/bot_api.go:240-264 | The state update and the dropped counters are, for every chatter of the channel, what going offline does in the histories |
| `DadPersistence.RestartBot` | internal/libraries/twitchbot/bot.go:279-293 | A restarted bot agrees with the database on every chatter of a live channel |
| `DadPersistence.RestartRestoresIff` | internal/libraries/twitchbot/dad_limit.go:98-103 | Exactly when a restart, rehydrated before the next roll, restores the counts: at any moment of a stream it changes nothing if and only if the go-live webhook that opened the stream was no duplicate, or found nothing persisted for the running stream, or persisted counts have been merged since |
| `DadPersistence.RestartRestoresOnRuns` | internal/libraries/user/service.go:103-111 | The same over a whole history of the channel that ends in a stream |
| `DadPersistence.OfflineRestartOnRuns` | internal/libraries/twitchbot/bot.go:279-293 | Over a whole history that ends offline, a restart changes nothing if and only if every roll since has been followed by a restart |
| `DadPersistence.LateMergeIff` | internal/libraries/twitchbot/bot.go:282-289 | When rolls come between a restart and its rehydration, memory and database agree after the merge, and the count is that of an uninterrupted bot if and only if there were no such rolls, nothing had been counted, or they stay within the limit |
| `DadPersistence.LateMergeOvercounts` | internal/libraries/twitchbot/dad_limit.go:102-103 | A silenced chatter, a restart and one roll before the rehydration: the roll is served and the merged count is 7 |
| `DadPersistence.NoFreshAllotment` | internal/libraries/twitchbot/dad_limit.go:98-101 | Over a stream opened by a genuine go-live, restarts included, a chatter is given at most five allows, then at most one reject, then silence |
| `DadPersistence.RestartsInvisible` | internal/libraries/twitchbot/dad_limit.go:98-103 | Its decisions are those of a single process that only ever saw the rolls |
| `DadPersistence.DuplicateGoLiveDisagrees` | internal/libraries/dadusage/service.go:70-74 | A duplicate go-live webhook after one roll: the restart brings back a count the bot had forgotten |
| `DadPersistence.Tables.PutChannelState` | internal/libraries/user/service.go:94-118 | A fresh stream key is minted exactly on an offline-to-online change; an unknown channel changes nothing |
| `DadPersistence.Tables.IncrementRoll` | internal/libraries/dadusage/service.go:69-93 | The upsert bumps a row of the current stream and restarts a row of an earlier one |
| `DadPersistence.Tables.GetCurrentStreamUsage` | internal/libraries/dadusage/service.go:35-67 | Returns exactly the rows stamped with the broadcaster's current key |
| `SubscriptionRepair.AuditTwice` | cmd/eventsub-healthcheck/main.go:8-10 | After a wholly successful audit a second, non-force one finds everything healthy and writes nothing |
| `SubscriptionRepair.Audit` | cmd/eventsub-healthcheck/main.go:97-181 | Over distinct users: each audited pair is reported on once, the tally counts the reports, and each pair is as its report says; pairs outside the audit are untouched; no audited pair loses its last healthy subscription; when every call succeeds each user has exactly one enabled subscription of each of the three types, with the expected callback if that is checked, and after a forced one no old one; on converged subscriptions no call is made |
| `SubscriptionRepair.AuditType` | cmd/eventsub-healthcheck/main.go:129-164 | The report on one broadcaster and type, by what was there, which deletes fail and how a create is answered, and what is left of the pair |
| `SubscriptionRepair.ReportMeans` | cmd/eventsub-healthcheck/main.go:152-164 | A reported repair has converged if and only if something healthy was kept or the create was not answered 409 |
| `SubscriptionRepair.CountedHealthyIff` | cmd/eventsub-healthcheck/main.go:129-147 | A pair is counted healthy if and only if, unforced, it is one subscription with status "enabled" and, when the callback is checked, the expected one; a dry run counts every other pair as would-repair and changes nothing |
| `SubscriptionRepair.CountedReplacement` | cmd/eventsub-healthcheck/main.go:152-164 | A pair with nothing to keep: a failed delete counts as failed; else a create answered 200, 202 or 409 as repaired, a chat create answered 403 as unauthorized, any other answer as failed; and something is there afterwards exactly after 200 or 202 |
| `SubscriptionRepair.CountedTrim` | cmd/eventsub-healthcheck/main.go:311-331 | A pair with something healthy beside what must go: one is kept, and it counts as repaired when the deletes succeed, as failed when they do not |
| `SubscriptionRepair.AllConvergedMeans` | cmd/eventsub-healthcheck/main.go:8-10 | What convergence of everything audited says, user by user and type by type |
| `SubscriptionRepair.RepairedToNothing` | cmd/eventsub-healthcheck/main.go:333-347 | A revoked subscription, a create answered 409: one repair and no failure reported, and no subscription of the type left |
| `SubscriptionRepair.Repair` | cmd/eventsub-healthcheck/main.go:311-348 | Deletes the bad ones, then all good ones but the first, in order; stops at the first delete that fails; creates only when nothing good was there; the verdict, the calls made and the subscriptions left |
| `SubscriptionRepair.RepairTouchesOnlyItsPair` | cmd/eventsub-healthcheck/main.go:314-348 | No other broadcaster or type is affected |
| `SubscriptionRepair.Classify` | cmd/eventsub-healthcheck/main.go:288-309 | The two lists, in order |
| `SubscriptionRepair.ClassifyDivides` | cmd/eventsub-healthcheck/main.go:288-309 | Good and bad divide the pair: nothing lost, nothing in both, each judged by its own status and callback |
| `OverlayReconcile.Reconcile` | cmd/core-api/endpoints/overlay/eventsub_subs.go:192-235 | Whatever fails, every subscription with another callback, transport or type, or of an active broadcaster, is untouched; a missing pair gains exactly one; when all calls succeed every active broadcaster has each of the three types enabled on this callback and no inactive one keeps any; a pass that makes no call found everything there, and on reconciled subscriptions none is made |
| `OverlayReconcile.ReconcileTwice` | cmd/core-api/endpoints/overlay/eventsub_subs.go:158-163 | A second pass issues no create and no delete |
| `OverlayReconcile.CreateMissing` | cmd/core-api/endpoints/overlay/eventsub_subs.go:212-220 | One create for every active broadcaster and type whose key is not in the index, and no other |
| `OverlayReconcile.Prune` | cmd/core-api/endpoints/overlay/eventsub_subs.go:222-232 | Deletes exactly the listed overlay subscriptions of inactive broadcasters |
| `OverlayReconcile.KeyInjective` | cmd/core-api/endpoints/overlay/eventsub_subs.go:208 | The joined key identifies the pair because the separator never occurs in a type |

## Left out

- Sockets, pings, the read pump, deadlines, JSON and the handlers around the modelled
  sections: they appear as frames and as steps in which a read or write fails.
- Signatures, tokens, cookies and envelope authentication: security checks, not
  protocol state.
- SQL text and database internals: tables are maps or sequences with their unique
  constraints; minting a device is one atomic step.
- Ingest for an unknown broadcaster: it returns before the log is touched, as an
  append that fails does here.
- The dispatch endpoint's `delivered` flag, which reports attachment and is not used
  by the protocol, and its argument checks.
- The server loop's branches for undecodable commands and other envelope types: a
  client never sends them.
- A roll whose write to the database fails or is delayed, and a go-offline whose state
  update lands late: `DadPersistence` completes each before the next event, which is
  the case in which a restart can restore anything exactly.
- `PromoScheduler.Scheduler.Evaluate`: the text and target of a post are not modelled,
  only which promos are posted.
- The healthcheck's listing and orphan pruning, its log lines and pauses; the
  overlay's single-broadcaster subscribe and unsubscribe: one-loop variants of what is
  modelled.
- Helix, IRC and Discord clients: foreign services.
- CRUD endpoints and services, configuration, the web front end, DF command parsing,
  `!stalk` and auto-shout memory: thin wrappers, vocabulary tables, or get-then-set
  sequences without an invariant of their own.
