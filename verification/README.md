# A verified model of zk-wsp

zk-wsp multiplexes HTTP requests over a pool of websockets between a client inside a cluster and a server.
Every websocket has two ends: a *write connection*, on which callers send a request and wait for the
response, and a *read connection*, whose loop reads requests, executes them and writes the responses back.
Client and server each keep pools of both kinds. This project models that protocol and proves its safety
properties; `dafny verify dfyconfig.toml` checks all of it.

## What is modelled

- `serving.dfy`, `exchange.dfy`, `exchange_invariant.dfy`, `exchange_theorems.dfy`, `exchange_log.dfy`,
  `exchange_completes.dfy`, `exchange_exits.dfy`: one websocket. `Exchange`
  is a step system with a program counter for every thread: the reader loop of the write connection, any
  number of callers of `ProxyRequest` and `SendPingMessage`, any number of closers, and the serving loop at the
  far end. There is one step for every channel send, receive and close and for every acquisition and release
  of the connection lock. Every websocket operation may fail and may leave a truncated message behind. Ghost
  request ids travel with the messages. `Serving.ReadConnection` is the serving loop as a class.
- `pool_system.dfy`: any number of such connections with the idle queue they share, the pool's list, the
  connector that fills it and Shutdown, which closes one connection after the other with the pool locked.
  `pool_order.dfy` is about the order of the queue, `pool_completes.dfy` about what can always be brought to its
  end, and `shutdown_blocks.dfy` has a run of a client pool in which Shutdown never ends.
- `lock_order.dfy`: every routine of server and client as the sequence of its mutex and channel operations, and
  any number of threads running them.
- `connection.dfy`, `server_pool.dfy`, `server.dfy`, `client_pool.dfy`: the records that the source updates in
  place, as classes with its loops: `WriteConnection`, the server's `Pool` and `Server`, the client's `Pool`
  and `Client`. Their methods say what becomes of every list, queue and status they may change and of the flags
  of pool and client. Dial
  results, exchange results, clock readings and the length of each wait are parameters. `pool_sizes.dfy` has
  the arithmetic of the connector, `cleaning.dfy` the loop of the server's `clean` over its pools.
- `history.dfy`: what the operations of the server do to the registry, and any sequence of them.
- `greeting.dfy`: the greeting that the client prints and the server parses, down to digits and fields.
- `backoff.dfy`: the retry interval, in int64 nanoseconds with wrap-around.
- `wsp_login.dfy`: the single-flight refresh of the client's token, as a step system and as a class.

Assumptions: data messages of a websocket arrive whole and in order, or truncated and followed by an error,
and control frames are not data messages (sections 5.4 and 5.5 of RFC 6455); memory is sequentially
consistent; the status code of a response is one that `WriteHeader` accepts; encoding and decoding JSON either
fails or gives the message back. That a failed read or write makes all later ones fail is not needed.

The theorems about all runs say what never happens. Beside them stand those about continuations, which say what
can happen from every reachable state of a kind: a request is answered, a pool is filled, a Shutdown ends, every
thread gets out.

## What the proofs show about the code

Where the code and its comments differ, the model follows the code.

- A read connection's `idleSince` is never set, so `IdleTimeout` does not tell read connections apart: below
  9223372036 seconds `Clean` removes exactly the IDLE ones beyond `idleSize`, from there on none
  (`ServerPool.Pool.ReadTimeoutIsInert`, and the contract of `ServerPool.Pool.Clean`).
- A greeting that is one integer without an underscore makes `Register` index past the end of the split; no
  other message does (`Greeting.ParsePanics`). The comment in `Register` announces a client id in the
  greeting; there is none. A greeting with an unknown connection type still creates the pool and sets its idle
  size, and the websocket is neither added nor closed (`Registry.Server.Register`, result `Ignored`).
- The client's lists stay within `PoolMaxSize` whatever the counts, exactly when `PoolIdleSize + PoolMaxSize`
  and `PoolIdleSize - PoolMaxSize` fit in int64 (`PoolSizes.BoundHoldsIff`). The retry interval is
  exponential exactly when twice the default and twice the maximum fit (`Backoff.BackoffIsExponential`).
- `GetValueWithTimeout` subtracts the time since the start again after every entry it drops. It never blocks
  longer than the original timeout (`Connections.BoundedWait`), but it may give up before: exactly when it
  dropped at least two entries, time had passed when the wait for the last of them began, and the timeout was
  not over when that one was dropped (`Connections.GivesUpEarlyIff`, with an input in
  `Connections.GivesUpEarlyWitness`).
- When `RefreshWspToken` finds the cluster killed it returns with `refreshInProgress` still set: a call that no
  other call overlaps leaves a clear guard set exactly when `killed` was set before it
  (`TokenRefresh.LeavesGuardIffKilled`; a run that gets there is in `TokenRefresh.GuardLeaks`). The killed error
  is therefore returned at most once, and every later call returns nil without doing anything
  (`TokenRefresh.GuardLeak`, `TokenRefresh.SkippedForever`).
- Release offers a connection with its lock held, and the client takes entries off its idle channel with the
  pool locked. In the client a full channel can therefore get room again exactly when no thread that has the
  pool locked still needs a connection whose lock is released only after it has been offered
  (`LockOrder.RoomIffNotDoomed`; the channels of the server always can). Otherwise no thread that offers to the
  pool or wants its lock ever goes on (`LockOrder.DoomedForever`). Shutdown gets there with PoolMaxSize 1: the
  queue entry of a connection that is gone fills the channel, and Shutdown locks the pool while the next
  connection is being offered (`ShutdownBlocks.ShutdownCanBlock`, `ShutdownBlocks.BlockedForever`).
- A request that the far end cannot decode is answered by the 527 reply and then the far end leaves its loop; the
  caller counts a success and puts the connection back into the queue (`ExchangeCompletes.RefusalIsDelivered`).
- A tick of the client after a shutdown still fills the lists, and panics on an invalid cluster key
  (`ClientPool.Pool.StartInternal`).
- The nil-reader branches of `ProxyRequest` and the reader's send on a closed response channel are dead code
  (`ExchangeTheorems.ChannelsAreSafe`).
- The comment on `clean` says that it also runs at shutdown; `Server.Shutdown` does not call it.

## Model

| member | source | states |
|---|---|---|
| ExchangeTheorems.ResponseCorrelation | common/writeConnection.go:152-257 | in every run, a `ProxyRequest` that returned success delivered exactly the whole header and the whole body that the peer produced for that very request; all other replies belong to other exchanges |
| ExchangeTheorems.RequestsArePaired | common/readConnection.go:84-119 | the message the serving loop reads at its head is the header of the request it serves next, and the one it takes as body belongs to the request it decoded |
| ExchangeTheorems.ServingInStep | common/readConnection.go:83-167 | in the composed system, at the serving loop's head with no failed write, messages consumed, produced and queued back are all twice the number of requests served |
| ExchangeTheorems.TokenConservation | common/writeConnection.go:260-288 | a live connection has exactly one token: an entry of the idle queue, a dequeuer, a user, or the reader's first Release; a closing one at most one |
| ExchangeTheorems.ExclusiveUse | common/writeConnection.go:260-288 | no two uses of a connection by `ProxyRequest` or `SendPingMessage` overlap, and during one the connection is neither queued nor being taken |
| ExchangeTheorems.ReaderHandoff | common/writeConnection.go:72-112 | the discipline of the comment in `Start`: at `NextReader` no caller holds an unfinished reader, and the reader is on response channel c exactly while the owner of c is at the matching point or has closed it |
| ExchangeTheorems.ChannelsAreSafe | common/writeConnection.go:184-252 | no channel is closed twice, no `ProxyRequest` receives a nil reader, the reader never sends on a closed response channel |
| ExchangeTheorems.ClosedByOwner | common/writeConnection.go:184-252 | a response channel is closed only by the `ProxyRequest` that made it |
| ExchangeTheorems.ClosedMeansClosed | common/writeConnection.go:290-314 | outside the connection lock `nextResponse` is closed exactly when the status is CLOSED |
| ExchangeTheorems.ClosedIsAbsorbing | common/writeConnection.go:260-314 | CLOSED stays CLOSED, and once `nextResponse` is closed no Release offers the connection again |
| ExchangeTheorems.NoLiveConnectionDiscarded | common/utils.go:27-40 | an entry taken off the queue is IDLE or CLOSED; it is dropped, and `Take` fails, exactly when it is CLOSED; a successful `Take` makes the caller the only holder |
| ExchangeTheorems.NoWildMessage | common/writeConnection.go:86-94 | while the connection is not being closed, every message the reader receives comes during an exchange |
| ExchangeLog.NoResponseTwice | common/writeConnection.go:152-257 | any two successful `ProxyRequest` calls were different exchanges and returned in the order of their exchanges, whatever their request ids, so no reply is delivered twice |
| ExchangeCompletes.UseCompletes | common/writeConnection.go:115-288 | from every reachable state in which the connection is queued and nobody uses it, any free thread can complete a `ProxyRequest` with any request id and any data: it returns success with exactly the two messages of the reply, of the executed request or of the 527 reply, and the connection is IDLE and queued once again; a ping ends the same way without a delivery |
| ExchangeCompletes.ServesInTurn | common/writeConnection.go:60-113 | one connection can serve any sequence of requests, and answers each with its own response |
| ExchangeCompletes.RefusalIsDelivered | common/readConnection.go:95-110 | a request that the serving loop cannot decode or unserialize is answered by the two messages of the 527 reply: the caller delivers them as a success and queues the connection, although the serving loop is over |
| ExchangeCompletes.BrokenResponseCloses | common/writeConnection.go:227-249 | when the response body breaks off, the request can only fail: no delivery although the header was whole, the connection CLOSED and not queued |
| ExchangeExits.EveryoneGetsOut | common/writeConnection.go:290-314 | from every reachable state there is a way to one in which the connection is CLOSED, the reader loop is over and every caller and closer has returned |
| ExchangeInvariant.StepInv | common/writeConnection.go:60-314 | every step of every thread keeps the invariant on lock, token, closing, handoff, message counts and peer |
| ExchangeInvariant.RunInv | common/writeConnection.go:60-314 | the invariant holds in every reachable state, with any number of threads |
| PoolSystem.Projection | server/pool.go:70-74 | what one connection of a pool goes through is a run of the exchange protocol |
| PoolSystem.PoolRunInv | server/pool.go:122-181 | in every reachable state of a pool: queue entries match the tokens, the list is duplicate-free and, with what the connector is still to add, within its limit; during a Shutdown every member is CLOSED or still to be closed; no connection is lost |
| PoolSystem.ClosingStep | server/pool.go:123-139 | Shutdown goes on to the next connection only when the last one is CLOSED, whoever closed it, and no member is left out |
| PoolSystem.ShutdownClosesAll | server/pool.go:123-139 | when Shutdown empties the list every member is CLOSED |
| PoolSystem.WithinStep | client/pool.go:87-130 | a connector that counts any number of spare connections keeps the list, with what it is still to add, within PoolMaxSize |
| PoolSystem.ListWithinLimit | client/pool.go:87-156 | in every reachable state the list of a client pool has at most PoolMaxSize members |
| PoolSystem.NoOrphans | server/pool.go:122-181 | every write connection ever added is in the list, or CLOSED, or its own reader is between Remove and Close; the list has no duplicates |
| PoolSystem.ClosedMembersLeave | server/pool.go:91-181 | a CLOSED connection in the list always has a thread other than its reader with the removal still ahead, and nothing blocks that thread's next step |
| PoolSystem.QueueConservation | server/pool.go:70-74 | queue entries plus holders of a connection are exactly one while it is open and at most one afterwards, and a queued connection is IDLE or CLOSED |
| PoolSystem.QueueHasNoDuplicates | server/pool.go:70-74 | no connection is queued twice, closed or not |
| PoolSystem.OfferHasRoom | client/pool.go:121-173 | in a client pool, when the queued connections and the offerer are members of the list, the idle channel is not full and the offer does not block |
| PoolSystem.PoolCorrelation | common/writeConnection.go:152-257 | response correlation for every connection of a pool that shares its queue with others |
| PoolOrder.FirstOfferedFirstTaken | server/pool.go:70-74 | in every reachable state the connections offered so far are those taken so far followed by the queue |
| PoolCompletes.UseCompletes | server/server.go:107-125 | from every reachable state whose queue begins with a connection at rest, a request can be answered on it, and it is at the end of the queue then |
| PoolCompletes.RegisterCompletes | server/pool.go:44-74 | a server pool that is unlocked can get a new connection, which joins list and queue |
| PoolCompletes.FillCompletes | client/pool.go:87-130 | a connector can add any number of connections up to min(PoolIdleSize - spare, PoolMaxSize - total), that many when all dials succeed and fewer when one fails |
| PoolCompletes.CleanCompletes | server/pool.go:91-111 | a listed connection that is not CLOSED, with nobody inside its lock, can be closed and taken off the list under that lock; its queue entry stays and nothing else changes |
| PoolCompletes.ShutdownCompletes | server/pool.go:122-139 | when nobody is inside the lock of a listed connection Shutdown can end: list empty, every former member CLOSED |
| LockOrder.EveryRoutineIsOrdered | server/server.go:246-267 | every routine acquires its mutexes in the order server, pool, connection, with a pool locked only connections of it, and releases them all; it offers with only the connection locked, and takes entries with nothing (server) or only the pool (client) locked; for `clean`, `Register`, `Request`, reader exit, pinger, connector, refresh and both shutdowns |
| LockOrder.ScriptDoes | server/server.go:246-267 | exactly which mutexes each routine locks, which pools it offers a connection to and from which it takes entries |
| LockOrder.RunInv | server/server.go:246-267 | with any number of threads, held mutexes are in order and no mutex has two holders |
| LockOrder.NoWaitCycle | server/server.go:246-267 | no chain of threads waiting for each other's mutexes is a cycle, and no chain is longer than five |
| LockOrder.FollowWaiting | server/pool.go:91-120 | from any lock holder the waiting leads to a holder that can step or stands before a full idle channel |
| LockOrder.SomeHolderCanStep | server/pool.go:91-120 | whenever a mutex is held some holder can step, or stands before a full idle channel; when every thread that offers has room some holder can step |
| LockOrder.RoomIffNotDoomed | client/pool.go:171-278 | some continuation gives a full idle channel room exactly when its capacity is not 0 and, in a client, no thread that has the pool locked will, before it takes an entry or unlocks the pool, lock a connection whose holder offers it before unlocking it |
| LockOrder.DoomedForever | client/pool.go:171-278 | otherwise, in every later state, the channel is full, the pool is locked, and every thread that was offering to the pool or waiting for its lock is where it was |
| LockOrder.DoomedIsReachable | client/pool.go:215-227 | in every client pool a run of first Releases and one Shutdown leads to such a state |
| ShutdownBlocks.BlockedForever | client/pool.go:215-278 | when Shutdown comes to a connection that is being offered to the full channel, the pool stays locked by it, the queue stays the same, and every thread that offers stays where it is |
| ShutdownBlocks.ShutdownCanBlock | common/writeConnection.go:60-70 | a run of a client pool of size 1 that gets there, with the entry of a connection that is off the list filling the queue |
| Serving.NextBalanced | common/readConnection.go:83-200 | every operation of the serving loop, successful or not, keeps the counts of consumed, produced and served in balance |
| Serving.RunBalanced | common/readConnection.go:83-200 | the balance holds after every sequence of operations |
| Serving.LoopHeadDiscipline | common/readConnection.go:83-200 | at every loop head without a failed write consumed == produced == 2 * served |
| Serving.IterationEnds | common/readConnection.go:83-200 | an iteration comes back to the loop head exactly when the request was read and answered, normally or by the 527 reply with `continue`; every other path leaves the loop |
| Serving.IterationMessages | common/readConnection.go:83-200 | how many messages an iteration reads and writes on every path; a request that cannot be decoded gets both messages of the 527 reply before the loop is left |
| Serving.IterateIsRun | common/readConnection.go:83-167 | the iterations of the loop are a run of its single operations |
| Serving.ReadConnection.constructor | common/readConnection.go:36-41 | a new connection has the given status and the zero idle time |
| Serving.ReadConnection.SendError | common/readConnection.go:170-200 | the 527 reply writes up to two messages, and succeeds exactly when both were written |
| Serving.ReadConnection.Receive | common/readConnection.go:95-119 | decoding and awaiting the body; stops exactly when one of them fails |
| Serving.ReadConnection.Execute | common/readConnection.go:121-142 | executes the request and answers it, by an error reply if execution or serialization failed |
| Serving.ReadConnection.Answer | common/readConnection.go:144-166 | writes the response; stops exactly when the head, the writer or the copy fails, and goes on after a failed Close of the writer |
| Serving.ReadConnection.ServeOne | common/readConnection.go:83-167 | one iteration is the function that `IterationEnds` is about, and leaves the connection open |
| Serving.ReadConnection.Turn | common/readConnection.go:83-167 | an iteration extends the iterated function by its round, and ends IDLE at the loop head or leaves the loop |
| Serving.ReadConnection.Loop | common/readConnection.go:83-167 | the loop runs exactly to the first iteration that does not continue |
| Serving.ReadConnection.Start | common/readConnection.go:50-168 | the loop stops exactly at the first iteration that does not continue, then the connection is CLOSED; blocked at its head it is IDLE, has served every request, and the counts agree |
| Serving.ReadConnection.Close | common/readConnection.go:203-220 | the status is CLOSED and the websocket is closed unless the status already was |
| Connections.WriteConnection.constructor | common/writeConnection.go:49-57 | a new connection has the given status, `nextResponse` open |
| Connections.WriteConnection.Take | common/writeConnection.go:260-274 | succeeds exactly on IDLE or CONNECTING, then BUSY; otherwise nothing changes |
| Connections.WriteConnection.Release | common/writeConnection.go:277-288 | a CLOSED connection is left alone, any other becomes IDLE now and is offered if the idle channel has room |
| Connections.WriteConnection.CloseWithOutLock | common/writeConnection.go:298-314 | CLOSED afterwards; `nextResponse` is closed once however often it is called |
| Connections.RemainingBound | common/utils.go:27-40 | the timeout left is at most the original one minus the time passed |
| Connections.BoundedWait | common/utils.go:18-40 | all waits together block no longer than the original timeout |
| Connections.RemainingIsExactIff | common/utils.go:38-38 | the timeout left is the original one minus the time passed exactly when no time had passed when the last wait began |
| Connections.GivesUpEarlyIff | common/utils.go:27-40 | with timers that fire after their full duration, the call gives up before the original timeout exactly when it dropped two entries or more, time had passed when the wait for the last of them began, and the timeout was not over when that one was dropped |
| Connections.GivesUpEarlyWitness | common/utils.go:27-40 | with a timeout of 10 it can give up after 6 |
| Connections.GetValueWithTimeout | common/utils.go:27-40 | ends within one wait more than there are entries, returns the first IDLE entry unless the timer fires before, drops only entries that are not IDLE, within the timeout; gives up early exactly when `GivesUpEarlyIff` says, never after dropping one entry only |
| Connections.Dequeue | server/pool.go:202-210 | finds a connection exactly when the queue has an IDLE entry and no timer fires before the first of them is received; takes that one, drops those before it, keeps the tail, changes no other status; without one it drops exactly the entries received before the timer |
| Connections.Exchange | server/server.go:116-125 | a success puts the connection used, IDLE again, at the end of the queue; a failure leaves it CLOSED |
| Types.Filtered | server/pool.go:149-174 | the loop of `RemoveWithoutLock` is the order-preserving filter |
| Types.WithoutMembers | server/pool.go:149-174 | that filter loses exactly the given connection |
| ServerPool.VisitingFilters | server/pool.go:79-111 | removing connections from a duplicate-free list while a snapshot of it is visited gives the filtered visited part and the unvisited rest |
| ServerPool.AllVisited | server/pool.go:79-111 | after all visits the list is the old one in order without exactly the expired ones, free of duplicates |
| ServerPool.EnoughIdleSurvive | server/pool.go:91-111 | at least min(idleSize, IDLE before) of the connections that are not expired are IDLE |
| ServerPool.EnoughIdleLeft | server/pool.go:91-111 | the same, counted in the list that Clean leaves |
| ServerPool.Pool.ReadTimeoutIsInert | server/pool.go:95-107 | of the read connections of a pool exactly those are expired that are IDLE beyond the first idleSize IDLE ones, if the timeout is below 9223372036 seconds, and none otherwise |
| ServerPool.Pool.constructor | server/pool.go:32-41 | an empty pool for the client |
| ServerPool.Pool.AddConnection | server/pool.go:44-68 | appends one new IDLE connection to the list of its type, unless the pool is done or the type unknown |
| ServerPool.Pool.RemoveWithoutLock | server/pool.go:149-174 | filters the list of the connection's kind and leaves the other alone |
| ServerPool.Pool.CleanConnection | server/pool.go:91-111 | closes and removes a connection exactly when it is IDLE, beyond `idleSize` and IDLE for at least timeout + 1 seconds in nanoseconds (`LongIdle`, which also covers negative and huge timeouts); counts the IDLE ones |
| ServerPool.TooLongIff | server/pool.go:98-98 | the saturating, truncating test comes to: IDLE for at least timeout + 1 seconds, for every clock reading and every timeout |
| ServerPool.ExpiredIff | server/pool.go:91-111 | which connections of each list are expired, in terms of status, count of IDLE ones up to it, and nanoseconds |
| ServerPool.Pool.CleanRead | server/pool.go:79-83 | the loop over a snapshot while the list field is replaced: after it exactly the expired read connections are gone and CLOSED |
| ServerPool.Pool.CleanWrite | server/pool.go:85-88 | the same for the write connections |
| ServerPool.Pool.Clean | server/pool.go:79-111 | each list is the old one in order minus exactly the expired connections; those are CLOSED, no other status changes, at least min(idleSize, IDLE before) IDLE ones remain; read connections are removed by their rank alone, write connections by rank and idle time |
| ServerPool.Pool.IsEmpty | server/pool.go:114-120 | cleans, then tells whether both lists are empty |
| ServerPool.Pool.Shutdown | server/pool.go:123-139 | every connection CLOSED, lists empty, done |
| ServerPool.Pool.GetAllBusyWriteConnections | server/pool.go:189-200 | exactly the BUSY write connections, in list order |
| ServerPool.Pool.GetIdleWriteConnection | server/pool.go:202-210 | a connection is returned exactly when an IDLE entry is received before a timer fires: the first IDLE one, now BUSY; the rest of the queue stays |
| ServerPool.Pool.Proxy | server/server.go:107-125 | a connection is used exactly when an IDLE entry is received before a timer fires; after a success it is IDLE at the end of the queue, after a failure CLOSED and off the list; nothing else changes |
| ServerPool.Pool.Reachable | server/server.go:220-239 | if an IDLE entry is received in time the answer is that of the ping, otherwise whether some connection is BUSY; no status changes, and the queue loses exactly the entries received before, the one asked being at its end |
| ServerPool.Pool.Ping | common/writeConnection.go:115-149 | SendPingMessage releases the connection whatever became of the ping: it is IDLE, and the queue is what came after it followed by it |
| Registry.Server.FindPool | server/server.go:190-198 | the linear scan finds exactly what the map lookup finds |
| Registry.Server.Enroll | server/server.go:185-208 | the registry afterwards is the old one with one new connection at the end of the list of its type in the pool of the client, which gets the idle size; a pool that is made for it has an empty queue, and no other queue and no other pool changes |
| Registry.Server.Register | server/server.go:129-210 | the registry invariant is kept; a valid registration adds exactly its connection to the pool that `Request` looks up, one of unknown type adds none; every queue and the pools of other clients stay; a rejected or malformed one changes nothing |
| Registry.Server.RegisterClient | server/server.go:165-208 | a greeting printed by the client puts a connection of the opposite role into its pool, whose queue stays |
| Registry.Server.Request | server/server.go:83-126 | fails for want of a pool exactly when the client is not registered; otherwise a connection is used exactly when an IDLE entry is received before a timer fires, queue and statuses are as `Proxy` says, and nothing else in the registry changes but that a connection whose exchange failed is off the list |
| Registry.Server.Leave | server/pool.go:177-181 | the Remove of an ending connection takes exactly it off the list of its pool and changes nothing else |
| Registry.Server.ConnectionStatus | server/server.go:212-240 | an unregistered client is not connected; for a registered one the answer is that of the ping if an IDLE entry is received in time, and otherwise whether some connection is BUSY; asking changes no list and no status, and the queue as `Reachable` says |
| Registry.Server.Clean | server/server.go:246-267 | every pool has lost exactly the connections that were expired by its own clock and status, these are CLOSED and no other status has changed; dropped and shut down are exactly the pools in which nothing was left; the registry invariant is kept |
| Cleaning.CleanPool | server/server.go:257-262 | one pool of the loop: cleaned, and shut down exactly when nothing is left |
| Cleaning.CleanOne | server/server.go:256-263 | cleaning one pool settles its own connections and leaves those of all other pools alone |
| Cleaning.CleanAll | server/server.go:255-265 | after the loop every pool is cleaned, and the pools kept are exactly those in which something is left |
| History.KeptOrEnded | server/server.go:83-267 | under one operation a listed connection stays listed exactly when the operation does not end its membership |
| History.ListedUntilEnded | server/server.go:83-267 | over any history of registrations, cleans, requests and leaving connections, a listed connection stays listed exactly until it is expired at a clean, its own exchange fails, or it leaves |
| History.RegisteredIsFound | server/server.go:185-208 | a connection that a registration added is found by every later request for that client, until an operation ends its membership |
| Greeting.SplitJoins | server/server.go:166-166 | splitting is the inverse of joining, and fields contain no separator |
| Greeting.AtoiPrintInt | client/utils.go:73-78 | the integer parser reads back every int64 the printer writes, and no printed int contains the separator |
| Greeting.AtoiIff | server/server.go:168-174 | exactly which strings are read as which int: digits after an optional sign, in range |
| Greeting.GreetingRoundTrip | client/utils.go:62-78 | for every int idle size and both roles the server recovers what the client printed, and the two ends have opposite roles |
| Greeting.GreetingText | client/utils.go:62-66 | the texts `10_1` and `10_0` that a client with PoolIdleSize 10 sends |
| Greeting.ParseAccepts | server/server.go:165-179 | a greeting is accepted exactly when its first two fields are integers in range; anything after a second underscore is ignored |
| Greeting.ParsePanics | server/server.go:166-174 | the handler indexes out of range exactly on an integer without an underscore |
| PoolSizes.CreatesMissing | client/pool.go:121-130 | the number to create is min(idleSize - idle, maxSize - total) |
| PoolSizes.BoundHoldsIff | client/pool.go:121-130 | for all counts the list stays within PoolMaxSize, if and only if the configured sizes do not overflow int64 |
| ClientPool.GapFills | client/pool.go:87-156 | a list stays within its limit; if nothing failed its IDLE and CONNECTING members are at least PoolIdleSize or it is full; if that was so before, nothing is created |
| ClientPool.Made | client/pool.go:132-156 | the number of connections made is the number of successes before the first failure |
| ClientPool.Pool.constructor | client/pool.go:30-42 | an empty pool with the default retry interval |
| ClientPool.Pool.RemoveWithoutLock | client/pool.go:180-205 | filters the list of the connection's kind and leaves the other alone |
| ClientPool.Pool.Size | client/pool.go:236-259 | counts the members of each list that are IDLE and those that are CONNECTING |
| ClientPool.Pool.CreateRead | client/pool.go:134-152 | appends a CONNECTING connection, or after a failure leaves the list as it was; status 526 is an invalid cluster key whatever else failed, and a failed dial or greeting is an error |
| ClientPool.Pool.CreateWrite | client/pool.go:134-152 | the same for a write connection |
| ClientPool.Pool.CreateReads | client/pool.go:132-156 | keeps precisely the connections made before the first failure, whose error it returns |
| ClientPool.Pool.CreateWrites | client/pool.go:132-156 | the same for the write connections |
| ClientPool.Pool.Connector | client/pool.go:87-119 | fills both lists; after a failure precisely the connections made before it are there, no write connection if a read connection failed; both lists stay within PoolMaxSize |
| ClientPool.Pool.FillReads | client/pool.go:91-104 | the list of read connections is filled as far as the dials succeed |
| ClientPool.Pool.FillWrites | client/pool.go:106-117 | the same for the write connections |
| ClientPool.Pool.Shutdown | client/pool.go:215-227 | every connection CLOSED, lists empty, done; the second time it panics, before it changes anything |
| ClientPool.Pool.Reschedule | client/pool.go:72-83 | the next retry interval is the one the history of results demands; ready is set when the idle channel holds PoolIdleSize entries |
| ClientPool.Pool.StartInternal | client/pool.go:61-84 | the connector fills the lists as far as its dials succeed; then an invalid key shuts the client down, killed and ready, interval unchanged, with every member CLOSED, those of this tick too, or panics if it was shut down before, leaving the lists as the connector left them; every other result leaves them too and sets the interval |
| ClientPool.Pool.GetIdleWriteConnection | client/pool.go:269-278 | a connection is returned exactly when an IDLE entry is received before a timer fires: the first IDLE one, now BUSY; the rest of the queue stays |
| ClientPool.Pool.Proxy | client/client.go:112-132 | a connection is used exactly when an IDLE entry is received before a timer fires; after a success it is IDLE at the end of the queue, after a failure CLOSED and off the list; nothing else changes |
| ClientPool.Pool.Request | client/client.go:91-142 | a killed client touches nothing; otherwise a connection is used exactly when an IDLE entry is received before a timer fires, after a success it is IDLE at the end of the queue, after a failure CLOSED and off the list; only the responses 401 and 419 start a refresh |
| ClientPool.RetryInterval | client/pool.go:72-80 | the field `retryInterval` is min(default * 2^k, max) after k failures since the start or the last success |
| Backoff.SinceLastSuccess | client/pool.go:72-80 | what happened before the last success does not matter |
| Backoff.NoOverflow | client/pool.go:72-77 | k failures give min(default * 2^k, max) when the doubled values fit in int64 |
| Backoff.Overflows | client/pool.go:72-77 | otherwise some number of failures gives another interval |
| Backoff.BackoffIsExponential | client/pool.go:72-80 | the interval is min(default * 2^k, max) for all k exactly when twice the default and twice the maximum fit in int64 nanoseconds |
| TokenRefresh.StepInv | client/wspLogin.go:70-91 | every step of every thread keeps the invariant of the refresh guard |
| TokenRefresh.RunInv | client/wspLogin.go:70-91 | the invariant holds in every reachable state, with any number of threads |
| TokenRefresh.SingleFlight | client/wspLogin.go:70-91 | at most one thread is inside `updateAuthTokenFromZkCloud` |
| TokenRefresh.NoneEntersAfterKilled | client/wspLogin.go:81-86 | once `killed` is set it stays set and no thread enters the update any more |
| TokenRefresh.CredentialsBelongTogether | client/wspLogin.go:164-176 | when no thread is inside the update, token and cluster id come from the same answer |
| TokenRefresh.GuardLeak | client/wspLogin.go:81-90 | with no refresh under way the guard is set exactly when the killed error was returned, which happens at most once |
| TokenRefresh.GuardLeaks | client/wspLogin.go:81-84 | a run that ends with the guard set and no thread in a call |
| TokenRefresh.LeavesGuardIffKilled | client/wspLogin.go:70-91 | a call that no other call overlaps, from a clear guard, leaves it set exactly when `killed` was set before the call |
| TokenRefresh.SkippedForever | client/wspLogin.go:73-84 | after the killed error every call that returns is a skipped one |
| TokenRefresh.Uninterrupted | client/wspLogin.go:70-91 | a call without interference is a run of the step system and has the effect of the function `Refresh` |
| TokenRefresh.WspLogin.UpdateAuthToken | client/wspLogin.go:93-176 | an error changes nothing; an answer stores both credentials and can set `killed` but not clear it |
| TokenRefresh.WspLogin.RefreshWspToken | client/wspLogin.go:70-91 | the method computes `Refresh` |
| TokenRefresh.WspLogin.Create | client/wspLogin.go:49-64 | there is an object exactly when the first refresh got an answer, with what that answer said |

## Left out

- Websocket framing, dialing, TLS and the HTTP upgrade; a websocket is two queues of messages and any operation may fail.
- `net/http` handlers, headers, status pages, URL and JSON parsing, and the rules in `request.go`: library code with only easy facts left.
- Kubernetes secrets, YAML configuration, logging, `ValidateKeyWithZkCloud` and the steps of the login call: each is an outcome given as a parameter.
- Liveness: a peer that never replies, fairness of `select`, and when tickers fire. An exchange has no timeout in the source.
- Data races on fields read without a lock beyond the steps given, such as the read of `Status` in `GetValueWithTimeout` and the stores of the two credentials, which are steps of their own.
- Ping and pong frames as messages, and two goroutines writing to one websocket: the keep-alive of `ReadConnection.Start` appears only in `LockOrder`.
- The HTTP transport reading the request body while the serving loop already writes the response.
- Status changes by other threads during one call of a class method: the classes are sequential, and interleavings are in `Exchange`, `PoolSystem`, `LockOrder` and `TokenRefresh`. A read of the pool size that is out of date cannot break the bound (`BoundHoldsIff` and `WithinStep` are about all counts).
- An idle channel of capacity 0, which hands a connection from the thread that offers to one that waits: in `LockOrder` it never has room. A client with PoolMaxSize 0 makes no connection.
- The pool lock in `PoolSystem` beyond the connector and Shutdown: taking an entry in the client is one step, which needs the pool unlocked; a single registration or removal is one step there, and a removal may come while the pool is locked, which allows more runs than the source has.
- CLOSED as an absorbing status of `ReadConnection`, whose loop writes `Status` without the lock and can overwrite it.
- `Server.Shutdown` racing with `Register`.
- The unused `add` of the client pool, the status pages, and the copies of the result into the HTTP response.
- GetValueWithTimeout: int64 overflow of the repeatedly reduced timeout is not modelled.
- ReadTimeoutIsInert: `Duration.Seconds` is a float in the source; the model truncates the exact quotient.
- OfferHasRoom: needs its two conditions on the list, because the entry of a connection that is gone can fill the queue (`ShutdownBlocks.ShutdownCanBlock`).
- SomeHolderCanStep: a full idle channel can block a holder in `Offer`; whether that can end is what `LockOrder.RoomIffNotDoomed` says.
