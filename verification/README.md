# A verified model of the Polkadot worker's RPC protocol and mappers

The worker talks to Polkadot nodes over websockets. Many callers push JSON-RPC requests onto one shared
channel; one goroutine per node connection takes them, gives them ids of its own, remembers them in a map and
matches replies (client side of the JSON-RPC 2.0 Specification, section 4 "Request object" and section 5
"Response object"). On top of that, flows borrow a channel from a pool, send batches of requests, gather the
replies in whatever order they come, consult two caches, and map the decoded block to transactions and events.

The project models this as one concurrent protocol with the pure stages behind it, and proves what the code
promises its callers, over every run and every interleaving. Where the code does something else than one would
expect, the exact condition is proved instead.

## Files

- `Rpc`, `Connection`, `Multiplexer`, `Calls`, `Ageing`, `Causes`, `Sweeps`: the state one connection run keeps, as a class
  with the source's own methods; the protocol of any number of runs as a state machine; the ledger of calls it
  refines; the age of pending entries; why a call is told what it is told; and the agreement between the methods and
  the steps.
- `ReplyLoops`, `Batches`, `Sessions`, `SessionRuns`, `SessionSafety`, `BlockPool`: how a caller uses a channel, as
  an automaton; borrowers, pool, cleanup goroutines and the shared hash cache interleaved with the multiplexer;
  the pool as a class.
- `BlockHashes`, `HashResults`, `OtherReplies`, `DecodeStore`: the gatherers with their caches.
- `Flows`, `Conduct`, `FlowsInSystem`, `EndToEnd`: the two flows that use a channel, act by act; that they follow
  the automaton; that holders in the interleaved system do; and what gatherers return there.
- `FlowReads`, `FlowValues`: the values of the two flows, followed through the interleaved system.
- `Reconnect`, `Health`: the restart loop of one address and the health monitor.
- `Texts`, `Dedupe`, `Traversal`, `EventParsing`, `EventMapper`, `TransactionMapper`, `Pairing`: from raw events
  and extrinsics to transactions with ids.
- `RoundRobin`: client selection.

`dafny verify dfyconfig.toml` checks everything.

## What the code does that one might not expect

- `indexer/getBlock.go:279` looks up `height - 1` for the grandparent; with that height cached the grandparent
  returned is the parent's hash. `HashResults.SameAsUncachedIff` says exactly when caching is transparent.
- `indexer/getBlock.go:293-295` returns before heights 0 and 1 are normalised when every lookup hits.
- `getOthers` swallows errors among the first six replies, waits forever when the seventh is an error, and
  overwrites a decoding error by a later success (`OtherReplies`).
- The error object of a reply is not decoded and arrives as an empty result. GetBlockHashes and GetAccount report
  that as an error of their own; `getOthers` and `GetMetadata` cut the result and die of it
  (`OtherReplies.PanicsIff`, `DecodeStore.FromReply`), and so does getLatestHeight when the head is such a reply and
  a header follows (`BlockHashes.LatestHeight`).
- A message without an id decodes to id 0 and is taken for the reply to wire id 0 when that is pending
  (`Calls.MissingId`, `Calls.MissingIdCanMisdeliver`).
- After its context has ended an address stays online for good if its last run had dialled
  (`Reconnect.StaleForGoodIff`).
- The positional fallback of the pairing can give two transactions the same event id (`Pairing.CollisionIff`).
- Round-robin selection is fair over all kinds of clients together, but for one kind only when its calls are spread
  equally over the places modulo the number of connections (`RoundRobin.FairPerServiceIff`).

## Assumptions

- The node answers only messages it received, under the id that the message carried (`Calls.Faithful`). Where this is not
  assumed it does not appear among the conditions.
- Results are at least two bytes long where a lemma says so; the methods model shorter ones as a dead process.
- The chain is canonical and fixed: one hash per height, one metadata per spec version, and a header tells the height
  of the head it was asked for, when that head is no shorter than two bytes. `SameAsUncachedIff` also
  takes neighbouring hashes to be different and not empty, without which its "only if" would be false.
- One hash per height (`EndToEnd.ServesChain`) also rules out the four bytes `null` that a node answers for a height it
  does not have yet: `indexer/getBlock.go:313-316` would cut them to `ul` and put that in the cache.
- Wire ids do not wrap (they are uint64 and restart with every connection). The uint8 counters of the health
  monitor and of `getOthers` are modelled with their wrap-around.
- Session balance, pool ownership, room in pooled channels, that no request on them is dropped, cache agreement and
  the results over the network hold in every run. Timing is needed for one thing only, that the ten-minute branch of
  the cleanup is never too early, and so that no send meets a channel which that branch closed: whenever it is taken,
  ticks, teardowns and reports of encoding errors must be late by no more than a grace period
  (`SessionRuns.Prompt`), which with the timeout and the tick stays under ten minutes (`SessionRuns.Sane`).
- A send on a closed channel kills the process, so a run has no such step.
- Requests made on channels outside the pool, such as that of the health monitor, are arbitrary.
- Any number of connections may serve one address at once in `Multiplexer`; `Reconnect` shows that at most one does.

## Model

| member | source | states |
|---|---|---|
| Connection.Connection.HandleRequest | api/api.go:289-320 | A request uses up one wire id even when it cannot be encoded. When it can, one message goes out that carries the wire id, the call, and version 2.0 if the caller left it empty, and before that the entry is in the map under that very id with the caller's own id, method, channel and the time; a refusal is answered at once; a failed write ends the run. |
| Connection.Connection.Receive | api/api.go:188-203 | A reply takes exactly the entry of its id out of the map and is sent to that entry's channel with the caller's own id and method; without room for five seconds it is dropped but the entry is gone all the same; an unknown id changes nothing. |
| Connection.Connection.CheckTimeouts | api/api.go:336-360 | One tick fails an entry if and only if more than the timeout has passed since it was stored, each once, whatever order the map is ranged over; every other entry stays as it was. |
| Connection.Connection.Drain | api/api.go:321-330 | The teardown fails every pending entry once and leaves the map empty. |
| Connection.FailuresAt | api/api.go:322-327 | Send number i of a sweep answers entry number i: its channel, its caller id, its method. |
| Sweeps.DrainIsItsSteps | api/api.go:321-330 | Running Drain entry by entry in the multiplexer sends on every channel exactly what the method sends, in order, empties the map and lets the run finish. |
| Sweeps.CheckIsItsSteps | api/api.go:346-359 | The same for a tick of the timeout checker: what it sends and removes is what its steps send and remove, and the tick can then complete. |
| Multiplexer.StepKeepsInv | api/api.go:247-360 | Every step of every party (accept, refuse, write, failed write, reply, timeout, tick, cancel, leave, drain, channel operations) keeps maps, tickets and channel contents consistent. |
| Calls.RunKeepsInv | api/api.go:247-360 | That consistency holds in every state of every interleaving of any number of connections and reconnects. |
| Calls.ExactlyOnePlace | api/api.go:289-330 | In every reachable state an accepted request is in exactly one place: in the hands of the run that could not encode it, pending under one wire id of one connection, answered by one item of its own channel, or dropped. |
| Calls.StepRefinesLedger | api/api.go:188-203 | One step of the protocol is, seen by the callers, nothing, one new call, or one final fate for one open call with its own id, its own method and a result of the node for that very call. |
| Calls.EveryReplyIsOwn | api/api.go:189-196 | Over whole runs every response sent answers its own request, although callers reuse ids, several connections share the requests and reconnects restart wire ids at 0. Of the node it is assumed that it answers a message it received, under the id that message carried. |
| Calls.DeliveredItemIsOwn | api/api.go:290-312 | The same read off a channel: every item on it belongs to a request made on that channel, with that request's id and method. |
| Calls.FatesAreFinal | api/api.go:188-203 | Whatever the node sends, a call that got its response keeps it for the rest of the run and gets no other. |
| Calls.SettledStaysSettled | api/api.go:290-312 | A wire id that was settled is never pending again on its connection, and a late or duplicate reply to it leaves the whole state as it is. |
| Calls.DrainedForever | api/api.go:321-333 | After a connection has drained none of its requests is pending, then or later in the run. |
| Calls.ReplyIsOwnIff | api/api.go:189-196 | A message that hits a pending id keeps replies correct if and only if its result answers the call pending there. |
| Calls.MissingId | api/api.go:179-203 | A message without an id, meant for wire w other than 0, changes nothing if and only if wire 0 is not pending; otherwise it takes the entry of wire 0 and leaves that of w pending. |
| Calls.MissingIdMisdelivers | api/api.go:189-196 | With wire 0 pending, the answer to w goes to the channel of wire 0 under that caller's id, and replies stay correct only if the node gives that answer to both calls. |
| Calls.MissingIdCanMisdeliver | api/api.go:189-196 | A run of two calls in which it happens: the first caller is told the answer to the second call. |
| Ageing.StepKeepsTimeInv | api/api.go:346-359 | Every step keeps this: what the last tick of a connection left in the map was not expired then. |
| Ageing.AgeBound | api/api.go:336-360 | In every run, while the last tick is at most ten seconds old, no entry and no call pending on that connection is older than the timeout plus ten seconds. |
| Causes.FaultsHaveTheirCause | api/api.go:336-360 | In every run, whoever is told that a request timed out made it more than the timeout before; whoever is told that the connection closed had it pending on a run in teardown; an encoding error is told by the run that had it in hand; and a result is that of a message under the wire id of the request. |
| Causes.OpenCallsCanEnd | api/api.go:188-203 | In every run, while the channel of an open call is open and has room: an answer under its wire id would be told to it, with its own id and method, and so would a refused encoding, the teardown of its run, and a time-out once more than the timeout has passed. |
| Causes.RequestsGoOut | api/api.go:289-320 | A run that listens can take any request and then write it: the message has the wire id that the request is pending under, and its call. |
| Causes.RunsCanEnd | api/api.go:275-333 | A run that listens can always be cancelled; after that its checker can stop and fails no entry any more, and the run can leave with its map as it is; with the map drained, and only then, it can finish. |
| Causes.FailedWriteDrains | api/api.go:313-318 | When a write fails the request stays pending and the run goes into its teardown, whether the message reached the node or not. |
| Sessions.Balance | indexer/getBlock.go:293-340 | On a borrowed channel the requests sent in a batch are those still open plus those answered since the batch began, each once, in whatever order the answers came. |
| SessionSafety.StepKeepsDiscipline | indexer/pool.go:132-166 | Every step of callers, pool, cleanup goroutines and multiplexer keeps the session discipline, whatever the timing. |
| SessionSafety.RunKeepsDiscipline | indexer/pool.go:132-166 | The discipline holds in every state of every run. |
| SessionSafety.BorrowedChannelsBalance | indexer/getBlock.go:354-380 | In every state of every run, for every borrower: requests sent in its batch are those open plus those answered since it began, and open requests plus unread replies are at most seven. |
| SessionSafety.NothingOutstandingOnReturn | indexer/getBlock.go:58-60 | In every run, when a channel goes back to the pool, is closed by a full pool or is abandoned, no request is outstanding on it and no reply is unread. |
| SessionSafety.BatchesAreWhole | api/api.go:160-170 | Because the latch is never reset, a refused send is always the first of its batch: batches are sent whole or not at all. |
| SessionSafety.RestingCanGoOn | indexer/getBlock.go:58-87 | A borrower at rest can always begin any batch, put its channel back or leave it. |
| SessionSafety.SendingCanGoOn | indexer/getBlock.go:243-295 | One that is asking can always make its next lookup, send its next request to any run that listens, be refused while no connection was ever up, or end its asking. |
| SessionSafety.ReadingCanGoOn | indexer/account.go:45-69 | One that is reading can take a reply as soon as there is one, and give up the wait for a single reply at any time. |
| SessionSafety.CleaningCanGoOn | indexer/account.go:87-110 | The cleanup goroutine can take the reply as soon as it is there, and give up when ten minutes have passed. |
| SessionSafety.ClosingCanGoOn | indexer/account.go:97-109 | And after the reply it can close the channel. |
| SessionSafety.PooledDeliveriesNeverBlock | api/api.go:193-199 | In every run a pending entry of a pooled channel finds room there unless that channel was closed; in prompt runs it finds the channel open too, so no delivery under the map lock blocks and the dropping branch is never taken. |
| SessionSafety.PooledChannelsHaveRoom | api/api.go:193-199 | In every run the channel of an open request has room for every reply still to come while it is open, and if it is closed then the ten-minute branch of the cleanup closed that very channel at an earlier step. |
| SessionSafety.OnlyLateClosesCutOff | indexer/account.go:97-109 | In every run, if a request is open on a closed channel, an earlier step was the ten-minute branch closing that channel while the request was open. |
| SessionSafety.PooledRequestsAreNeverLost | api/api.go:193-203 | In every run no request made on a pooled channel is ever dropped: once resolved it has its one response. |
| SessionSafety.ClosedInTimeStaysShut | indexer/pool.go:146-156 | In every run a channel closed by Put for want of room, or by the cleanup after the last reply, stays closed with no request open on it ever after: its closing never meets a later send. |
| SessionSafety.NoSendOnClosedChannel | indexer/account.go:97-109 | In runs with prompt ticks no closing at all, that of the ten-minute branch included, meets a later send: the channel of every open request exists and is open. |
| SessionSafety.PoolOwnership | indexer/pool.go:132-156 | In every run no channel has two borrowers or is both pooled and borrowed; the pool never outgrows its capacity; what it holds is open, empty and owed nothing. |
| SessionSafety.ReturnAppends | indexer/pool.go:146-156 | A channel that is put back goes behind the others, open, or is closed when the pool is full. |
| SessionSafety.BorrowTakesFirst | indexer/pool.go:132-144 | A borrower gets the channel that was put back first, with nothing waiting on it. |
| SessionSafety.BorrowMakesNew | indexer/pool.go:132-144 | When the pool is empty a borrower gets a new channel of capacity 20. |
| SessionSafety.TimedOutNeverPooled | indexer/account.go:66-69 | In every run a channel whose caller stopped waiting is never in the pool again. |
| SessionSafety.CleanUpNeverTooEarly | indexer/account.go:97-109 | When timeout, tick and slack together are under ten minutes, ten minutes after a wait was given up nothing is outstanding on its channel. |
| SessionSafety.CleanUpInTime | indexer/account.go:97-109 | Over runs, with the timeouts of 30 and 60 seconds that the two programs set and less than 530 seconds of slack, the ten-minute branch never closes a channel whose reply is still to come. |
| BlockPool.GetBlockPool.Get | indexer/pool.go:132-144 | Hands out the channel put back first, emptied, or a new one of capacity 20; the other channels are untouched. |
| BlockPool.GetBlockPool.Put | indexer/pool.go:146-156 | Appends the channel, or closes it when the pool is full; the pool stays within its capacity and without repetition. |
| BlockPool.CleanupTimeoutedCh | indexer/account.go:87-110 | Closes the channel after the num-th reply or the first ten minutes without one, whichever comes first, and not before. |
| Batches.SentIsReadPlusOwed | indexer/getBlock.go:293-340 | On any path of the automaton that a caller follows on its channel, the requests sent are the replies read plus those owed; back at rest nothing is owed, whatever the replies were. |
| Flows.FetchHashes | indexer/getBlock.go:62-72 | Acts on the channel and outcome are, at every exit, those that the replies, the latch and the lookups determine, and the lookups are of the cache as it then was. |
| Flows.GatherBlock | indexer/getBlock.go:58-87 | The same for blockAndTx: the record is read at the three hashes, the metadata at the grandparent for the version named by the runtime reply; the store gains just that version. |
| Flows.GatherAccount | indexer/account.go:20-152 | The same for GetAccount: version, metadata and account are read at the block of the height asked for. |
| Flows.BlockAndTx | indexer/getBlock.go:58-60 | Borrows the channel that was put back first and gives that very channel back exactly when the flow returns. |
| Flows.GetAccount | indexer/account.go:20-85 | The same, except that on a timed-out wait the channel stays out of the pool, with the cleanup. |
| Conduct.BlockConducted | indexer/getBlock.go:58-87 | blockAndTx follows the automaton whatever it meets, seven requests bringing at most seven replies: batches whole or refused at the first send, each read to its end, and at rest when it returns; it never hands its channel over. |
| Conduct.GetAccountConducted | indexer/account.go:20-152 | GetAccount follows it too, and ends owed one reply exactly when it hands its channel over. |
| Conduct.ConductedBalance | indexer/getBlock.go:58-164 | So a flow that gives its channel back has read one reply for every request it sent, and one that hands it over is owed exactly one. |
| FlowsInSystem.HoldersFollow | indexer/getBlock.go:243-431 | In every interleaving a holder of a channel is where the automaton puts it after the acts it has done. |
| FlowsInSystem.BlockAndTxReturnsClean | indexer/getBlock.go:58-60 | A holder that did the acts of a returning blockAndTx can put its channel back, with nothing outstanding or unread on it, whatever everybody else did meanwhile. |
| FlowsInSystem.GetAccountReturnsClean | indexer/account.go:20-85 | The same for GetAccount; when it gave up, its channel is with the cleanup. |
| EndToEnd.SysRepliesAreOwn | api/api.go:188-203 | In runs of the whole system, clients and pool included, every response answers its own request. |
| EndToEnd.LoopReadsItsOwnBatch | indexer/getBlock.go:293-340 | When a reply loop returns it has read one own reply for every request of its batch and nothing else: nothing stale, nothing of another caller, nothing twice. |
| EndToEnd.CacheAgrees | indexer/getBlock.go:199-204 | In every reachable state of the whole system, under arbitrary eviction and with all callers putting what their replies say, each cached hash and each lookup result is the chain's. |
| EndToEnd.HashIsCached | indexer/getBlock.go:308-318 | Once the reply with the hash of its own height was read, the cache has the chain's hash there. |
| EndToEnd.HeadIsCached | indexer/getBlock.go:199-204 | Once the header of a head was read, the cache has that head, which is the chain's hash, under the height the header has. |
| EndToEnd.LookUpFinds | indexer/getBlock.go:243-292 | A lookup finds what is cached: for the height itself first, then twice for the height below. |
| EndToEnd.EvictedIsMissed | indexer/getBlock.go:243-248 | What was evicted is missed by a later lookup, and nothing else is. |
| EndToEnd.BlockHashesOverTheNetwork | indexer/getBlock.go:243-350 | A call of GetBlockHashes anywhere in such a run, whatever it found in the shared cache, returns the hashes of the chain if its replies are successes, with the parent and grandparent the code really gives. |
| EndToEnd.CachedHashesOverTheNetwork | indexer/getBlock.go:293-295 | So does a call that finds everything in the cache. |
| EndToEnd.OthersOverTheNetwork | indexer/getBlock.go:352-431 | A call of getOthers anywhere in such a run, with seven successes, returns a record of the node's own answers to seven calls: system_chain; chain_getBlock and the storage of time and events at the block; the storage of fee multiplier and era at the parent; state_getRuntimeVersion at the grandparent. |
| FlowReads.BatchIsOwn | indexer/getBlock.go:293-340 | In every faithful run, a holder whose acts are a batch read to its end was told, by exactly those reads, one own reply for each request of the batch. |
| FlowValues.FetchedFromTheChain | indexer/getBlock.go:62-72 | A holder that did the acts of a successful height and hash part holds the chain's hashes of the height asked for, with the parents as the code reports them; for height 0 the block is an answer of the node to chain_getFinalizedHead. |
| FlowValues.BlockAndTxIsTrue | indexer/getBlock.go:58-87 | In every faithful run, whatever the others do: a holder that did the acts of a blockAndTx which succeeds on seven results holds the hashes of the chain; a record whose every field is an answer of the node to the call of that field at the block, the parent or the grandparent; and the metadata stored for its version or answered to state_getMetadata at the grandparent. |
| FlowValues.GetAccountIsTrue | indexer/account.go:20-152 | The same for a GetAccount that succeeds: hashes of the chain, and the node's answers to state_getRuntimeVersion, state_getMetadata and state_getStorage of the account key, all at the block of the height asked for. |
| BlockHashes.OpsKeepAgreement | indexer/getBlock.go:199-204 | Puts that agree with the chain and any evictions keep the cache agreeing with it. |
| BlockHashes.GetBlockHashes | indexer/getBlock.go:243-350 | The method, with its three lookups between which others act, its sends and its reply loop, computes HashesOf, does HashActs on its channel, and changes the cache only by evictions, by what others put, and by the hash of its own height, which is there in the end if a reply gave it and nobody else touched that height meanwhile. |
| BlockHashes.GetLatestHeight | indexer/getBlock.go:166-206 | The method computes LatestHeight, asks for the header of the very head it got, and puts the head under the decoded height exactly when it succeeds. |
| BlockHashes.HeightKeepsAgreement | indexer/getBlock.go:199-204 | The entry that getLatestHeight adds keeps the cache agreeing with the chain. |
| HashResults.RepliesInAnyOrder | indexer/getBlock.go:298-350 | For every order of successful replies the call reads exactly what it asked for and returns the same three hashes. |
| HashResults.UncachedIsTheChain | indexer/getBlock.go:243-350 | With an empty cache these are the hashes at height, height - 1 and height - 2, clamped at the genesis block. |
| HashResults.SameAsUncachedIff | indexer/getBlock.go:276-295 | The cached result equals the uncached one if and only if the lookup of height - 1 made for the grandparent misses (above height 1), not both hashes are cached (height 1), or the hash is not cached (height 0). |
| HashResults.NextHeightRepeatsParent | indexer/getBlock.go:276-292 | Right after height h was fetched, height h + 1 is reported with the hash at h as parent and as grandparent. |
| HashResults.ReadsExpectedAndReportsErrors | indexer/getBlock.go:293-340 | Whatever replies come, the call returns after exactly as many as it asked for and reports an error if and only if one of them was an error or had an empty hash. |
| HashResults.EachHashIsItsReplys | indexer/getBlock.go:293-350 | Whatever replies come, errors among them, each hash is that of the last reply with its id that has one, or what its lookup found; only without an error do heights 0 and 1 get their parents from the block and the parent. |
| HashResults.CallKeepsCacheAgreement | indexer/getBlock.go:298-318 | A call leaves the cache agreeing with the chain if what others put meanwhile, up to the end of its reply loop, does. |
| OtherReplies.GetOthers | indexer/getBlock.go:352-431 | The method with its uint8 counter computes the fold Loop of its replies, and sends nothing or its seven calls in order, two at the parent, one at the grandparent and the rest at the block. |
| Rpc.UnquoteRoundTrip | indexer/getBlock.go:395-397 | Cutting the quotes off a result gives what one byte on either side encloses. |
| OtherReplies.ReturnsIffSeventhSucceeds | indexer/getBlock.go:384-431 | Seven replies end the loop if and only if the seventh is not an error, and all seven are then read; otherwise it waits for an eighth. |
| OtherReplies.FieldsHoldTheirReplies | indexer/getBlock.go:395-423 | After any replies in any order each field holds its own reply, or is blank when that reply is missing or was an error. |
| OtherReplies.RepliesInAnyOrder | indexer/getBlock.go:384-431 | For every permutation of seven successful, well-formed replies the result is one and the same record, block and runtime version. |
| OtherReplies.EarlyErrorIsSwallowed | indexer/getBlock.go:387-394 | An error among the first six replies goes unnoticed: no error, and a blank field. |
| OtherReplies.ErrorIffLastParseFails | indexer/getBlock.go:401-407 | An error is reported if and only if the later of the block and runtime replies is malformed: it depends on the order. |
| OtherReplies.PanicsIff | indexer/getBlock.go:395-423 | The call kills the process if and only if one of the replies names a field without an error and with less than two bytes; every error object of the node does. |
| DecodeStore.DecodeStorage.SetMetadataDecoder | api/scale/scale.go:87-119 | Stores a copy in a fresh buffer under the version, only when the metadata decodes, and leaves the other versions alone. |
| DecodeStore.DecodeStorage.GetMDecoder | api/scale/scale.go:77-85 | Finds exactly what is stored for the version, and only for the network the store was set to. |
| DecodeStore.GetMetadata | indexer/getBlock.go:219-241 | Returns the stored bytes or those of the reply, which it then stores; the store is untouched otherwise; its acts on the channel are one request with its reply, or none. |
| DecodeStore.OverlappingCallsAgree | indexer/getBlock.go:221-240 | However calls overlap, several missing one version included, the store agrees with the metadata of the chain and forgets nothing, and each call is answered as a direct query would be. |
| Reconnect.StepKeepsInv | api/api.go:207-245 | Every step of the restart loop and of its connection runs keeps: all epochs but the last are finished and taken, and the channel holds the last token if it is due. |
| Reconnect.TokenConservation | api/api.go:207-245 | Live runs plus tokens in the channel plus restarts in progress are always exactly one, even after the context ended. |
| Reconnect.SendNeverBlocks | api/api.go:255-260 | Sending the finish token never blocks. |
| Reconnect.OneEpochServes | api/api.go:207-245 | Two epochs of one address never serve at once. |
| Reconnect.OnlineIffTokenNotTaken | api/api.go:270-272 | An address is online exactly while a dialled epoch has its token not yet taken, and that epoch serves unless the token waits in the channel. |
| Reconnect.LatchNeverFalls | api/api.go:271-271 | The latch of Send, once set by a dial, stays set. |
| Reconnect.ComesBack | api/api.go:217-245 | Until the context ends, whenever no run of an address is live the loop can take the token, which puts the address offline, and restart, after which exactly one run is live. |
| Reconnect.LiveRunCanAct | api/api.go:247-333 | A live run can dial, which puts the address online, or fail to; once it has dialled it can finish; its token finds room in every case. |
| Reconnect.OnlineOnceGone | api/api.go:217-219 | In every run, once the restart loop has gone it starts no run again, and from then on the address is online exactly when its last run has dialled: it never falls. |
| Reconnect.StaleForGoodIff | api/api.go:217-219 | Once that run has finished too, nothing serves, the token stays in the channel, and the status stays online for good if and only if the run had dialled. |
| Reconnect.StaleOnlineAfterContextEnds | api/api.go:217-219 | Such a run exists: dial, end of the context, loop gone, run finished, and the status is still online. |
| Health.HealthCheck | api/api.go:106-158 | The uint8 counter is the length of the current streak after every tick and never overflows; resets happen exactly at the failed checks that are the tenth of a streak; the process ends exactly at a request nobody takes or at the twenty-first failure of a streak. |
| Health.ResetTicksAre | api/api.go:142-146 | The list of resets is exactly the ticks at which a streak reaches ten, in order. |
| Health.ResetOncePerStreak | api/api.go:142-146 | No streak resets the connections twice. |
| Health.LongStreakHasReset | api/api.go:142-146 | Every streak that reaches ten has reset them, at a tick of that streak. |
| Health.StreakCountsFailures | api/api.go:130-141 | A streak is the number of failed checks since the last good one; skipped ticks neither count nor end it. |
| RoundRobin.GRPConnections.Add | proxy/conns.go:59-70 | Adds the connection to all six lists at once and leaves the cursor. |
| RoundRobin.GRPConnections.Inc | proxy/conns.go:44-49 | Moves the cursor one position round. |
| RoundRobin.GRPConnections.GetNextAccountClient | proxy/conns.go:72-79 | Gives the account client of the connection under the cursor and moves on; panics only without connections. |
| RoundRobin.GRPConnections.GetNextBlockClient | proxy/conns.go:81-88 | The same for block clients. |
| RoundRobin.GRPConnections.GetNextChainClient | proxy/conns.go:90-97 | The same for chain clients. |
| RoundRobin.GRPConnections.GetNextEventServiceClient | proxy/conns.go:99-106 | The same for event clients. |
| RoundRobin.GRPConnections.GetNextTransactionServiceClient | proxy/conns.go:108-115 | The same for transaction clients. |
| RoundRobin.GRPConnections.GetNextDecodeServiceClient | proxy/conns.go:117-124 | The same for decode clients. |
| RoundRobin.CursorStaysValid | proxy/conns.go:44-124 | Under any interleaving of additions and calls the cursor is a valid position and no connection is lost. |
| RoundRobin.WithinOneRound | proxy/conns.go:44-124 | In less than a round the connections passed are chosen once each, the others not at all. |
| RoundRobin.PickAt | proxy/conns.go:44-124 | Call k of a window of calls picks the connection k places after the cursor, round the ring. |
| RoundRobin.Fair | proxy/conns.go:44-124 | In any window of m rounds of calls of any kinds each connection is chosen exactly m times. |
| RoundRobin.FairPerServiceIff | proxy/conns.go:44-124 | For every ring and window one kind of client is served equally by all connections if and only if its calls are spread equally over the places of the window modulo the number of connections. |
| RoundRobin.NotFairPerService | proxy/conns.go:44-124 | With two connections and account and block calls in turn, all account calls get one connection and none the other. |
| Texts.ItoaRoundTrip | mapper/event_mapper.go:278-298 | Writing an index and parsing it gives the index back, so index keys never collide. |
| Texts.SignedRoundTrip | mapper/event_mapper.go:259-263 | A sign in front of a written number is read as one. |
| Texts.SplitRoundTrip | mapper/event_mapper.go:222-236 | Splitting at commas loses nothing: joining gives the text back, and no part holds a comma. |
| Texts.JoinRoundTrip | mapper/event_mapper.go:222-236 | And splitting what was joined gives just the parts that were joined. |
| Texts.TrimIs | mapper/event_mapper.go:231-233 | Trimming takes blanks off both ends, and leaves none there. |
| Texts.FindsLeftmost | mapper/event_mapper.go:222-229 | The text between the brackets is that of the leftmost match, and is missing only when nothing matches. |
| Texts.MatchEndIsTheMatch | mapper/event_mapper.go:222-236 | Reading to the first character that is no argument character finds the only match of the argument pattern at a position. |
| Texts.GetValues | mapper/event_mapper.go:222-236 | The loop trims every name of the leftmost argument list and nothing else. |
| EventParsing.AcceptedIff | mapper/event_mapper.go:107-206 | An event is accepted if and only if there is a data item for every name, an account id under every name from or provider, and no empty value. |
| EventParsing.SelectedAt | mapper/event_mapper.go:107-206 | A selection lists the values of exactly the items that pass its test, each once, in order. The tests are written on the argument names. |
| EventParsing.PassDescribes | mapper/event_mapper.go:126-169 | The one-pass classification by role yields what the names say: senders are the items under from or provider; recipients the account ids under to, who, beneficiary or reaper unless the event is delegated, and under the account names when it is endowed; values the balances under the balance names or past all names; accounts likewise. |
| EventParsing.AcceptedMeans | mapper/event_mapper.go:107-220 | On success no more names than items; attribute k is item k written out, its value quoted unless it begins with a bracket or a minus or is all digits; values and accounts are the selections of PassDescribes, in order; recipient and sender are the last ones selected. |
| EventMapper.NamedRole | mapper/event_mapper.go:126-163 | The cases of the switch give each argument name the role of the group of names it is in. |
| EventMapper.Event.ReadNames | mapper/event_mapper.go:117-175 | The first loop, with its cursor, computes the one pass over the named items and writes their slots in order. |
| EventMapper.Event.ReadRest | mapper/event_mapper.go:177-197 | The second loop goes on from the cursor and completes the one pass. |
| EventMapper.Event.ParseEventDescription | mapper/event_mapper.go:107-206 | Both loops together refine the one-pass classification and write every attribute slot exactly once. |
| EventMapper.Event.AppendAmounts | mapper/event_mapper.go:278-298 | The amounts hold the parsed integer of every value under its index; the single amount is set exactly when there is one value; the first value that is no integer ends the mapping. |
| EventMapper.Event.AppendAccounts | mapper/event_mapper.go:300-320 | The account lists, sender, recipient and transfer entries of the event. |
| EventMapper.OneEntryPerValue | mapper/event_mapper.go:278-298 | The amount map has exactly one entry per value, under its own decimal index, with that value's integer. |
| EventMapper.AmountsAddUp | mapper/event_mapper.go:278-298 | The amounts of an event add up to the values it carried. |
| EventMapper.TransfersCarryTheValue | mapper/event_mapper.go:322-370 | With exactly one value sender, recipient and transfer entries all carry its amount; otherwise the zero amount. |
| EventMapper.PanicsOnlyOnEmptyData | mapper/event_mapper.go:72-97 | Mapping an event dies only on an empty data value. |
| EventMapper.GetEvent | mapper/event_mapper.go:72-97 | The record filled in place is the one the specification builds from the one-pass parse. |
| EventMapper.MappedAccounts | mapper/event_mapper.go:300-380 | Of a mapped event, by the argument names of its description: sender and recipient are the last values named so and are missing exactly when nothing is; the transfer goes to the recipient; the account list holds the accounts named so, in order; the signer is there exactly when the event failed. |
| EventMapper.MappedAmounts | mapper/event_mapper.go:72-97 | Its amounts are the integers of the balances named so or past the names, each under its index; its type is the name in lower case, with an error beside it exactly when one is named. |
| EventMapper.TransferIsMapped | mapper/event_mapper.go:138-149 | The event Transfer with arguments from, to and value: sender is the first account, recipient and transfer entry the second, and both carry the value. |
| Dedupe.FirstsAreTheFirsts | mapper/transaction_mapper.go:56-59 | What is kept is exactly the first occurrences, in order. |
| Dedupe.UniqueKeys | mapper/transaction_mapper.go:104-111 | No key is lost and none is kept twice. |
| Dedupe.UniqueIsIdempotent | mapper/event_mapper.go:29-32 | Deduplicating again changes nothing. |
| TransactionMapper.ParseEvents | mapper/event_mapper.go:23-48 | The loop with its seen-map maps the first event of every index, in order, and fails on the first failure among them. |
| TransactionMapper.EventsAligned | mapper/event_mapper.go:23-48 | Sub-events, ids and raw texts belong together item for item, and no id appears twice. |
| TransactionMapper.EventsDedupedOnce | mapper/event_mapper.go:50-56 | Deduplicating the events of an extrinsic again changes nothing in the result. |
| TransactionMapper.GetTransactionFee | mapper/transaction_mapper.go:142-183 | The fee is the integer of the partial fee plus that of the tip, a missing one counting as nothing; it is left out when the sum is zero, and an error exactly when one of them is there and no integer. |
| TransactionMapper.TransactionsMapper | mapper/transaction_mapper.go:46-102 | The loop maps the first extrinsic of every hash, in order, and fails on the first failure among them. |
| TransactionMapper.OutputIsFirstOccurrences | mapper/transaction_mapper.go:46-111 | The output is the order-preserving subsequence of first occurrences by hash, and each transaction has, field by field, what its extrinsic and the block say: hashes, height, epoch, chain, parsed time, errors exactly without success, raw text, the fee, section and type in lower case, and one sub-event and raw text for the first event of every index. |
| TransactionMapper.BlockFailsIff | mapper/transaction_mapper.go:46-102 | A block is refused if and only if the first extrinsic of some hash has a time or fee that does not parse or an event, first of its index, that is rejected. |
| Pairing.GetTransactionsForHeight | indexer/getBlock.go:208-217 | Decodes every extrinsic in order or fails. |
| Pairing.Pair | indexer/getBlock.go:120-160 | The two nested loops stamp the events in place and fill the slots as the specification says; a hash shorter than its prefix kills the process exactly when there is a raw extrinsic to compare it with. |
| Pairing.MatchIsInjective | indexer/getBlock.go:127-142 | A match is the least position with that hash, and different hashes with the same prefix match different positions. |
| Pairing.AllFoundIsInjective | indexer/getBlock.go:124-142 | For the transactions of any block, if all are found by hash, every event gets an id and the ids are pairwise different. |
| Pairing.CollisionIff | indexer/getBlock.go:124-160 | Two mapped transactions of a block get the same event id if and only if one of them is not found, the other's least match is at its position, and the raw extrinsic there calls the module of its event. |
| Pairing.EventIdIs | indexer/getBlock.go:127-151 | The event of a mapped transaction gets the position of its least match, or else its own position exactly when the raw extrinsic there calls its module, compared in lower case, or else no id. |
| Pairing.TwoGetOneId | indexer/getBlock.go:143-151 | A colliding input: a block of two extrinsics of one module, mapped, against one raw extrinsic, which is the second. |
| Pairing.EverySlotFilled | indexer/getBlock.go:120-160 | A slot is empty exactly when its hash is missing and its position is past the raw extrinsics; with equal counts none is. |
| Pairing.FoundEventsCarryPosition | indexer/getBlock.go:128-139 | When j is the first raw extrinsic with the hash of a transaction, all its events get height and j as their id, nothing else about it changes, and its slot is filled. |

## Left out

- Websockets, gRPC, HTTP, TLS, dialling, the database and the search store: their outcomes are parameters of the
  methods or arbitrary steps.
- SCALE, JSON, base58, blake2 and xxhash: payloads are opaque texts; decoding a number, a block, a runtime version
  or an extrinsic is a function passed in. A result that JSON decoding leaves partly filled is whatever that
  function says.
- The hashed keys of the four storage items: they are named, not spelt out.
- `big.Float` amounts and their text, and the divider: library rounding; the exact integers are kept. `big.Int`
  text parsing is written out as an optional sign and digits.
- `strings.ToLower` outside ASCII.
- The texts that ids, raw logs and amounts are printed as: an id is its two numbers, a raw log the list of its lines.
- `parseTime` and its formats: a parameter of the transaction mapper.
- `indexer/client.go`: task dispatch. The one thing it does with channels, borrowing one without giving it back,
  is the step Abandon of `Sessions`.
- The other two pools of `indexer/pool.go`: the same code with other types.
- Reply channel of the health monitor: a reply that comes after its thirty seconds is read by the next check; the
  monitor is given the outcome of each check instead.
- The LRU order of the hash cache: adding may evict anything, which includes what an LRU evicts.
- Fairness of select and of the scheduler, and the waits between reconnects: no liveness is claimed.
- Mapped transactions and events are values; `Pair` updates the array of transactions in place, but two references
  to one transaction, which the mapper never makes, are not modelled.
- Channels of `Sessions` and `Flows`: an unbuffered hand-over of a request is one step together with its accept.
- Flows.BlockAndTx: covers blockAndTx up to the last use of its channel; what follows is pure and is `Pairing`
  and `TransactionMapper`, apart from the proxy call and the block mapper.
- Flows.GetAccount: does not decode the account data, after which the channel goes back whatever they are.
- DecodeStore.GetMetadata: runs by itself; calls that overlap are `DecodeStore.OverlappingCallsAgree`. The store is not
  part of the interleaved system, so FlowValues takes what is stored as given.
- DecodeStore.DecodeStorage.Init: sets the network name; the type registry it loads is not modelled.
- Health.HealthCheck: does not model the thirty-second waits themselves, only their outcome.
- The block and balance mappers: they copy fields one by one, after a test for an empty reply.
- `cmd/data-migration`: a second copy of the pairing loop, around database reads and writes.
- `api/scale/address`: cuts a decoded address; the account part and the storage key made of it are parameters here.
- Metrics and configuration: they do not affect what is computed.
