# Call It: the token pipeline, verified

Call It is a live betting game. Players join a room with a session wallet in Redis, bet on the
outcomes of rounds, and are paid pari-mutuel when the host resolves a round, or refunded when
nobody does. Every movement of tokens is appended to an outbox stream in the same atomic script; a
relay carries the stream to Kafka; a worker posts it to a double-entry ledger in PostgreSQL.

This project models that pipeline, from the bet to the ledger, as one state machine in which any
step of any part may come next, including crashes between any two steps, and proves that no token
is lost, made or counted twice on the way, but for the cases below, which it delimits exactly. Three smaller protocols beside it are modelled too: the
disconnect grace window with the fold of a session into its account, the room registry of the
WebSocket hub, and the browser's reducer that mirrors a player's wallet.

`dafny verify dfyconfig.toml` checks everything.

## How it is laid out

| files | what they hold |
|---|---|
| `Base`, `Text`, `Keys` | sums over sequences and hashes, decimal text, Redis field names and session keys |
| `Payout`, `PayoutLaws` | `domain.Settle` as loops in 64-bit arithmetic, its specification, and what settling guarantees |
| `Stakes` | reading a wagers hash into ordered stakes, and the refund aggregation |
| `Events` | outbox entries, `Decode`, and the validation after the Kafka hop |
| `Ledger`, `LedgerLaws` | events as balanced transactions, `WriteBatch`, the balance queries, convergence |
| `Store`, `StoreInvariant`, `StoreSteps`, `StoreRuns`, `StoreLaws`, `Answers` | the Redis store as a transition system in which settle and refund calls are three steps each, its invariant, the laws of its runs, and what wagers and endings are answered and leave behind |
| `RedisStore`, `RoundService` | the same store as a class whose methods change hashes in place, with the rest of the system running between the commands of a call; the round's watch and the host's resolve on top of it |
| `Relay`, `RelayProcess` | the consumer group with crashes and restarts, and the relay process |
| `Worker`, `WorkerProcess` | offsets, batches and commits with crashes, and the worker's loop |
| `Pipeline`, `Recovery` | store, relay and worker together, the reconciliation identity, and when the pipeline can be drained |
| `Witness`, `KeyReuse`, `Dropped`, `Oversized`, `Winnings` | idempotency keys over whole runs, and concrete runs in which a documented promise fails |
| `Grace`, `Session` | the grace window, and ending a session |
| `Hub`, `Rooms` | the room registry protocol, and the hub's and rooms' handlers on objects |
| `Client`, `Broadcasts`, `Mirror` | the browser's reducer, what the store's steps send to a socket, and that a client so fed mirrors the store |

Two conventions run through it. A component with interleaving has a datatype of steps, a predicate
`Enabled`, a function `Next`, and lemmas over `Run`s of any length. A component the source writes as
an object with methods has a class whose methods are proved against those functions. In
`RedisStore`, a ghost run of the transition system is kept beside the hashes, and `Others` stands
for whatever everybody else does between two commands: its contract lets the store change in any
way that extends the run, so what `SettleRound`, `RefundRound`, `Watch` and `Resolve` promise holds
under any interference. What a relay's or a worker's calls are answered is a function of the number
of the call, given when the process is made, and arbitrary. Some fields of a room (`granted`, `grants`, `withdrawn`, `cleared`) are
accounts that only the proofs read.

## What the code does not do

Where the code and its own documentation disagree, the model follows the code. Each point below is
a lemma that says exactly when the documented promise holds.

- A Kafka fetch error in mid-batch drops the messages in hand and the session carries on; the next
  commit passes over them for good (`Worker.DropLosesMessages`, `Worker.RunIsSafeIff`,
  `Dropped.DroppedMessagesBreakTheBooks`). The comments in `worker.go` promise that offsets never
  get ahead of the ledger.
- Cached wager replies expire after a day. A key used again after that is a second wager with the
  same key, which the ledger absorbs as a duplicate: Redis and the ledger then disagree for good
  (`KeyReuse.DrainedReconcilesUnlessReused`, `KeyReuse.ReusedKeysBreakTheBooks`).
- `place_wager.lua` never checks that the round belongs to the room
  (`StoreLaws.WagerConservesIffOwnRound`, `KeyReuse.ForeignRoundsPassTheGuards`); its one caller,
  the wager service, passes the room's own current round.
- The comment in `payout.go` bounds a stake by 30,000 tokens. Winnings can be staked again
  (`Winnings.WinningsCanBeStaked`), so that is no bound; what is needed is that each winning stake
  times the total fits 64 bits (`PayoutLaws.MachineSettlementIsExact`), which the room's grants do
  guarantee up to 101,233 of them (`StoreLaws.SmallRoomsSettleExactly`).
- The comment on session keys says that no ID content can forge a collision. A room ID with a NUL
  inside could (`Keys.SessionKeyCollides`); room IDs are UUIDs, so none ever has one.
- `message.go` bounds a settlement at 10,000 payouts as out of reach of any real room. Nothing
  enforces that: a larger round is settled in Redis, and then the worker halts on it for
  good, unless a later commit loses it (`Pipeline.WorkerHaltsIff`,
  `Oversized.OversizedRoundsGetStuck`).
- The comments in `grace.go` say that the re-check under the lock keeps a goroutine from folding a
  session that a live connection is using. The lock is released before the fold, and a resume that
  comes in between cancels nothing (`Grace.FoldsAfterResumeIff`, `Grace.ResumeCanComeTooLate`).
- A reveal that arrives right after connecting, a connection made in mid-round, a round that opens
  between joining the room and being greeted, and a replayed wager each make the browser's balance
  or stake wrong (`Client.LateRevealIff`, `Client.MidRoundConnectIff`, `Client.EarlyOpeningIff`,
  `Client.ReplaysShowInTheStake`).
- Ending a session writes the account without a compare-and-set (`Session.FoldMatchesAccountIff`),
  and what it folds is the wallet it read, not the wallet it removed
  (`Session.FoldMatchesWalletIff`).

## Model

| member | source | states |
|---|---|---|
| Pipeline.Reconciliation | backend/internal/ledger/reconcile_test.go:223-232 | in every reachable state of the whole system with distinct outbox keys, what a user won or lost in a room is the user's ledger balance plus the effects of outbox entries not yet in the ledger; for a session never cleared that is wallet minus opening stake |
| Pipeline.DrainedReconciles | backend/internal/ledger/repo.go:96-171 | once everything is relayed and committed, by a run none of whose commits passes over a message that was thrown away and is not in the ledger, and with distinct outbox keys: wallet deltas equal ledger balances, the dust account holds all dust, the pool account holds the live pools and is 0 when all the room's rounds have ended |
| Pipeline.DrainedReconcilesIff | backend/internal/ledger/repo.go:39-54 | once drained, by a run whose commits lose nothing in that sense, Redis and the ledger agree on every user of every room if and only if no two outbox entries share a key |
| Pipeline.CommitsAreSafeIff | backend/internal/ledger/worker.go:59-102 | that a run's commits lose nothing is exactly that what is committed is in the ledger throughout the run |
| Pipeline.LedgerAlwaysBalances | backend/internal/ledger/repo.go:29-94 | in every reachable state the balances of all ledger accounts sum to 0 |
| Pipeline.WorkerHaltsIff | backend/internal/ledger/worker.go:75-95 | over all runs, a batch of the system's own messages decodes, maps and satisfies the ledger's constraints if and only if none of its settlements has more than MAX_PAYOUTS payouts; otherwise the worker halts |
| Pipeline.LedgerComesFromOutbox | backend/internal/ledger/worker.go:75-95 | every ledger row was posted from an outbox event that has its key |
| Pipeline.DrainedIsPosted | backend/internal/relay/relay.go:118-161 | with the relay drained and all offsets committed, every outbox key is in the ledger |
| Recovery.CanAlwaysDrain | backend/internal/relay/relay.go:166-208 | from every reachable state, whatever crashed, failed or was thrown away before, if no settlement in the outbox has more than MAX_PAYOUTS payouts, the relay and the worker can go on, without the store and losing nothing more, until the pipeline is drained |
| Recovery.CanDrainIff | backend/internal/ledger/worker.go:75-95 | in a run whose commits lose nothing, steps of the relay and the worker to a drained pipeline exist if and only if no settlement in the outbox has more than MAX_PAYOUTS payouts; and with distinct keys Redis and the ledger then agree on every user of every room |
| Oversized.OversizedRoundsGetStuck | backend/internal/events/message.go:28-36 | such a settlement can come about: a run in which 10,001 players bet on one round that is refunded ends in a state after which no run of the whole system whose commits lose nothing is ever drained |
| Recovery.GroupCanRelayAll | backend/internal/relay/relay.go:178-208 | from every state of the consumer group, a restarted relay can claim, drain and read until everything is produced and acknowledged |
| Recovery.WorkerCanCommitAll | backend/internal/ledger/worker.go:47-103 | from every state of the worker, if all messages are valid, a restarted worker can post and commit everything |
| LedgerLaws.LedgerConverges | backend/internal/ledger/repo.go:23-94 | however deliveries are reordered, repeated, rebatched or rolled back and retried, the ledger is one application of each distinct transaction if and only if every key was delivered |
| LedgerLaws.LedgerSumsToZero | backend/internal/ledger/repo.go:56-86 | the balances of any set of accounts that covers a book of sound transactions sum to 0 |
| LedgerLaws.BalancePlusOutstanding | backend/internal/ledger/repo.go:96-150 | with distinct keys, the effects of all events on a balance are the ledger's balance plus the effects of events it does not hold yet |
| LedgerLaws.BalanceIsTotalLessMissed | backend/internal/ledger/repo.go:96-150 | with any keys, a ledger balance is the sum of all event effects less those of events absorbed as duplicates or not posted |
| Ledger.Repo.WriteBatch | backend/internal/ledger/repo.go:29-94 | all new keys of a batch are posted, counted, and existing ones skipped; or nothing changes, which happens exactly when the database is down or a new transaction breaks the constraints, and the error says which |
| Ledger.PostKeeps | backend/internal/ledger/repo.go:39-54 | once posted, a key's row never changes |
| Ledger.CheckLines | backend/migrations/0001_ledger_schema.up.sql:25-51 | the table constraints accept a transaction exactly when its amounts are positive and its debits equal its credits |
| Ledger.ValidEventsBalance | backend/internal/ledger/mapping.go:35-142 | an event that passed validation maps to a transaction with positive amounts and equal debits and credits |
| Ledger.TransactionsMirrorEvents | backend/internal/ledger/mapping.go:35-142 | the mapped transaction bears the event's key, room, round and kind, and moves every queried balance by exactly the event's effect on it |
| Ledger.TransactionForSettlement | backend/internal/ledger/mapping.go:77-142 | the loops give a debit of the pool, a credit per payout in order and one of the dust, those that are not zero, or refuse exactly a settlement whose payouts and dust do not add up to its total |
| StoreLaws.RoomsConserveTokens | backend/scripts/lua/place_wager.lua:70-80 | in every reachable state no wallet is negative, and wallets, live pools, dust and withdrawn wallets add up to the opening balances granted |
| StoreLaws.PoolsMatchWagers | backend/scripts/lua/place_wager.lua:79-86 | in every reachable state a round's outcome pools sum to its total and its wagers hash, each pool is the sum of the wagers on it, and the bettors are exactly the users with a wager |
| StoreLaws.EndingUsesCurrentStakes | backend/internal/redisstore/settle.go:199-251 | a settle or refund call that ends a round, under any interleaving, pays from stakes that are the wagers hash at that moment, and its payouts and dust are exactly what was staked |
| StoreLaws.RoundsEndOnce | backend/scripts/lua/settle_round.lua:31-37 | no two calls ever end the same round |
| StoreLaws.OneTerminalEvent | backend/scripts/lua/settle_round.lua:49-67 | the outbox holds one terminal event for a round exactly when the round is terminal, and none before |
| Answers.StatusIsTheEvents | backend/scripts/lua/settle_round.lua:49-67 | in every reachable state, a round with a terminal event is refunded with no outcome, or resolved with the event's outcome, as the event says; a round that has not ended has no outcome |
| Answers.EndsAsAsked | backend/internal/redisstore/settle.go:137-145 | over all runs, a call that ends a round leaves it refunded exactly if it is a refund, or a settlement on an outcome that nobody has a wager on, and otherwise resolved on the outcome asked for; its event says the same |
| StoreLaws.SettledStaysSettled | backend/internal/redisstore/errors.go:40-62 | a round that a call ended, or found settled at its first read or by its script, is terminal for good |
| StoreLaws.RunFreezes | backend/scripts/lua/lock_round.lua:8-22 | a round that is not open keeps its wagers, and a terminal one its status, for the rest of any run |
| StoreLaws.StatusFollowsTransitions | backend/internal/domain/round.go:17-41 | every step moves a round's status only along the round state machine |
| StoreLaws.NoPoisonEvents | backend/internal/events/decode.go:20-149 | every outbox entry decodes to the event it was written for while the room's grants stay below 10^14, validates exactly when it has at most MAX_PAYOUTS payouts, has at most as many as its round has wagers, and maps to a sound transaction |
| StoreLaws.SmallRoomsSettleExactly | backend/internal/domain/economy.go:30-35 | in any room with at most 101,233 opening grants of at most 30,000, settling any round in 64 bits gives the exact result |
| Winnings.WinningsCanBeStaked | backend/internal/domain/payout.go:104-111 | for any names, a reachable round in which a winner has staked more than 30,000, although no player of the room was granted more |
| StoreLaws.WagerConservesIffOwnRound | backend/scripts/lua/place_wager.lua:44-83 | an accepted wager conserves its room's tokens if and only if the round is the room's own |
| Answers.WagerAcceptedIff | backend/scripts/lua/place_wager.lua:40-76 | a wager under a new key is accepted if and only if its amount is positive, its round is open and not past its lock instant, its outcome is one of the round's, and its user is not the room's host and has a wallet there that holds the amount; otherwise nothing changes |
| Answers.WagerErrorIs | backend/scripts/lua/place_wager.lua:40-76 | the error of a refused wager names the first of these rules that it breaks |
| Answers.HostsNeverBet | backend/scripts/lua/place_wager.lua:65-68 | over all runs, no wager that is accepted is by the host of its room at that moment |
| Answers.HostsCreatedTheRoom | backend/internal/redisstore/room.go:28-45 | over all runs, a room's host is whoever created it last |
| Answers.AcceptedWagerMoves | backend/scripts/lua/place_wager.lua:78-86 | an accepted wager moves its amount from the user's wallet to the outcome's pool, the round's total and the user's stake, adds the user to the bettors, and changes no other field of any room or round |
| Answers.AcceptedWagerIsTold | backend/scripts/lua/place_wager.lua:91-105 | it caches its reply under the key, and appends one outbox entry with what was asked for and the wallet that is left |
| Answers.RepliesReport | backend/scripts/lua/place_wager.lua:88-105 | over all runs, the reply to an accepted wager holds the user's wallet, the sum of the round's wagers, the sum on each outcome in index order, and how many users have a wager |
| StoreLaws.ReplaysGetTheSameReply | backend/scripts/lua/place_wager.lua:33-38 | once a wager was accepted, every later request under its key, whatever it asks for and whatever happened since, gets that reply and changes nothing, until the key expires |
| StoreLaws.KeysStayDistinctIff | backend/scripts/lua/place_wager.lua:33-38 | a step keeps the outbox keys distinct if and only if it does not accept a wager under an expired key |
| KeyReuse.KeysDistinctIff | backend/scripts/lua/place_wager.lua:98-103 | outbox keys are distinct at a moment of a run if and only if no wager before it was accepted under a key whose cached reply had expired |
| KeyReuse.DrainedReconcilesUnlessReused | backend/internal/ledger/repo.go:39-54 | once drained, by a run whose commits lose nothing, Redis and the ledger agree on every user of every room if and only if no wager of the run was accepted under an expired key |
| KeyReuse.ReusedKeysBreakTheBooks | backend/scripts/lua/place_wager.lua:98-103 | and such runs exist: for any names, a run that loses nothing leads to a drained state whose outbox is two wagers of that user in that room under that key, and Redis has charged the user more than the ledger |
| Dropped.DroppedMessagesBreakTheBooks | backend/internal/ledger/worker.go:59-73 | nor are distinct keys enough: for any names, a run in which the worker fetches a wager, hits an error, fetches the next, writes and commits ends drained, with distinct keys, and Redis has charged the user one token more than the ledger |
| KeyReuse.ForeignRoundsPassTheGuards | backend/scripts/lua/place_wager.lua:44-83 | a reachable state in which a wager on another room's round passes every guard, and accepting it breaks conservation |
| StoreRuns.EveryStateIsOk | backend/internal/redisstore/settle.go:199-207 | the store's invariant, with locked meaning that the stakes are frozen, holds in every reachable state |
| RedisStore.RedisStore.PlaceWager | backend/internal/redisstore/wager.go:42-80 | the guards and hash updates, in order, do exactly what the transition system's wager step does, with the same reply; what that is, field by field, is in `Answers` |
| RedisStore.RedisStore.Apply | backend/scripts/lua/place_wager.lua:78-105 | the field-by-field updates leave exactly the specified store and reply, pools listed in index order |
| RedisStore.RedisStore.Guard | backend/scripts/lua/place_wager.lua:40-76 | the guards report the first fault in script order, and none exactly if all the rules hold, which the contract spells out |
| RedisStore.RedisStore.JoinRoom | backend/internal/redisstore/room.go:114-142 | wallet and opening stake are set to the balance only if absent, no other field changes, and the effective balance is the wallet's |
| RedisStore.RedisStore.ClearSession | backend/internal/redisstore/room.go:154-170 | both fields are deleted and no other, and the caller has claimed the session exactly when the opening stake was there |
| RedisStore.RedisStore.CreateRound | backend/internal/redisstore/round.go:38-74 | a new round is open, with a zero pool per outcome and nothing else, and is refused exactly for an outcome count outside 2 to 4 |
| RedisStore.RedisStore.LockRound | backend/scripts/lua/lock_round.lua:8-22 | open becomes locked, locked stays, anything else is refused as terminal; the reply says which, and no other field changes |
| RedisStore.RedisStore.ReadRound | backend/internal/redisstore/settle.go:110-127 | the first read decides from the status whether the call goes on |
| RedisStore.RedisStore.ListWagers | backend/internal/redisstore/settle.go:76-103 | taking the hash's fields in any order and sorting gives its ordered listing |
| RedisStore.RedisStore.RunScript | backend/scripts/lua/settle_round.lua:31-69 | compare-and-set of the status, to refunded with no outcome or to resolved with the winner, then a credit per payout and one outbox entry; or no change |
| RedisStore.RedisStore.SettleRound | backend/internal/redisstore/settle.go:109-186 | with anything else going on between its three commands: success means this call ended the round, with the settlement of the wagers it then held, resolved, or refunded exactly if nobody had a wager on the winner; each error means the round was found settled, open, missing, or without that outcome; nothing is promised only if the wagers read were ones that 64-bit arithmetic does not settle exactly |
| RedisStore.RedisStore.RefundRound | backend/internal/redisstore/settle.go:193-251 | the same for a refund, of any total that fits 64 bits; the round is left refunded, and the amount returned is everything that was staked |
| RoundService.Service.Watch | backend/internal/round/timer.go:23-94 | unless canceled, the round has ended when its watch is over, whoever ended it; the lock is announced exactly if the round had not ended when it was tried, and a refund exactly if the watch's own refund ended the round, with all that was staked |
| RoundService.Service.AwaitRefund | backend/internal/round/timer.go:52-81 | after the lock, waiting and refunding always leaves the round ended, and never fails as not locked |
| RoundService.Service.Resolve | backend/internal/round/service.go:123-191 | exactly the host resolves a current round with a valid outcome; a refusal by the store says what the round was found to be; what is revealed is the settlement by this very call of the wagers held when the round ended, a row per player with what the player staked and is paid in all, the difference, and the name or the user ID |
| Payout.Settle | backend/internal/domain/payout.go:70-121 | the loops compute the specified settlement in 64-bit arithmetic, or the first fault in input order |
| Payout.PlayerResults | backend/internal/domain/payout.go:127-151 | the in-place fold gives one row per user in first-appearance order, with the user's stakes and payments added up and the difference, in 64-bit arithmetic |
| PayoutLaws.RowsAccount | backend/internal/domain/payout.go:118-151 | every row of a settlement says what its user staked in all, is paid in all, and the difference; there is one for each staker, and the columns add up to what was staked and what was paid |
| PayoutLaws.PlayersInOrder | backend/internal/domain/payout.go:122-138 | rows come in the order in which their users first staked |
| PayoutLaws.SettleFailsOnTheFirst | backend/internal/domain/payout.go:70-86 | settling fails on an invalid winner first, and then on the first stake that is wrong, its amount before its outcome |
| Payout.PlayersAreTheStakers | backend/internal/domain/payout.go:127-151 | the rows are for exactly the stakers, each once |
| PayoutLaws.SettlementConserves | backend/internal/domain/payout.go:90-121 | payouts plus dust equal the total, player nets sum to minus the dust, and dust is 0 on a refund and otherwise non-negative and below the number of winning stakes |
| PayoutLaws.EachWinnerIsPaidFairly | backend/internal/domain/payout.go:102-112 | every winning stake is paid at least itself and within one token of its exact proportional share |
| PayoutLaws.PaymentsArePositive | backend/internal/domain/payout.go:93-112 | every payout is positive and goes to a staker, and there are no more payouts than stakes |
| PayoutLaws.MachineSettlementIsExact | backend/internal/domain/payout.go:106-111 | 64-bit settlement equals exact settlement if and only if every winning stake times the total fits |
| PayoutLaws.SmallTotalsFit | backend/internal/domain/payout.go:106-111 | it does whenever the total is at most 3,037,000,499 |
| PayoutLaws.LargerTotalsNeedNot | backend/internal/domain/payout.go:106-111 | one token more and a lone winning stake overflows |
| Stakes.RefundPathsAgree | backend/internal/redisstore/settle.go:25-46 | the refund aggregation and settling with an unbacked winner credit every user identically, and give back the whole total |
| Stakes.AggregateStakes | backend/internal/redisstore/settle.go:29-46 | the in-place fold gives one payment per user in first-appearance order holding that user's sum, and the total, in 64-bit arithmetic |
| Stakes.SmallRefundsAreExact | backend/internal/redisstore/settle.go:29-46 | with a total that fits 64 bits the machine's refund is the exact one |
| Stakes.AggregateIsOrdered | backend/internal/redisstore/settle.go:25-46 | refund payments are positive, one per user, and ascend by user |
| Stakes.ReadHeld | backend/internal/redisstore/settle.go:76-103 | reading a hash of wagers in any enumeration order cannot fail and gives its ordered listing |
| Stakes.HashKeepsInStep | backend/scripts/lua/place_wager.lua:82-83 | adding to a wager's text field keeps the text hash in step with the wagers it stands for |
| Stakes.ReadStakes | backend/internal/redisstore/settle.go:76-103 | a failure names a field or amount that is malformed; success reads every field once, sorted |
| Stakes.ListingIsUnique | backend/internal/redisstore/settle.go:95-100 | a wagers hash has exactly one ordered listing, so settlement depends on its contents only |
| Keys.WagerFieldRoundTrip | backend/internal/redisstore/keys.go:86-108 | a wager field parses back to its user and outcome, colons in the user ID included |
| Keys.WagerFieldInjective | backend/internal/redisstore/keys.go:86-88 | different users or outcomes have different fields |
| Keys.SessionKeyCollides | backend/internal/round/grace.go:17-21 | two pairs share a session key if and only if one room name continues the other with the separator inside it |
| Events.EntryDecodes | backend/internal/events/decode.go:20-149 | decoding an outbox entry gives back the event it was written for |
| Events.DecodesIff | backend/internal/events/decode.go:20-149 | an entry decodes exactly if it has a known type and that type's fields, numbers where numbers belong, to the event that says what the fields say; the error names something that is wrong with it |
| Relay.RelayKeepsOrder | backend/internal/relay/relay.go:166-208 | over any crashes, failed produces and restarts under new consumers, first appearances in Kafka follow stream order: a settlement never first appears before its wagers |
| Relay.RelayLosesNothing | backend/internal/relay/relay.go:118-161 | every delivered entry is pending or produced, new entries are read only when nothing is pending, and pending entries are a tail of the delivered ones |
| Relay.AppearInOrder | backend/internal/relay/relay.go:166-172 | in a log whose first appearances are a prefix of the stream, every earlier entry is in the log before a later one |
| RelayProcess.Process.ClaimOrphans | backend/internal/relay/relay.go:95-116 | the cursor loop ends with every pending entry owned by this consumer, and counts them all |
| RelayProcess.Process.Recover | backend/internal/relay/relay.go:75-77 | each call relays the oldest pending entries, as many as one read takes, in order, and answers how many, which left the pending list; it fails only if its produce call or its acknowledgement fails |
| RelayProcess.Process.ProduceAck | backend/internal/relay/relay.go:151-160 | entries are acknowledged only after all of the batch was produced; success exactly if both calls succeed |
| RelayProcess.Process.Once | backend/internal/relay/relay.go:62-69 | a cycle relays the entries that wait, up to the count, in order after everything before, and answers how many; with none waiting it answers 0; it fails only if its produce call or its acknowledgement fails |
| RelayProcess.Process.Run | backend/internal/relay/relay.go:178-208 | the process ends well exactly if all its produce calls and acknowledgements do; then it has relayed, in order, everything that was pending and after it the new entries, 100 a cycle for as long as there are any, and nothing is pending; otherwise it stops with the invariant kept for the next process |
| Worker.RunIsSafeIff | backend/internal/ledger/worker.go:59-102 | over all runs with crashes between any two steps, every message below a committed offset is in the ledger, throughout, if and only if no commit passes over a message that a fetch error threw away in that session and that is not in the ledger |
| Worker.CommitSafety | backend/internal/ledger/worker.go:91-100 | so commits are always safe if a session that dropped messages ends there |
| Worker.DropLosesMessages | backend/internal/ledger/worker.go:59-73 | but a session that carries on after a fetch error commits past a message the ledger never gets |
| Worker.TwoCanWait | backend/internal/ledger/worker.go:47-73 | which a run of three steps makes possible, for any two events with different keys of which the second can be posted |
| Worker.CommittedMeansPosted | backend/internal/ledger/worker.go:91-100 | with everything committed, every message's key is in the ledger |
| WorkerProcess.Process.Once | backend/internal/ledger/worker.go:47-103 | a cycle consumes the gathered batch as a whole, every key in the ledger and every offset committed, and answers its size, exactly if all of it maps, the write succeeds and the commit does, and otherwise answers the first of these that fails; an empty batch writes and commits nothing; commits stay safe in a session that dropped nothing, and an error is safe to restart from |
| WorkerProcess.Process.Gather | backend/internal/ledger/worker.go:48-73 | the batch is the messages the fetches returned, in order; there is at least one fetch, and the last is the hundredth message or the first result that is no message; a fetch error costs the batch, unless nothing was gathered yet |
| WorkerProcess.Process.Map | backend/internal/ledger/worker.go:75-89 | a batch maps exactly when each of its messages is valid and has a transaction, and otherwise the first that does not is named |
| Grace.ClosedAndFoldedOnce | backend/internal/round/grace.go:32-96 | over any sequence of schedules, resumes, timers and checks, no channel is closed twice and no schedule folds twice |
| Grace.PassesIffLatest | backend/internal/round/grace.go:58-71 | a goroutine passes its locked re-check if and only if its schedule is the latest schedule or resume for its key |
| Grace.NothingPassesAfterResume | backend/internal/round/grace.go:84-96 | nothing scheduled before a resume passes its re-check after it |
| Grace.FoldsAfterResumeIff | backend/internal/round/grace.go:63-76 | at any moment after a resume, an earlier schedule has folded the session since or may fold it next if and only if its goroutine was past the re-check when the resume came |
| Grace.ResumeCanComeTooLate | backend/internal/round/grace.go:66-76 | a run in which the resume finds nothing pending and the fold follows it |
| Grace.OthersAreLeftAlone | backend/internal/round/grace.go:17-21 | a schedule or resume takes over its own key's window and no other's, and players share a key only if a room name holds the separator |
| Grace.Service.ScheduleEndSession | backend/internal/round/grace.go:32-77 | the map and channel updates are the protocol's schedule step, and the channel closed was open; for a guest nothing happens |
| Grace.GuestsHaveNoWindow | backend/internal/round/grace.go:32-36 | over all runs, every grace window was asked for by a schedule for its key that was not a guest's |
| Grace.Service.ResumeSession | backend/internal/round/grace.go:84-96 | the same for a resume |
| Grace.Service.Recheck | backend/internal/round/grace.go:63-71 | the re-check says to fold exactly when this schedule is the latest operation for its key |
| Session.FoldsOnceExactly | backend/internal/round/session.go:39-85 | however many calls interleave on one session with no rejoin and no other writer: at most one claims and writes, and the account changes by exactly the wallet read less the opening stake, which was the account or three buy-ins, whichever is less, so the floor never fires |
| Session.FoldMatchesWalletIff | backend/internal/round/session.go:62-80 | the account changes by the wallet that was removed if and only if the tokens that moved between the claiming call's wallet read and its claim add up to nothing |
| Session.WinningsCanBeLost | backend/internal/round/session.go:62-80 | a run in which tokens won in between are lost |
| Session.OneClaimPerJoin | backend/internal/redisstore/room.go:144-170 | every claim uses up an opening stake and only a join provides another |
| Session.FoldMatchesAccountIff | backend/internal/round/session.go:51-82 | with other writers of the account, the write folds the session into what the account holds at that moment, floor included, if and only if the writes since the call's account read left the same balance, or both balances are wiped out by the session's loss |
| Session.OtherWritesCanBeLost | backend/internal/round/session.go:51-82 | a run in which another writer's tokens are overwritten |
| Session.Service.EndSession | backend/internal/round/session.go:39-85 | guests and players without a session change nothing, an unknown user is an error, and a session is folded once and gone |
| Hub.HubNeverCommandsTheDead | backend/internal/ws/hub.go:50-95 | despite delayed or repeated notifications every registered room is running, and the hub never waits for a terminated one |
| Hub.ClientsAreInRegisteredRooms | backend/internal/ws/room.go:117-132 | whoever joined and was not let go is in exactly one room, which is registered; no channel is closed twice or sent to after closing |
| Hub.NoRoomLeaks | backend/internal/ws/hub.go:89-92 | once every notification was heard, no empty room is left registered |
| Rooms.Room.Broadcast | backend/internal/ws/room.go:82-96 | members with room in their buffer get the payload and stay, the others are dropped with their channels closed, and one notification is sent exactly when that empties the room |
| Rooms.Room.RemoveAndNotify | backend/internal/ws/room.go:123-132 | only a member is removed and closed, and only the last one out notifies |
| Rooms.Hub.HandleEmpty | backend/internal/ws/hub.go:89-92 | a notification reaps the room exactly when it is registered and empty |
| Rooms.Hub.Join | backend/internal/ws/hub.go:57-64 | get or create and join in one command, leaving every other room alone |
| Mirror.ClientMirrorsStore | backend/internal/ws/handler.go:96-133 | for any run of the store, from any reachable moment at which the socket of a user with a wallet joins the room between rounds, as long as rounds open one at a time and the session is not ended: after the greeting, after every step and event, the stake shown is the user's tokens in the latest round, and the balance shown is the wallet in Redis at all times if the greeting came between rounds or found shown what it brought; otherwise it is off by the difference whenever no round is on |
| Client.ClientMirrorsServer | frontend/lib/roundState.ts:80-170 | with the greeting first, the same for whatever a server does that sends these events; broadcasts of other rounds change nothing |
| Client.ShownNetIsPaidLessStaked | frontend/lib/roundState.ts:139-154 | the row found for a player shows what the settlement pays them less what they staked |
| Client.LatestEventShows | frontend/lib/roundState.ts:80-170 | whatever comes before and after, odds are shown until the next odds or round, a round until the next, a result or refund until the next or the next round, and the phase is that of the last opening, lock, reveal or refund; stale events show nothing |
| Client.LateRevealIff | frontend/lib/roundState.ts:139-154 | a reveal right after connecting leaves the balance right if and only if the net was 0 |
| Client.MidRoundConnectIff | frontend/lib/roundState.ts:139-170 | after connecting in mid-round its end leaves the balance right if and only if the user staked nothing |
| Client.EarlyOpeningIff | frontend/lib/roundState.ts:87-116 | when a round opens before the greeting, which comes in the middle of it, the balance is right between rounds from then on if and only if what was shown at the opening was the wallet; the stake is always right |
| Client.ReplaysShowInTheStake | frontend/lib/roundState.ts:133-137 | with replayed wagers acknowledged again, the stake shown is right if and only if none was since the round opened; the balance is the wallet again as soon as the round has ended |
| Broadcasts.OwnWagerIsSent | backend/internal/ws/router.go:102-107 | the acknowledgement of an accepted wager tells the client what it did to the wallet and the stake |
| Broadcasts.OthersWagerIsNotSeen | backend/scripts/lua/place_wager.lua:78-83 | someone else's wager changes neither |
| Broadcasts.RevealIsSent | backend/internal/round/service.go:159-188 | the reveal's rows account for what the settlement credited to each wallet |
| Broadcasts.RefundIsSent | backend/internal/round/timer.go:71-93 | a refund gives back exactly what the client thinks it staked |
| Broadcasts.OpeningIsSent | backend/internal/round/service.go:93-111 | opening a round resets the stake the client shows and leaves the wallet |

## Left out

- RedisStore.RedisStore.ListWagers: lists a map of wagers; that the hash of text fields stands for it is `Stakes.HashKeepsInStep`, and reading that hash is `Stakes.ReadHeld`.
- RedisStore.RedisStore.PlaceWager: wallets and pools are unbounded integers; Lua's floating-point numbers and HINCRBY's 64-bit range are not modelled, nor is the reply's text form.
- StoreLaws.NoPoisonEvents: says nothing about decoding once a room's grants reach 10^14, where Lua prints numbers with an exponent.
- Exact arithmetic: the runs of `Store`, and so `StoreLaws`, `Pipeline`, `Recovery`, `KeyReuse` and `Mirror`, plan settlements without overflow; when 64 bits give the same is `PayoutLaws.MachineSettlementIsExact`, and `RedisStore` promises a settlement only where they do, for its own call as long as the other calls in flight are exact.
- StoreLaws.KeysStayDistinctIff: keys of settle and refund calls are fresh UUIDs, taken as never given to a wager.
- Pipeline.Reconciliation: the outbox carries events; that an entry decodes to its event is `StoreLaws.NoPoisonEvents`, and JSON encoding and the 1 MiB message limit are not modelled.
- Ledger.TransactionForSettlement: adds payouts in unbounded integers; the source's 64-bit sum wraps from 2^63 on.
- Relay.RelayKeepsOrder: a failed or crashed produce writes a prefix of its batch; writes that reach some partitions and not others in another order are not modelled. Two live relays at once and a trimmed stream, which the source rules out, are not either.
- RelayProcess.Process.ClaimOrphans: XAUTOCLAIM's limit of ten scanned entries per claimed one is not modelled, nor is its dropping of deleted entries.
- RelayProcess.Process.Run: stops after a given number of reads, during which the stream does not grow; decoding is `Events.EntryDecodes`, and a failing command is a failed produce or acknowledgement.
- WorkerProcess.Process.Once: the partition logs do not grow during one cycle; the transition system in `Worker` has them grow at any time.
- RoundService.Service.Resolve: the room's host and its current-round index are parameters; opening checks and then creates without a lock, and resolving clears the index unconditionally, so nothing is claimed about the index.
- RoundService.Service.Watch: waits are cut short only by cancellation; Redis errors other than a missing round are not modelled.
- Session.Service.EndSession: runs with nothing else going on; interleavings are `Session.FoldsOnceExactly`, where rejoins and other writers of the account are separate steps.
- Hub.ClientsAreInRegisteredRooms: each client joins once, as the handler does; direct sends to one client bypass the room and may meet a closed channel.
- Rooms.Hub.Broadcast: one command at a time; interleaving of the goroutines is in `Hub`.
- Mirror.ClientMirrorsStore: an event is delivered with the step it announces, as one socket with events in order sees it, and the balance of the greeting is read when it is sent; odds multipliers, questions and countdowns are not part of the view, and replayed wagers are `Client.ReplaysShowInTheStake`.
- Time: lock instants, grace periods, batch windows and expiry are steps that may happen at any moment.
- Recovery.CanDrainIff: says that steps to a drained pipeline exist, not that a scheduler takes them.
- Stakes.ReadStakes: the library sort is taken to sort; which algorithm it uses is not modelled.
- Identifiers: UUIDs are fresh and not empty, and so are room and user IDs; ledger account IDs are the accounts themselves, and partition hashing is any function of the room.
- Room codes and unique-index claims, buy-in validation, refills and their quota, the rate limiter, and player counts.
- HTTP handlers, tokens and passwords, configuration, migrations other than the ledger's constraints, metrics, logging and the command line.
- React components, sockets, audio and the REST client.
