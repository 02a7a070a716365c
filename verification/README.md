# A verified model of the bridge

The bridge moves tokens between Ethereum and MultiversX. On the MultiversX side contracts hold the state: a multisig in
which relayers propose, sign and perform actions; a safe that queues transactions to Ethereum in batches, settles them
and keeps fees and refunds; a delivery contract that pays out Ethereum deposits or queues them for refund; a wrapper
and a swap that exchange chain tokens, a universal token and a base token; and a deposit wrapper that chains them. Off
chain, every relayer runs two step machines, one per direction, and a leader election.

This project models that behaviour in Dafny and proves what it guarantees over every run.

## How it is built

Each contract appears twice. A *specification* module gives its storage as a datatype and each endpoint as a function
returning `Option`: `None` is a failed call, which reverts. A *contract* module gives the same storage as fields of a
class and each endpoint as a method with the loops and updates of the original, proved to compute exactly the
specification. The laws are proved about the specifications, so they hold of the methods too. What each call does to whom
is also said apart from the specification functions, in the fields of state and arguments: in the modules named `...Rules`,
and in `RefundLedger`, `DepositRuns`, `SignatureRuns` and `RelayerAnswers`, which carry it over whole runs.

| part | specification | classes and loops | laws over runs |
|---|---|---|---|
| batch queue | `BatchQueue` | `TxBatchModule` | `OfferRuns`, `SettlementRuns` |
| safe, fees | `SafeLedger`, `FeeSharing` | `EsdtSafe` | `TokenRuns`, `BridgeRuns`, `DepositRuns`, `RefundLedger` |
| wrapper, swap | `TokenWrapper` | `TokenContracts` | `TokenRuns`, `TokenRules` |
| delivery, refunds | `Delivery` | `TokenContracts` | `BridgeRuns`, `RefundRuns`, `TokenRuns`, `DeliveryRules`, `Performing` |
| multisig, deposit wrapper | `MultisigTable`, `Bridge` | `MultisigContract` | `ActionTable`, `BridgeInvariant`, `BridgeRuns`, `QuorumRuns`, `SignatureRuns`, `BoardRules`, `Performing` |
| relayer machines | `RelayerSteps` | `RelayerMachine` | `RelayerRuns`, `RelayerAnswers`, `RelayerProgress` |
| leader election | `Leader` | `Leader` | `Leader` |
| pending batch on the wire | `Codec` | `Codec` | `Codec` |

`Bridge` joins the contracts into one `World` with one `Step` per endpoint (relayers, owner, users, passing of time).
`Run` applies any sequence of steps, a failing step changing nothing; `Collect` lists what the successful steps of a
run did; `Along` says that every step of a run meets a guard in the state it starts from. `BridgeInvariant.RunOk` proves
the invariant that everything else rests on.

Reading conventions: an empty storage slot reads as zero or empty; big unsigned integers are `nat` and an underflow
fails the call; addresses, tokens and hashes are numbers; what the chain or the price aggregator answers during a call
(roles of the safe and of the delivery contract, frozen accounts, contract addresses, prices) is a `Facts` argument,
fixed within the call and arbitrary between calls. The mint and burn roles of the wrapper and of the swap are part of
their state and change in a step of their own. Four fields record history that the contracts do not store: `stranded` in
the safe, `minted` in the delivery contract, `issued` in the wrapper and in the swap. They are written, and read only by
the laws.

## Where the code differs from what it says

- A transaction is flattened into seven values (rs/common/transaction/src/lib.rs:19-27), but the declared count and the
  documentation of the view say six. The multisig divides by six, so for an offered batch of n transactions it takes
  n + n/6 statuses, while the safe takes one per transaction of the batch at the moment of settlement.
  - `SettledWasOffered`: in every run, a settled batch consists of the n transactions that were offered when its status
    list was proposed, followed by n/6 others. It is exactly the offered batch if and only if n is below six.
  - `SettleableIffSmall`: a list proposed for the present batch can settle that same batch if and only if it has fewer
    than six transactions. This says nothing about a batch that grows after the proposal.
  - `ReopenedBatchSettles` shows such growth: six transactions are offered and voted on with seven statuses, the owner
    raises the size limit to seven, a seventh transaction joins, and performing the vote settles all seven.
  - `SettledIsOffered`: in runs that never reopen a closed batch, every settled batch is the one that was offered, and
    has fewer than six transactions.
  - `PassableIffFits`: from any consistent state, a closed first batch of six or more can be passed without reopening it
    if and only if some pending status list fits it as it is now; by `PendingWasOffered` such a list was proposed when
    the batch was smaller. Otherwise it blocks the queue until it is reopened (`LargeBatchJams`, `JamEndsByReopening`).
    `FullBatchJams`: filling one batch under a size limit of six or more, such as the ten set at deployment, leads to
    such a blockage. `ProposedStatusCount` gives the count on the relayer's side.
- A batch is full by size when its length equals the limit, so a change of limits can reopen a closed batch or leave one
  above the limit.
  - `LimitsKeepOfferIff`: a change of limits keeps an offer if and only if the batch is full under the new limits.
    `ReopenedBatchGrows`: it leaves a closed batch safe from the next deposit if and only if another batch follows it or
    it is full under the new limits. `OfferedBatchIsFrozen` and `ClosedBatchIsFrozen` hold for all runs under these guards.
  - `LimitsKeepSizesIff`: a change of limits keeps all batches within the size limit if and only if none is longer than
    the new limit; `BatchesStayWithinLimit` holds for all runs under that guard. `OutgrownBatchGrows`: after two deposits
    and a limit of one, any number of further deposits in the block joins the same batch.
- An Ethereum batch without transfers can be proposed but not performed (`EmptyBatchOnlyProposes`,
  rs/multisig/src/lib.rs:354-355).
- One accepted transfer that does not become a positive amount of WESDT, or that the swap's pot does not cover, makes the
  whole performAction fail. `TransferActionPerforms` gives the exact condition, `UnmappedTokenFails` a run, and
  `UnpayableTransferStops` the consequence of a transfer of the first kind: no Ethereum batch is executed while relayers
  propose the one with that transfer.
- `10u64.pow` fails the call for a decimals difference above 19; `ConversionLimit` proves that this is the exact bound.
- The swap calls `not_paused()` and ignores the answer (rs/wesdt-swap/src/lib.rs), so pausing it has no effect. The
  model has no pause flag there.
- createTransaction takes the sender as an argument and does not compare it with the caller
  (rs/esdt-safe/src/lib.rs:187); a refund goes to the account that was named. In the step `CreateBy` the field `caller`
  is that argument.
- A decimals slot that holds zero reads as unset, so such a token can be neither wrapped nor unwrapped
  (`ZeroDecimalsFail`).

## Model

| member | source | states |
|---|---|---|
| `BridgeInvariant.RunOk` | rs/multisig/src/lib.rs:171-365 | Every step of every run keeps the action table, both per-batch indexes, the executed counters, the signer sets, the safe's first batch id and all books in agreement |
| `BridgeInvariant.StepOk` | rs/multisig/src/lib.rs:284-365 | One call by anyone keeps that agreement, whether it succeeds or reverts |
| `BridgeRuns.EthereumBatchesExecuteInOrder` | rs/multisig/src/lib.rs:221-365 | In any run with any rival proposals the executed Ethereum batches are 1, 2, 3, ... and the executed deposit nonces 1, 2, 3, ..., without gap or repetition, and the counters equal their numbers |
| `BridgeRuns.ActionTableOverRuns` | rs/multisig/src/lib.rs:307-365 | The stored table is the list of all proposals ever made with exactly those of past batches blanked, so rivals disappear together with the performed action |
| `BridgeRuns.WasActionExecutedMeansPast` | rs/multisig/src/queries.rs:36-42 | wasActionExecuted holds exactly for proposals whose batch has been executed or settled |
| `BridgeRuns.SafeBatchesSettleInOrder` | rs/esdt-safe/src/lib.rs:67-114 | Safe batches are settled in id order, each once by one status list of its own length; settled plus waiting transactions are all that ever entered, in order of entry |
| `BridgeRuns.RefusedTransfersMoveInOrder` | rs/multisig/src/lib.rs:262-280 | Every transfer refused on delivery has been moved to the safe exactly once or still waits, in order |
| `RefundRuns.RefusedTransfersReturnInOrder` | rs/esdt-safe/src/lib.rs:123-174 | Over any run the refunds that entered the safe are, in order and each once, the ways back (ends swapped, amount less fee, flagged) of the moved transfers whose amount exceeded the fee of that moment, and nothing else |
| `BridgeRuns.TransferEffect` | rs/multisig/src/lib.rs:337-363 | A performed transfer action is for the next batch, has at least one transfer with the next consecutive nonces, and moves the counters by exactly that |
| `BridgeRuns.SettleEffect` | rs/multisig/src/lib.rs:313-336 | A performed status action targets the safe's first, non-empty batch and removes exactly that batch from the front of the queue |
| `ActionTable.CloseTransferWipes` | rs/multisig/src/lib.rs:337-352 | Performing a transfer action blanks every pending transfer action and no status action |
| `ActionTable.CloseStatusWipes` | rs/multisig/src/lib.rs:313-328 | Performing a status action blanks every pending status action and no transfer action |
| `ActionTable.CloseTransferKeepsTable` | rs/multisig/src/lib.rs:337-356 | After that, table, indexes and counters agree again |
| `ActionTable.CloseStatusKeepsTable` | rs/multisig/src/lib.rs:313-328 | The same after a status action, for the safe's next batch id |
| `ActionTable.ProposeTransferKeepsTable` | rs/multisig/src/lib.rs:221-252 | A new transfer proposal keeps the agreement, whatever hash function is used |
| `ActionTable.ProposeStatusKeepsTable` | rs/multisig/src/lib.rs:171-213 | A new status proposal keeps the agreement |
| `QuorumRuns.SignersEndorsed` | rs/multisig/src/multisig_general.rs:12-44 | Every stored signature of any run comes from an earlier sign or propose call for that very action by that very account |
| `SignatureRuns.SignStores` | rs/multisig/src/multisig_general.rs:12-25 | A sign goes through exactly for a pending action and a board member with enough stake; it adds exactly the caller's signature to that action and changes nothing else |
| `SignatureRuns.ProposalStores` | rs/multisig/src/multisig_general.rs:27-44 | A proposal goes through exactly for a board member while not paused, is stored under the next id, and is signed by its proposer exactly if the stake suffices |
| `SignatureRuns.SignaturesAreKept` | rs/multisig/src/multisig_general.rs:12-44 | In any run, whoever signed an action, or proposed it with enough stake, is among its signers as long as it is pending |
| `SignatureRuns.SignaturesMakeQuorum` | rs/multisig/src/queries.rs:158-179 | In any run, once quorum different accounts have signed a pending action and still have seat and stake, the quorum is reached |
| `BoardRules.MayPerformIff` | rs/multisig/src/lib.rs:284-303 | An action may be performed exactly if it is pending, the caller has a seat, the contract is not paused and quorum different accounts with seat and stake have signed it |
| `BoardRules.ProposeTransferIff` | rs/multisig/src/lib.rs:221-252 | When a transfer batch can be proposed |
| `BoardRules.ProposeStatusIff` | rs/multisig/src/lib.rs:171-213 | When a status list can be proposed, with n + n/6 statuses for n transactions |
| `BoardRules.StakeIs` | rs/multisig/src/lib.rs:129-138 | Exactly board members stake, and it is their own stake that rises |
| `BoardRules.UnstakeIs` | rs/multisig/src/lib.rs:142-161 | When an unstake goes through, and that only the caller's stake falls |
| `BoardRules.AddSeatIs` | rs/multisig/src/multisig_general.rs:51-59 | The added account has a seat afterwards and no other seat changes |
| `BoardRules.RemoveSeatIs` | rs/multisig/src/multisig_general.rs:61-72 | The removed account has none afterwards and no other seat changes |
| `BoardRules.RemoveIff` | rs/multisig/src/setup.rs:53-61 | A removal goes through exactly if somebody is left and the quorum can still be met |
| `BoardRules.SlashIs` | rs/multisig/src/setup.rs:71-83 | Slashing takes the seat and moves the slash amount from that account's own stake to the pool |
| `BoardRules.ShareFeesIff` | rs/multisig/src/lib.rs:93-123 | Fees are shared out exactly if no recipient is a contract and the percentages add up |
| `QuorumRuns.PerformedActionsHaveQuorum` | rs/multisig/src/lib.rs:284-303 | Every performed action had at least quorum different accounts behind it, each then a sufficiently staked board member who had signed or proposed that action |
| `QuorumRuns.QuorumLasts` | rs/multisig/src/queries.rs:158-179 | A reached quorum lasts until the action is cleared, in any run without member removal, slashing or a quorum change |
| `MultisigTable.QuorumIsDistinct` | rs/multisig/src/queries.rs:158-179 | A quorum of signer ids is a quorum of different addresses |
| `MultisigTable.QuorumMonotone` | rs/multisig/src/queries.rs:158-179 | More signatures, more members and stakes kept above the minimum never take a quorum away |
| `TokenRuns.SafeBooksBalance` | rs/esdt-safe/src/lib.rs:67-239 | In every reachable state, per token: balance = amounts and service fees of waiting non-refunds + fees + refunds due + what a missing burn role stranded; so a refund can be claimed exactly if one is due |
| `TokenRuns.BoardAndStakesAgree` | rs/multisig/src/setup.rs:47-93 | In every reachable state the board counter is the number of members, the quorum can be met and the EGLD equals stakes plus slashed tokens |
| `TokenRuns.WrapperStaysSolvent` | rs/bridged-tokens-wrapper/src/lib.rs:15-239 | After any run, including every change of tokens, the liquidity behind a universal token, in common decimals, covers what is in circulation, if no change takes away more backing than the surplus or alters the decimals of the token while it circulates; the swap's pot equals what the swap has issued |
| `TokenRuns.ConfigKeepsCover` | rs/bridged-tokens-wrapper/src/lib.rs:19-127 | A change of tokens leaves a universal token covered if and only if the backing it takes away is at most the surplus |
| `TokenRuns.SystemConservation` | rs/wesdt-swap/src/lib.rs:33-101 | With equal decimals among WESDT and its chain tokens, locked base tokens + wrapper liquidity = circulating WESDT + backing added from outside, after any run |
| `TokenRuns.RunSurplus` | rs/bridged-tokens-wrapper/src/lib.rs:15-239 | Over any guarded run from any state the surplus of a universal token grows at least by what deposits and changes of tokens add to the backing |
| `TokenRuns.RunSurplusExact` | rs/bridged-tokens-wrapper/src/lib.rs:15-239 | With equal decimals it grows by exactly that |
| `OfferRuns.ClosedBatchIsFrozen` | rs/common/tx-batch-module/src/lib.rs:118-209 | A batch that takes no more transactions keeps its id and content until it is settled, in every run whose limit changes do not reopen it |
| `OfferRuns.OfferedBatchIsFrozen` | rs/common/tx-batch-module/src/lib.rs:43-59 | An offered batch stays offered with the same id and content until it is settled, in every run under whose limits it stays full |
| `OfferRuns.LimitsKeepOfferIff` | rs/common/tx-batch-module/src/lib.rs:19-40 | A change of limits keeps the offer if and only if the batch is full under the new limits |
| `OfferRuns.ReopenedBatchGrows` | rs/common/tx-batch-module/src/lib.rs:19-40 | After a change of limits the next accepted deposit leaves a closed first batch as it is if and only if another batch follows it or it is full under the new limits |
| `OfferRuns.QueuesStayInOrder` | rs/common/tx-batch-module/src/lib.rs:118-243 | In every reachable state only a sole batch is empty, the waiting nonces are the contiguous range ending at the last one, and every transaction of an offered batch is more than ten blocks old |
| `OfferRuns.BatchesStayWithinLimit` | rs/common/tx-batch-module/src/lib.rs:176-209 | No batch outgrows the size limit in any run that does not set it below a stored batch |
| `OfferRuns.LimitsKeepSizesIff` | rs/common/tx-batch-module/src/lib.rs:19-27 | One change of limits keeps all batches within the limit if and only if none is longer than the new one |
| `OfferRuns.OutgrownBatchGrows` | rs/common/tx-batch-module/src/lib.rs:176-209 | Two deposits, a limit of one, and any number k of further deposits in the block give one batch of 2 + k |
| `SettlementRuns.PendingWasOffered` | rs/multisig/src/lib.rs:171-213 | In every run a pending status list goes back to a successful proposal made while the safe offered that batch, whose transactions then are the first of those now |
| `SettlementRuns.SettledWasOffered` | rs/multisig/src/lib.rs:193-198 | In every run a settled batch is the n transactions offered at its proposal followed by n/6 more, so it is the offered batch if and only if n is below six |
| `SettlementRuns.SettledIsOffered` | rs/esdt-safe/src/lib.rs:79-82 | In every run that never reopens a closed batch, each settled batch is exactly the one offered at its proposal and has fewer than six transactions |
| `SettlementRuns.ReopenedBatchSettles` | rs/multisig/src/lib.rs:193-198 | A run in which six transactions are offered and voted on and seven are settled |
| `SettlementRuns.SettleableIffSmall` | rs/multisig/src/lib.rs:193-198 | Some status list that passes the multisig's count for the present batch also settles that same batch if and only if it has fewer than six transactions |
| `SettlementRuns.LargeBatchJams` | rs/multisig/src/lib.rs:193-198 | A closed batch of six or more that no pending status list fits stays first and unsettled, with the same content, in every run that does not reopen it |
| `SettlementRuns.PassableIffFits` | rs/multisig/src/lib.rs:307-336 | From any consistent state, some run gets past a closed first batch of six or more without reopening it if and only if some pending status list fits it as it is now |
| `SettlementRuns.JamEndsByReopening` | rs/multisig/src/setup.rs:229-246 | A run that gets past a closed batch of six or more that no pending list fits contains a change of limits that reopens it |
| `SettlementRuns.FullBatchJams` | rs/esdt-safe/src/lib.rs:187-222 | From deployment with a size limit of six or more, filling one batch and waiting eleven blocks reaches that state |
| `Performing.StatusActionPerforms` | rs/multisig/src/lib.rs:313-336 | With a quorum, a status action goes through exactly if it has one status per transaction, executed or rejected for each non-refund: no state of the books can stop it |
| `Performing.TransferActionPerforms` | rs/multisig/src/lib.rs:337-363 | With a quorum, a transfer action goes through if and only if it has transfers, the wrapper is unset or running, the swap is set and may burn if any transfer is accepted, every accepted transfer becomes a positive amount of WESDT, which takes the mint role of its universal token, and the pot covers their sum |
| `Performing.EmptyBatchOnlyProposes` | rs/multisig/src/lib.rs:354-355 | An empty Ethereum batch is proposed under the same checks as any other and never performs |
| `Performing.OneUnpayableFails` | rs/multi-transfer-esdt/src/lib.rs:166-189 | One accepted transfer that cannot be paid out makes the whole action fail |
| `Performing.UnmappedTokenFails` | rs/multi-transfer-esdt/src/lib.rs:166-189 | From deployment, a batch with one transfer of a mintable token that is not mapped is proposed with a quorum, and performing it is refused |
| `Performing.UnpayableTransferStops` | rs/multisig/src/lib.rs:221-252 | While relayers propose a batch with a transfer that is accepted and cannot be paid out, no Ethereum batch is executed in any run |
| `BatchQueue.AddAllAppends` | rs/common/tx-batch-module/src/lib.rs:135-159 | Adding appends to the concatenation of all batches and keeps the first id |
| `BatchQueue.AddAllIdsAre` | rs/common/tx-batch-module/src/lib.rs:135-159 | Each returned batch id is that of the batch in which the transaction at its position is |
| `BatchQueue.ClearFirstDrops` | rs/common/tx-batch-module/src/lib.rs:229-243 | Clearing removes exactly the first batch from the front of that concatenation |
| `BatchQueue.ClosedIffUntouched` | rs/common/tx-batch-module/src/lib.rs:118-132 | A non-empty first batch is safe from the next transaction if and only if another batch follows it or it is full |
| `BatchQueue.AddAllKeepsClosed` | rs/common/tx-batch-module/src/lib.rs:118-174 | Adding any transactions keeps a closed batch closed and unchanged and an offered one offered |
| `BatchQueue.OfferedIsAllFinal` | rs/common/tx-batch-module/src/lib.rs:211-227 | Checking the last transaction for finality covers the whole batch |
| `BatchQueue.OfferedIff` | rs/common/tx-batch-module/src/lib.rs:176-227 | The first batch is offered exactly when it has as many transactions as the limit or its oldest is as old as the duration, and its newest is more than ten blocks old |
| `TxBatchModule.TxBatchStorage.AddToBatch` | rs/common/tx-batch-module/src/lib.rs:118-132 | Adds at the back, opening a new batch exactly if the last one is full, and returns the batch id |
| `TxBatchModule.TxBatchStorage.AddMultipleTxToBatch` | rs/common/tx-batch-module/src/lib.rs:135-159 | Gives the storage and the batch ids of adding one by one, although it works through one cached mapper |
| `TxBatchModule.TxBatchStorage.CreateNewBatch` | rs/common/tx-batch-module/src/lib.rs:161-174 | Opens the next id with one transaction and returns a coherent mapper on it |
| `TxBatchModule.TxBatchStorage.GetCurrentTxBatch` | rs/common/tx-batch-module/src/lib.rs:43-59 | Returns id and flattened content exactly if the first batch is full and final |
| `TxBatchModule.TxBatchStorage.GetFirstBatchAnyStatus` | rs/common/tx-batch-module/src/lib.rs:62-80 | Returns the first batch exactly if it is not empty |
| `TxBatchModule.TxBatchStorage.ClearFirstBatch` | rs/common/tx-batch-module/src/lib.rs:229-243 | Drops the first batch; the ids move on even when it was the only one |
| `TxBatchModule.TxBatchMapper.Push` | rs/common/tx-batch-module/src/tx_batch_mapper.rs:84-93 | Appends to the stored vector and keeps cached first, last and length equal to it |
| `TxBatchModule.TxBatchMapper.Clear` | rs/common/tx-batch-module/src/tx_batch_mapper.rs:49-51 | Empties the storage and leaves the cache stale, unless the batch was already empty |
| `TxBatchModule.TxBatchMapper.IsFull` | rs/common/tx-batch-module/src/lib.rs:176-209 | Decides fullness of the stored batch from the cache |
| `TxBatchModule.TxBatchMapper.IsFinal` | rs/common/tx-batch-module/src/lib.rs:211-227 | Decides finality of the stored batch from the cache |
| `TxBatchModule.TxBatchMapper.Collect` | rs/common/tx-batch-module/src/tx_batch_mapper.rs:95-140 | Iterating yields exactly the stored vector in order |
| `TxBatchModule.TxBatchIter.Next` | rs/common/tx-batch-module/src/tx_batch_mapper.rs:124-140 | Yields the element at the index and advances, until the end |
| `EsdtSafe.EsdtSafeContract.CreateTransaction` | rs/esdt-safe/src/lib.rs:187-222 | Refuses or books a deposit as specified: fee, service fee, nonce and batch |
| `SafeLedger.CreateKeepsBooks` | rs/esdt-safe/src/lib.rs:187-222 | A deposit is split without loss into amount, service fee and gas fee, takes the next nonce and keeps the books balanced |
| `DepositRuns.CreateBooks` | rs/esdt-safe/src/lib.rs:187-207 | A deposit goes through exactly if not paused, whitelisted, above the gas fee, within the limit and not eaten up by the service fee; payment and gas fee are booked and nothing else changes |
| `DepositRuns.CreateQueues` | rs/esdt-safe/src/lib.rs:209-221 | It appends one transaction from the named account to the named Ethereum address, with the capped percentage as service fee and the rest as amount |
| `DepositRuns.DepositsEnterInOrder` | rs/esdt-safe/src/lib.rs:187-222 | Over any run, the non-refund transactions that entered the safe are, in order and each once, those of the successful deposits |
| `DepositRuns.SwappedPayment` | rs/deposit-wrapper/src/lib.rs:34-67 | Through the deposit wrapper the payment reaches the safe in the deposit token and in no smaller amount, out of the wrapper's liquidity, against the locked base token |
| `EsdtSafe.EsdtSafeContract.SetTransactionBatchStatus` | rs/esdt-safe/src/lib.rs:67-114 | Settles the first batch as a whole or reverts |
| `SafeLedger.SetStatusKeepsBooks` | rs/esdt-safe/src/lib.rs:67-114 | Settlement removes the batch and keeps the books balanced for every token |
| `RefundLedger.SettlementIsBooked` | rs/esdt-safe/src/lib.rs:84-109 | A settlement adds to what each account is owed in each token exactly the rejected value that account had sent, lets executed value leave or strands it without the burn role, and moves nothing else |
| `RefundLedger.RefundsGoToSenders` | rs/esdt-safe/src/lib.rs:265-268 | Over any run, what an account is owed in a token is what it sent and was rejected minus what it claimed; what is stranded is what was executed without the burn role |
| `RefundLedger.ClaimPays` | rs/esdt-safe/src/lib.rs:229-239 | A claim pays all that is due to the caller in that token and touches no other entry |
| `SafeLedger.SettlementIsFunded` | rs/esdt-safe/src/lib.rs:67-114 | Settlement of the first batch succeeds if and only if the statuses fit |
| `SafeLedger.SettlingRefundsMovesNothing` | rs/esdt-safe/src/lib.rs:87-89 | Settling refunds changes nothing in the books, whatever the statuses |
| `EsdtSafe.EsdtSafeContract.AddRefundBatch` | rs/esdt-safe/src/lib.rs:123-174 | Queues the turned-round refunds; the per-token fee cache does not change the result |
| `EsdtSafe.EsdtSafeContract.CachedRequiredFee` | rs/esdt-safe/src/lib.rs:132-146 | The cached fee is the fee computed afresh |
| `SafeLedger.RefundsAreReturned` | rs/esdt-safe/src/lib.rs:123-174 | In order, each refund worth more than its fee yields one flagged transaction with from and to swapped, the amount less the fee and the next nonce; the others are dropped |
| `EsdtSafe.EsdtSafeContract.ClaimRefund` | rs/esdt-safe/src/lib.rs:229-239 | Pays all that is due to the caller in one token, once, or reverts |
| `SafeLedger.ClaimIsFunded` | rs/esdt-safe/src/lib.rs:229-239 | A claim succeeds if and only if something is due, and keeps the books balanced |
| `EsdtSafe.EsdtSafeContract.DistributeFees` | rs/common/token-module/src/lib.rs:25-63 | Pays every address its cut of every whitelisted token and keeps the rest, or reverts |
| `EsdtSafe.PayShares` | rs/common/token-module/src/lib.rs:38-61 | For one token, fails exactly if the cuts exceed fees or funds, and credits each address its cuts |
| `SafeLedger.DistributionIsFunded` | rs/common/token-module/src/lib.rs:25-63 | Distribution succeeds if and only if the percentages add up to 10000, takes from the balance exactly what leaves the fees, and leaves fewer units per token than there are recipients |
| `SafeLedger.DistributionIs` | rs/common/token-module/src/lib.rs:38-61 | Fees and funds of each whitelisted token fall by the sum of the cuts, and nothing else moves |
| `FeeSharing.DustIsSmall` | rs/common/token-module/src/lib.rs:38-61 | Cuts that add up to the whole never exceed the fees and miss them by less than the number of recipients |
| `FeeSharing.CutsAddUp` | rs/common/token-module/src/lib.rs:38-61 | What all listed addresses get together is what is paid out |
| `FeeSharing.CutForOnce` | rs/common/token-module/src/lib.rs:48-50 | An address listed once gets its percentage rounded down |
| `FeeSharing.CutForListed` | rs/common/token-module/src/lib.rs:38-61 | An address that is not listed gets nothing |
| `Delivery.DeliveryPartition` | rs/multi-transfer-esdt/src/lib.rs:31-80 | In a successful batch each transfer is either paid to its own destination, in the base token and in its own converted amount, or queued once for refund; minted totals equal accepted amounts |
| `DeliveryRules.PaidByRule` | rs/multi-transfer-esdt/src/lib.rs:44-73 | In a successful delivery exactly the transfers to a real, unfrozen account that is no contract, of a mintable token and within its limit are paid, in the order of the batch, each to its destination in its converted amount |
| `DeliveryRules.QueuedByRule` | rs/multi-transfer-esdt/src/lib.rs:130-141 | Exactly the others are queued for refund, in order, with sender, destination, token, amount and nonce of the transfer |
| `DeliveryRules.SortedMembers` | rs/multi-transfer-esdt/src/lib.rs:44-60 | Whether one transfer of the batch is paid or queued |
| `DeliveryRules.RefusedByRule` | rs/multi-transfer-esdt/src/lib.rs:31-80 | Over any run the transfers put aside are, in order, the records of those that failed the rule |
| `Delivery.DeliveryIff` | rs/multi-transfer-esdt/src/lib.rs:31-80 | A delivery succeeds if and only if the wrapper is unset or running, the swap is set and may burn if needed, every accepted transfer becomes a positive amount of WESDT and the pot covers them |
| `Delivery.DueExists` | rs/bridged-tokens-wrapper/src/lib.rs:229-264 | An accepted transfer has a wrapped amount unless its token is mapped and decimals are missing, differ by more than 19, or the universal token cannot be minted |
| `Delivery.WrapAllAligned` | rs/bridged-tokens-wrapper/src/lib.rs:141-185 | Wrapping works if and only if it works for each payment, and payment i becomes what it is worth on its own |
| `Delivery.PayAllAligned` | rs/multi-transfer-esdt/src/lib.rs:177-189 | Paying out works if and only if the swap is set and may burn, all payments are positive WESDT and the pot covers the sum; destination i gets the base token for payment i |
| `Delivery.DeliverySurplus` | rs/multi-transfer-esdt/src/lib.rs:166-189 | A delivery keeps the wrapper's backing and the swap's pot matched |
| `TokenContracts.MultiTransferEsdt.BatchTransferEsdtToken` | rs/multi-transfer-esdt/src/lib.rs:31-80 | Delivers a batch through wrapper and swap as specified, or undoes everything in all three contracts |
| `TokenContracts.MultiTransferEsdt.SortTransfers` | rs/multi-transfer-esdt/src/lib.rs:36-73 | The loop's three lists are the payments, destinations and refunds of the accepted and refused transfers |
| `TokenContracts.MultiTransferEsdt.DistributePayments` | rs/multi-transfer-esdt/src/lib.rs:177-189 | Pays each wrapped payment to the destination at the same position |
| `TokenContracts.MultiTransferEsdt.GetAndClearFirstRefundBatch` | rs/multi-transfer-esdt/src/lib.rs:84-94 | Returns and removes the first refund batch |
| `TokenWrapper.ConversionLimit` | rs/bridged-tokens-wrapper/src/dfp_big_uint.rs:15-32 | Conversion works if and only if the decimals differ by at most 19 |
| `TokenWrapper.ConversionNeverGains` | rs/bridged-tokens-wrapper/src/dfp_big_uint.rs:15-32 | In common decimals a conversion never yields more, and yields the same when it adds decimals |
| `TokenWrapper.ConversionExact` | rs/bridged-tokens-wrapper/src/dfp_big_uint.rs:15-32 | A conversion multiplies exactly or rounds down by less than one unit |
| `TokenRules.WrapIs` | rs/bridged-tokens-wrapper/src/lib.rs:149-181 | When a mapped payment is wrapped, into what, and which books move by how much |
| `TokenRules.UnwrapIs` | rs/bridged-tokens-wrapper/src/lib.rs:189-227 | When a universal token is unwrapped, into what, and which books move by how much |
| `TokenRules.SwapWrapIs` | rs/wesdt-swap/src/lib.rs:33-51 | When the swap takes the base token, and that it gives as much WESDT |
| `TokenRules.SwapUnwrapIs` | rs/wesdt-swap/src/lib.rs:55-101 | When it takes WESDT back |
| `TokenRules.AddWrappedIs` | rs/bridged-tokens-wrapper/src/lib.rs:21-29 | When a universal token can be added, and that only its decimals change |
| `TokenRules.WhitelistIs` | rs/bridged-tokens-wrapper/src/lib.rs:67-92 | When a chain token can be whitelisted, and that only its mapping and decimals change |
| `TokenRules.BlacklistIs` | rs/bridged-tokens-wrapper/src/lib.rs:115-127 | Blacklisting clears the mapping and decimals of that token alone |
| `TokenRules.DepositIs` | rs/bridged-tokens-wrapper/src/lib.rs:132-139 | Depositing raises the liquidity of the deposited token alone |
| `TokenWrapper.ConversionRoundTrip` | rs/bridged-tokens-wrapper/src/dfp_big_uint.rs:15-32 | Converting there and back works, never gains, and is exact when decimals are added first |
| `TokenWrapper.WrapUnwrapRoundTrip` | rs/bridged-tokens-wrapper/src/lib.rs:141-227 | Unwrapping what was just wrapped works unless it rounded to nothing or the burn role is missing, returns at most the payment, exactly it if the universal token has at least as many decimals, and leaves the loss as liquidity |
| `TokenWrapper.ZeroDecimalsFail` | rs/bridged-tokens-wrapper/src/lib.rs:250-264 | With a zero decimals slot neither wrapping nor unwrapping goes through |
| `TokenWrapper.WhitelistSurplus` | rs/bridged-tokens-wrapper/src/lib.rs:67-92 | Whitelisting a chain token that is not itself an issued universal token adds exactly its liquidity to the surplus of its universal token and changes no other |
| `TokenWrapper.AddWrappedSurplus` | rs/bridged-tokens-wrapper/src/lib.rs:21-29 | Setting up a universal token that is not in circulation changes no surplus |
| `TokenWrapper.UpdateSurplus` | rs/bridged-tokens-wrapper/src/lib.rs:97-111 | New decimals for a chain token revalue its liquidity and change nothing else |
| `TokenWrapper.BlacklistSurplus` | rs/bridged-tokens-wrapper/src/lib.rs:115-127 | Blacklisting takes exactly the liquidity of the token out of the surplus |
| `TokenWrapper.RemoveSurplus` | rs/bridged-tokens-wrapper/src/lib.rs:49-63 | Removing a universal token leaves it without backing, so it stays covered if and only if none is in circulation |
| `TokenWrapper.WrapAllSurplus` | rs/bridged-tokens-wrapper/src/lib.rs:141-185 | Wrapping any list of payments never lowers the surplus of any universal token |
| `TokenWrapper.UnwrapSurplus` | rs/bridged-tokens-wrapper/src/lib.rs:189-227 | Unwrapping never lowers it either |
| `TokenWrapper.DepositSurplus` | rs/bridged-tokens-wrapper/src/lib.rs:132-139 | Depositing liquidity raises it by the deposit |
| `TokenContracts.BridgedTokensWrapper.AddWrappedToken` | rs/bridged-tokens-wrapper/src/lib.rs:21-29 | Sets the decimals of a universal token not added before |
| `TokenContracts.BridgedTokensWrapper.UpdateWrappedToken` | rs/bridged-tokens-wrapper/src/lib.rs:33-45 | Sets the decimals of a universal token added before |
| `TokenContracts.BridgedTokensWrapper.RemoveWrappedToken` | rs/bridged-tokens-wrapper/src/lib.rs:49-63 | Clears a universal token and, one by one, all its chain tokens |
| `TokenContracts.BridgedTokensWrapper.WhitelistToken` | rs/bridged-tokens-wrapper/src/lib.rs:67-92 | Maps an unmapped chain token to a universal token with its decimals |
| `TokenContracts.BridgedTokensWrapper.UpdateWhitelistedToken` | rs/bridged-tokens-wrapper/src/lib.rs:97-111 | Sets the decimals of a mapped chain token |
| `TokenContracts.BridgedTokensWrapper.BlacklistToken` | rs/bridged-tokens-wrapper/src/lib.rs:115-127 | Clears mapping and decimals of a token |
| `TokenContracts.BridgedTokensWrapper.WrapTokens` | rs/bridged-tokens-wrapper/src/lib.rs:141-185 | Wraps what is mapped, passes on the rest, in order, or reverts |
| `TokenContracts.BridgedTokensWrapper.UnwrapToken` | rs/bridged-tokens-wrapper/src/lib.rs:189-227 | Pays the converted amount out of the liquidity of the requested token, or reverts |
| `TokenContracts.EsdtWEsdtSwap.WrapEsdt` | rs/wesdt-swap/src/lib.rs:33-51 | Locks the base token and issues the same amount |
| `TokenContracts.EsdtWEsdtSwap.UnwrapEsdtToAddress` | rs/wesdt-swap/src/lib.rs:55-101 | Burns and pays the same amount to the given address, or fails if the pot is too small |
| `MultisigContract.MultisigContract.constructor` | rs/multisig/src/lib.rs:40-84 | A deployed multisig has its board, quorum and empty tables, and is paused |
| `MultisigContract.MayDeploy` | rs/multisig/src/lib.rs:40-84 | Deployment is refused exactly for a repeated member, a quorum above the board, a slash above the stake or a child address without a contract |
| `MultisigContract.MultisigContract.Stake` | rs/multisig/src/lib.rs:129-138 | Credits a board member's stake and the contract's EGLD |
| `MultisigContract.MultisigContract.Unstake` | rs/multisig/src/lib.rs:142-161 | Pays a stake back, but never below the minimum for a board member |
| `MultisigTable.UnstakeKeepsBooks` | rs/multisig/src/lib.rs:142-161 | The EGLD for an unstake that passes the checks is always there |
| `MultisigContract.MultisigContract.AddBoardMember` | rs/multisig/src/multisig_general.rs:51-59 | Gives an address an id if it has none and a seat if it has none |
| `MultisigTable.AddMemberKeepsBoard` | rs/multisig/src/multisig_general.rs:51-59 | The address is then a member and the counter is right |
| `MultisigContract.MultisigContract.RemoveUser` | rs/multisig/src/setup.rs:53-61 | Removes a seat, or reverts if the board would be empty or below the quorum |
| `MultisigTable.RemoveUserKeepsBoard` | rs/multisig/src/multisig_general.rs:61-72 | The address is then no member and the counter is right |
| `MultisigContract.MultisigContract.SlashBoardMember` | rs/multisig/src/setup.rs:71-83 | Removes the seat and moves the slash amount from the stake to the pool, or reverts |
| `MultisigTable.SlashKeepsBooks` | rs/multisig/src/setup.rs:71-83 | Slashing keeps EGLD = stakes + slashed and the board counter |
| `MultisigContract.MultisigContract.ChangeQuorum` | rs/multisig/src/setup.rs:87-93 | Sets a quorum no larger than the board |
| `MultisigContract.MultisigContract.GetAllStakedRelayers` | rs/multisig/src/queries.rs:133-144 | Lists exactly the sufficiently staked board members, each once |
| `MultisigContract.MultisigContract.ProposeAction` | rs/multisig/src/multisig_general.rs:27-44 | Appends an action under the next id, signed by a proposer with enough stake |
| `MultisigContract.MultisigContract.ProposeEsdtSafeSetCurrentTransactionBatchStatus` | rs/multisig/src/lib.rs:171-213 | Proposes and indexes a status list for the batch the safe offers, with the count the original computes |
| `MultisigContract.MultisigContract.ProposeMultiTransferEsdtBatch` | rs/multisig/src/lib.rs:221-252 | Proposes and indexes the next Ethereum batch with consecutive nonces, unless its hash is already indexed |
| `MultisigContract.RequireValidEthTxIds` | rs/multisig/src/util.rs:66-74 | Accepts exactly the nonces that follow the last executed one without a gap |
| `MultisigContract.MultisigContract.Sign` | rs/multisig/src/multisig_general.rs:12-25 | Adds a staked board member's signature to a pending action |
| `MultisigContract.MultisigContract.ClearWithSiblings` | rs/multisig/src/lib.rs:309-326 | Blanks the action and, if the index holds several, all of them, in any order |
| `MultisigContract.MultisigContract.PerformAction` | rs/multisig/src/lib.rs:284-365 | Performs an action across multisig, safe, delivery, wrapper and swap as specified, or leaves all of them unchanged |
| `MultisigContract.MultisigContract.MoveRefundBatchToSafe` | rs/multisig/src/lib.rs:262-280 | Takes the first refund batch out of the delivery contract and queues it, turned round, in the safe |
| `MultisigContract.MultisigContract.DistributeFeesFromChildContracts` | rs/multisig/src/lib.rs:93-123 | Distributes the safe's fees unless a recipient is a contract or the percentages do not add up |
| `MultisigContract.DepositWrapper.Deposit` | rs/deposit-wrapper/src/lib.rs:34-67 | Swaps, unwraps and bridges in one call, or leaves swap, wrapper and safe unchanged; a token other than its own fails |
| `Delivery.SplitJoin` | rs/common/transaction/src/lib.rs:55-86 | Flattening a batch and rebuilding it keeps everything except the refund flag |
| `Transactions.CountByFieldsExact` | rs/multisig/src/lib.rs:193-194 | Seven fields per transaction divided by six is n + n/6, which is n exactly for n below six |
| `RelayerRuns.RelayerIsSafe` | bridge/stateMachine/stateMachine.go:74-93 | Whatever the world answers, a machine never asks for a step outside its map, holds a validated batch outside the fetching step, and everything it sends is preceded, in the same cycle and in order, by what justifies it |
| `RelayerRuns.CycleIsSuffix` | bridge/stateMachine/stateMachine.go:74-93 | A cycle is the end of the event log after the last execution of the fetching step |
| `RelayerRuns.SentTransfersHaveQuorum` | bridge/bridges/ethMultiversX/steps/multiversxToEth/step04PerformTransfer.go:16-39 | Every transfer sent to Ethereum carries the hash made from the stored, validated batch in this cycle, after a positive quorum answer on that hash |
| `RelayerRuns.PerformedActionsAreKnown` | bridge/bridges/ethMultiversX/steps/multiversxToEth/step10PerformSetStatus.go:16-43 | Every performed action has a non-zero id fetched for that batch in this cycle, with a positive quorum answer; towards Ethereum the transfer was reported as done before its statuses were set, towards MultiversX the batch is the next one with consecutive nonces |
| `RelayerAnswers.EventsWereHeard` | bridge/bridges/ethMultiversX/bridgeExecutor.go:144-525 | In every run every event happened in a step in which the world gave the answer it needs; transfers, proposals and actions are sent only as leader and only if reported as not yet done |
| `RelayerAnswers.ProposedStatusesWereAnswered` | bridge/bridges/ethMultiversX/steps/multiversxToEth/step06ResolveSetStatus.go:16-44 | Every proposed status list was resolved, position by position, from the first non-empty answer Ethereum gave |
| `RelayerAnswers.ExecutedOnlyIfAnswered` | bridge/clients/batch.go:47-65 | Such a list calls a deposit executed only if Ethereum did, at the same position |
| `RelayerAnswers.ResolvedIs` | bridge/clients/batch.go:47-65 | With n deposits expected, entry i is Ethereum's if it is among both, and rejected otherwise; the length is the larger number |
| `RelayerAnswers.FinalStatusesIs` | bridge/bridges/ethMultiversX/bridgeExecutor.go:345-366 | The statuses are those of the first non-empty answer among ten, with no wait interrupted before |
| `RelayerProgress.ErrorsGoHome` | bridge/bridges/ethMultiversX/steps/multiversxToEth/step03WaitForQuorumOnTransfer.go:16-35 | An error sends the machine back to fetching, whatever the step |
| `RelayerProgress.DoneIsSkipped` | bridge/bridges/ethMultiversX/steps/multiversxToEth/step04PerformTransfer.go:16-39 | What is reported as already performed, proposed, signed or executed is not sent again |
| `RelayerProgress.InvalidIsDropped` | bridge/bridges/ethMultiversX/steps/multiversxToEth/step01GetPending.go:17-66 | A batch that fails validation is not acted on |
| `RelayerProgress.NegativeAnswersWait` | bridge/bridges/ethMultiversX/steps/ethToMultiversX/step04WaitForQuorum.go:16-35 | A negative answer makes a waiting step wait and uses up one retry |
| `RelayerRuns.WaitsAreBounded` | bridge/bridges/ethMultiversX/bridgeExecutor.go:423-431 | Between two fetches each waiting step runs at most once more than its retry limit |
| `RelayerRuns.ExecuteGood` | bridge/bridges/ethMultiversX/steps/ethToMultiversX/step01GetPending.go:17-66 | Every single step keeps that evidence and stays inside the map |
| `RelayerProgress.RelayerMakesProgress` | bridge/stateMachine/stateMachine.go:74-93 | From every reachable state, with any earlier answers, seventeen answers in a row that are each favourable for the step that hears them lead to a performed action |
| `RelayerProgress.FavourableStep` | bridge/bridges/ethMultiversX/bridgeExecutor.go:272-279 | A favourable step performs an action or strictly lowers the number of steps still needed, counting one more round if a retry counter is used up |
| `RelayerMachine.StateMachine.ExecuteStep` | bridge/stateMachine/stateMachine.go:74-93 | Runs the current step and looks up the next |
| `RelayerMachine.BridgeExecutor.GetPendingFromMultiversX` | bridge/bridges/ethMultiversX/steps/multiversxToEth/step01GetPending.go:17-66 | Resets the counters, stores and validates the pending batch, branches on whether it was performed |
| `RelayerMachine.BridgeExecutor.SignTransferOnEthereum` | bridge/bridges/ethMultiversX/bridgeExecutor.go:465-481 | Stores the hash of the stored batch |
| `RelayerMachine.BridgeExecutor.WaitForQuorumOnTransfer` | bridge/bridges/ethMultiversX/steps/multiversxToEth/step03WaitForQuorumOnTransfer.go:16-35 | Counts an attempt and goes on only with a positive quorum answer |
| `RelayerMachine.BridgeExecutor.PerformTransfer` | bridge/bridges/ethMultiversX/steps/multiversxToEth/step04PerformTransfer.go:16-39 | Sends the stored hash and batch only as leader and only if not yet performed |
| `RelayerMachine.BridgeExecutor.ResolveSetStatus` | bridge/bridges/ethMultiversX/steps/multiversxToEth/step06ResolveSetStatus.go:16-44 | Replaces the statuses of the stored batch, and nothing else of it |
| `RelayerMachine.ResolveStatuses` | bridge/clients/batch.go:47-65 | Keeps the statuses of expected deposits, marks surplus ones rejected, appends rejected for missing ones |
| `RelayerMachine.WaitAndReturnFinalBatchStatuses` | bridge/bridges/ethMultiversX/bridgeExecutor.go:345-366 | Returns the first non-empty answer within ten rounds, nothing after an interrupted wait |
| `RelayerMachine.BridgeExecutor.ProposeSetStatus` | bridge/bridges/ethMultiversX/steps/multiversxToEth/step07ProposeSetStatus.go:16-52 | Counts an attempt and proposes only as leader and only if not yet proposed |
| `RelayerMachine.BridgeExecutor.GetPendingFromEthereum` | bridge/bridges/ethMultiversX/steps/ethToMultiversX/step01GetPending.go:17-66 | Goes on only with a stored, validated next batch whose nonces follow the last executed one |
| `RelayerMachine.BridgeExecutor.GetAndStoreBatchFromEthereum` | bridge/bridges/ethMultiversX/bridgeExecutor.go:438-453 | Stores a batch exactly if it has the requested id and at least one deposit |
| `RelayerMachine.VerifyDepositNonces` | bridge/bridges/ethMultiversX/bridgeExecutor.go:195-206 | Accepts exactly the nonces that follow one by one, in 64-bit arithmetic |
| `RelayerMachine.BridgeExecutor.ProposeTransfer` | bridge/bridges/ethMultiversX/steps/ethToMultiversX/step02ProposeTransfer.go:16-47 | Proposes the stored batch only as leader and only if not yet proposed |
| `RelayerMachine.BridgeExecutor.SignAction` | bridge/bridges/ethMultiversX/steps/ethToMultiversX/step03SignProposedTransfer.go:17-56 | Stores the id fetched for the stored batch and signs only a non-zero one not yet signed |
| `RelayerMachine.BridgeExecutor.WaitForMultiversXQuorum` | bridge/bridges/ethMultiversX/steps/ethToMultiversX/step04WaitForQuorum.go:16-35 | Counts an attempt and goes on only with a positive quorum answer on the stored id |
| `RelayerMachine.BridgeExecutor.PerformAction` | bridge/bridges/ethMultiversX/steps/ethToMultiversX/step05PerformActionID.go:16-43 | Performs the stored id for the stored batch only as leader and only if not yet executed |
| `RelayerMachine.VerifiedBatchIsProposable` | bridge/bridges/ethMultiversX/bridgeExecutor.go:195-206 | A batch that passed the relayer's checks can be refused by the multisig only because of the proposer, a pause or an earlier proposal |
| `RelayerMachine.ProposedStatusCount` | bridge/clients/batch.go:47-65 | When the proposed number of statuses passes the multisig's count, and when it can also be settled |
| `Leader.OneLeader` | bridge/bridges/ethMultiversX/topology/topologyHandler.go:52-78 | Relayers that fetched the same non-empty set in any order, with any repetitions, agree throughout an interval on exactly one leader: the member that the hash of the interval number selects from the sorted list |
| `Leader.LessIs` | bridge/clients/roleProviders/multiversXRoleProvider.go:117-119 | The order of the list is that of the first differing byte, a proper prefix first |
| `Leader.ListUnique` | bridge/clients/roleProviders/multiversXRoleProvider.go:107-121 | There is exactly one sorted list of a set of keys |
| `Leader.MyTurnAsLeader` | bridge/bridges/ethMultiversX/topology/topologyHandler.go:52-78 | True exactly for the key that the hash of the interval selects from the sorted whitelist; false for an empty one |
| `Leader.RoleProvider.ProcessResults` | bridge/clients/roleProviders/multiversXRoleProvider.go:69-93 | Replaces the whitelist by the fetched set, or keeps the old one if any address is malformed |
| `Leader.RoleProvider.SortedPublicKeys` | bridge/clients/roleProviders/multiversXRoleProvider.go:107-121 | Lists the whitelist in byte order, each key once, whatever order the map gives |
| `Codec.BatchRoundTrip` | bridge/clients/multiversx/client.go:200-258 | Parsing a flattened batch returns the id and, in order, every nonce, sender, receiver, token and amount, with one status per deposit; it fails exactly if the batch is empty or a token is unknown |
| `Codec.CountIsWireLength` | rs/multisig/src/lib.rs:193-194 | The count the multisig asks for is the number of values on the wire divided by six |
| `Codec.CreatePendingBatchFromResponse` | bridge/clients/multiversx/client.go:200-258 | The parser with its token cache equals converting every token directly, for every response and every error |
| `Codec.NumberRoundTrip` | bridge/clients/multiversx/mxClientDataGetter.go:203-210 | Reading back the shortest big-endian form gives the number |

## Left out

- 64-bit counters in the contracts: modelled as unbounded, because the contracts are built with overflow checks and an overflow fails the call.
- Asynchronous execution: `transfer_execute` and cross-shard calls are modelled as taking effect within the call.
- Ownership: owner endpoints are steps of the run without a caller check.
- Hash functions, signatures, ABI packing: uninterpreted; nothing here needs the hash to be injective.
- recoverEsdt of the swap: it pays the whole pot to the owner, so it is not a step of a run.
- Tokens sent to a contract outside its endpoints, and zero-value transfer rules of the chain.
- addMapping and clearMapping write the two maps between token identifiers and ERC20 addresses that only relayers read; the upgrade endpoints replace contract code; the setters for aggregator and service-fee addresses and tickers write one slot each.
- MultisigContract.MultisigContract.constructor: takes the safe and the delivery contract as objects, so that their addresses hold contracts is checked in MayDeploy only.
- Price aggregator: its answer is an argument.
- getBatchStatus, getRefundAmounts and other plain views.
- Relayer p2p, HTTP validation, gas price, metrics and logging: their answers are arguments of a step; waiting for a transfer confirmation has no effect on the machine's state.
- A relayer query that reports no error and no batch is treated as an error.
- Sorting of the relayer list: the library sort is modelled by insertion.
- The byte form of numbers on the wire (shortest big-endian, zero as the empty buffer) and the 32-byte address length are rules of the platform's libraries, which are not part of this model.
