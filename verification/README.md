# Teleporter: a verified model

Teleporter sends messages between blockchains: TeleporterMessenger, deployed at one
address on every chain, numbers and encodes messages, hands them to Warp for signing,
takes them in on the other side from relayers, runs them once, and pays the relayers
when receipts come back. Two token bridges are built on it. This project models the
contracts and proves what their users rely on, over every run and any number of chains.

| file | content |
|---|---|
| `Words`, `Sums` | EVM words, big-endian words in byte strings; sums over finite maps |
| `MessageCodec` | TeleporterMessage and its ABI encoding and decoding |
| `ReceiptQueue` | the FIFO queue {first, last, data} |
| `Teleporter` | what each call of TeleporterMessenger does, as functions on its state |
| `TeleporterInvariants`, `TeleporterCalls` | what calls keep on their chain; whole calls with nested ones |
| `TeleporterNetwork` | chains, Warp and relayers; the main theorems on messages and fees |
| `TeleporterMessenger` | the contract as a class that updates its storage, proved against `Teleporter` |
| `TeleporterBatches`, `TeleporterPool` | the receipts that messages carry; the pool of messages that applications see |
| `TeleporterEffects` | when each call commits, and what it charges, pays, emits and leaves |
| `MessagePool`, `BridgePools` | what a pool of messages is; the bridges' networks as such pools |
| `ReentrancyGuards` | the two guards under arbitrary call trees |
| `NativeTokenBridge`, `NativeTokenContracts` | the collateral bridge: functions and theorems; the three contracts as classes |
| `NativeTokenFees` | how its contracts pay Teleporter, over every run |
| `BridgeToken` | the ERC-20 ledger with unchecked balance arithmetic, and its contract |
| `ERC20Bridge`, `ERC20BridgeNetwork`, `ERC20BridgeTransfers`, `ERC20BridgeHops`, `ERC20BridgeEffects`, `ERC20BridgeContract` | the multi-chain bridge: functions; theorems on all lanes, on single transfers, on mints that wait and on when calls commit; the contract as a class |
| `GasLimit`, `LogIterator`, `EventUnpacking` | the relayer's gas limit; the generated event iterators; events from their logs |

For each contract, pure functions say what a call does, the class beside them updates
fields step by step and is proved to do exactly that, and the theorems are about runs
of these functions.

## Assumptions

- Keccak-256 is injective and never zero. Warp signs only what a sender published on
  its chain. Calls run with enough gas, except that a delivery may lack the gas its
  payload requires, which is one flag of the call.
- A payload's receiver is a list of calls that it makes back into the contract while it
  runs; lists are arbitrary, so they cover every choice it could make. Calls that it
  makes and that revert, alone or in groups, count for nothing.
- Fee tokens are ERC-20 tokens that do not call back. How much a transfer brings is
  arbitrary, fees on transfer included; paying out takes exactly the amount, and out of
  an allowance unless that is the largest there is. No contract calls itself, so none
  redeems rewards from itself; a caller of a bridge is neither the bridge nor Teleporter,
  and neither of these has the zero address.
- No byte string is longer than 2^64 - 1, since memory of that size cannot be allocated.
- The networks of bridges run on a pool of messages under way, taken in any order, failing
  executions being tried again at will. They are such pools by `ERC20RunIsPoolRun` and
  `NativeRunIsPoolRun`, and Teleporter is one by `RunIsPoolRun`; `DeliverableOnce` says who
  can take a message off it first. That a bridge's code is what runs when its message is
  taken is assumed.
- The native tokens of the destination chain are those of genesis, as many as the
  initial reserve imbalance, and those that the bridge minted. Fees that the chain
  burns, and tokens anyone sends to a burn address, are steps of their own.
- A newly deployed wrapped token has an address at which nothing was held before.

## Where documentation and code differ

The model follows the code.

- TeleporterMessenger.sol:155 says that a fee can be added only to a message not yet
  delivered. The code only needs the receipt not to have come back: `FeeCanBeAddedIff` is
  the exact condition and `FeeAddedAfterDelivery` a run.
- NativeTokenDestination.sol:222-245 takes a fee for a burn report but neither collects it
  nor grants an allowance. `ReportPaysFromExcess` says what such a report can pay with,
  `ExactFeesRefuseReports` that with plain tokens, and fees below the largest amount, it
  always fails; `FeeReportFails`, `ExcessPaysReport` and `LargestFeePaysReport` are runs.
- NativeTokenSource.sol:123-167 lets a transfer of zero value through, and the
  destination refuses it for good: `ArrivalFailsIff`, and `ZeroLockIsNeverPaid` as a run.
- ERC20Bridge.sol:475-535 does not check on a hop that the token was announced to the
  third chain. The mint then waits until it is: `MintNeverFails`, and
  `UnannouncedHopWaits` and `HopArrivesOnceAnnounced` as runs.
- ERC20Bridge.sol:571-577 adds the fee of each message to Teleporter's allowance. In a token
  of which 2^256 - 1 exists, the fee of an announcement can make that allowance unlimited,
  and then no hop with a fee can be executed any more: `ReturnExecutesIff` is the exact
  condition, `ReturnNeverFails` excludes such tokens, `LargestFeeStopsHops` is a run.

## Model

| member | source | states |
|---|---|---|
| TeleporterNetwork.CreditedExactlyOnce | contracts/src/Teleporter/TeleporterMessenger.sol:684-710 | In every reachable network: the ids sent to a chain are 1 to the latest; each message sent is either live, holding the send fee plus all additions, or was credited exactly once, with all of them, to the reward address its destination recorded at the delivery |
| TeleporterNetwork.RewardsArePayable | contracts/src/Teleporter/TeleporterMessenger.sol:471-485 | In every reachable network an account can redeem exactly when it has a reward: rewards open plus rewards redeemed are all credits, and the balance is donations plus fees of live messages plus open rewards |
| TeleporterEffects.RedemptionPays | contracts/src/Teleporter/TeleporterMessenger.sol:471-485 | In every reachable network a redemption empties that account, lowers the balance in that token by just the reward, touches nothing else, and a second one is refused |
| TeleporterNetwork.DeliverableOnce | contracts/src/Teleporter/TeleporterMessenger.sol:229-287 | A signed message can be delivered if and only if it was not delivered before, a reward address is named, the deliverer is allowed and the gas its payload needs is there; neither its receiver nor its receipts can stop it |
| TeleporterNetwork.ExecutedWasSent | contracts/src/Teleporter/TeleporterMessenger.sol:229-336 | Whatever was executed was sent to this chain by the named chain, was delivered by a relayer its sender allowed, is not stored as failed, and was executed once |
| TeleporterEffects.DeliveryOutcome | contracts/src/Teleporter/TeleporterMessenger.sol:725-773 | A committed delivery with a payload has failed if and only if there is no receiver or it reverts, and was executed if and only if it succeeded; then all that the receiver did stays, and otherwise nothing of it |
| TeleporterEffects.ExecutedForGood | contracts/src/Teleporter/TeleporterMessenger.sol:353-403 | Once a message was executed, in every continuation no retry of it and no second delivery commits, whatever the receiver |
| TeleporterEffects.RetryOutcome | contracts/src/Teleporter/TeleporterMessenger.sol:373-403 | A committed retry leaves just what its receiver did, with the failed hash gone |
| TeleporterEffects.CallsInTurn | contracts/src/Teleporter/TeleporterMessenger.sol:775-799 | Calls of a receiver take effect one after the other, each on what those before it left |
| TeleporterEffects.SendCommitsIff | contracts/src/Teleporter/TeleporterMessenger.sol:90-102 | sendCrossChainMessage commits if and only if the guard is free, an id is left, the message fits memory and the fee can be taken; the entry's fee and the balance then grow by just what came in, and Warp is given just the message asked for |
| TeleporterEffects.SendReceiptsCommitsIff | contracts/src/Teleporter/TeleporterMessenger.sol:422-462 | The same for sendSpecifiedReceipts, which also needs every id to have been received |
| TeleporterEffects.ChargeIff | contracts/src/Teleporter/TeleporterMessenger.sol:636-651 | A fee is taken if and only if it is zero, or its token is not zero and brings something that fits; other balances stay |
| TeleporterPool.PoolChanges | contracts/src/Teleporter/TeleporterMessenger.sol:725-773 | What applications rely on: at any step a message enters the pool of those sent and not executed only under a new id of the chain of the call, leaves it only by being executed alone on its destination, keeps its content, and nothing outside the pool is executed |
| TeleporterPool.RunIsPoolRun | contracts/src/Teleporter/TeleporterMessenger.sol:725-773 | Every run of any number of chains, seen from the applications, is a run of one pool of messages, each step taking what it executed; whatever comes in was asked for, with this sender, destination and payload, by a send in the call of the step or in what its receiver calls |
| MessagePool.TakenOnce | contracts/src/Teleporter/TeleporterMessenger.sol:274-281 | No run of such a pool takes a message twice |
| TeleporterPool.CallSendsWhatIsAsked | contracts/src/Teleporter/TeleporterMessenger.sol:609-634 | A call sends only what some send in it, nested ones included, asked for, the caller of that send being the sender |
| TeleporterPool.StepsAsPool | contracts/src/Teleporter/TeleporterMessenger.sol:725-773 | The same for one step of a reachable network |
| TeleporterNetwork.FeeCanBeAddedIff | contracts/src/Teleporter/TeleporterMessenger.sol:158-213 | In every reachable network, the exact condition for an added fee: the message was sent, no receipt came back, the token is that of its fee and the transfer brings something; delivery does not matter and the sum cannot overflow |
| TeleporterEffects.AddFeeMoves | contracts/src/Teleporter/TeleporterMessenger.sol:158-213 | A committed addition raises the entry's fee and the balance by just what came in, and changes nothing else |
| TeleporterNetwork.FeeAddedAfterDelivery | contracts/src/Teleporter/TeleporterMessenger.sol:147-157 | A run of two chains: sent, delivered, and a fee is added after all |
| TeleporterNetwork.ReceiptsInOrder | contracts/src/Teleporter/ReceiptQueue.sol:63-76 | In every reachable network the receipts carried by the messages sent back automatically, in the order of these messages, followed by those queued are those of the committed deliveries, in order and each once; each such message took all that was queued, five at most; any other message runs nothing; what each found in the queue's history grows with its id |
| TeleporterNetwork.SignedIsSent | contracts/src/Teleporter/TeleporterMessenger.sol:229-262 | A signed message of the messenger decodes to the very message its source sent with that id, and the receipts in it name the reward addresses the source recorded |
| TeleporterNetwork.SentIsSigned | contracts/src/Teleporter/TeleporterMessenger.sol:667-676 | What a chain sent was given to Warp as the encoding of the message stored under its destination and id |
| TeleporterNetwork.NextKeepsInv | contracts/src/Teleporter/TeleporterMessenger.sol:41-80 | Every call on any chain, in any order, and every foreign Warp message keeps the whole invariant of the network |
| TeleporterNetwork.EveryRunIsSafe | contracts/src/Teleporter/TeleporterMessenger.sol:41-80 | From new contracts on any set of chains, every run of any length ends in a state with the invariant |
| TeleporterNetwork.EveryRunHasBatches | contracts/src/Teleporter/ReceiptQueue.sol:63-76 | In every run, nested sends included, each automatic message took a full batch, and the receipts off a queue are those the messages carry |
| TeleporterCalls.ReceiveEffect | contracts/src/Teleporter/TeleporterMessenger.sol:229-336 | A delivery commits exactly if it is accepted and brings the gas; it then records deliverer and reward address, counts the payload as executed if its receiver succeeded and stores its hash if not, credits only receipts of the message, and queues its own receipt last |
| TeleporterCalls.RetryEffect | contracts/src/Teleporter/TeleporterMessenger.sol:353-403 | A retried execution is taken exactly for the message delivered under that id whose execution failed, and commits exactly if the receiver exists and succeeds; the failed hash is then gone and the message executed |
| TeleporterCalls.RetryAcceptedIff | contracts/src/Teleporter/TeleporterMessenger.sol:353-371 | The stored hash accepts the delivered message and no other |
| TeleporterCalls.RetrySendRepeats | contracts/src/Teleporter/TeleporterMessenger.sol:113-146 | A retried send is taken exactly for the live message sent under that id, and gives Warp the original payload once more and nothing else |
| TeleporterCalls.StatusSteps | contracts/src/Teleporter/TeleporterMessenger.sol:319-403 | A message goes from undelivered to empty, executed or failed, from failed to executed, and nowhere else, at any call |
| TeleporterCalls.NestedCallsKeep | contracts/src/Teleporter/TeleporterMessenger.sol:725-773 | Whatever list of calls a receiver makes back into the contract, deliveries, failed hashes, executions, credits and both guards stay, and the books stay balanced |
| TeleporterCalls.CallProgresses | contracts/src/Teleporter/TeleporterMessenger.sol:229-403 | Any call on any state with the invariant makes one delivery, one successful retry, or touches nothing that the receive guard protects; records, credits, executions and receipts already there stay |
| TeleporterCalls.CallKeepsQuiet | contracts/src/Teleporter/ReentrancyGuards.sol:29-50 | After every top-level call, committed or reverted, both guards are free, each delivery has its receipt, and each payload has an outcome |
| TeleporterCalls.MarkReceiptsSettle | contracts/src/Teleporter/TeleporterMessenger.sol:300-311 | After the receipts of a message are marked, none of the messages they name is live |
| TeleporterCalls.DeliverySettlesReceipts | contracts/src/Teleporter/TeleporterMessenger.sol:300-311 | A committed delivery leaves no message live that one of its receipts names |
| TeleporterCalls.ExecuteKeeps | contracts/src/Teleporter/TeleporterMessenger.sol:725-819 | The first execution counts as one execution and keeps what the receiver did if it succeeded, and otherwise stores the failed hash and undoes all of it |
| TeleporterBatches.CallKeepsBatches | contracts/src/Teleporter/TeleporterMessenger.sol:90-102 | Any call, with whatever its receiver calls in turn, keeps what is known of the batches |
| TeleporterBatches.SentKeepsBatches | contracts/src/Teleporter/TeleporterMessenger.sol:609-676 | A message under a new id leaves the batches of the earlier ones as they were, and adds its receipts behind theirs |
| TeleporterInvariants.SendKeepsInv | contracts/src/Teleporter/TeleporterMessenger.sol:609-676 | A send with true receipts keeps ids gapless, entries matching their messages and fees, and the books balanced |
| TeleporterInvariants.AddFeeKeepsInv | contracts/src/Teleporter/TeleporterMessenger.sol:158-213 | An added fee keeps the entry equal to all fees ever received for its message, and the books balanced |
| TeleporterInvariants.AddFeeAcceptedIff | contracts/src/Teleporter/TeleporterMessenger.sol:158-213 | On any sound state, exactly which additions are accepted |
| TeleporterInvariants.MarkReceiptNeverReverts | contracts/src/Teleporter/TeleporterMessenger.sol:684-710 | With balanced books the addition to a reward cannot overflow, so no receipt can block a delivery |
| TeleporterInvariants.MarkReceiptsKeepInv | contracts/src/Teleporter/TeleporterMessenger.sol:684-710 | Marking any list of receipts, repeated or false ones included, always succeeds and keeps the invariant |
| TeleporterInvariants.MarkReceiptsCredits | contracts/src/Teleporter/TeleporterMessenger.sol:684-710 | Credits are only appended, each for a message and reward address that a receipt of the list names |
| TeleporterInvariants.RewardCovered | contracts/src/Teleporter/TeleporterMessenger.sol:471-485 | No reward exceeds the balance in its token |
| TeleporterInvariants.RedeemKeepsInv | contracts/src/Teleporter/TeleporterMessenger.sol:471-485 | A redemption succeeds exactly when the reward is not zero, and keeps the books balanced |
| TeleporterInvariants.DrainKeepsInv | contracts/src/Teleporter/ReceiptQueue.sol:63-76 | A batch taken from the queue consists of true receipts, and batch and rest are the receipts enqueued |
| TeleporterInvariants.EnqueueKeepsInv | contracts/src/Teleporter/ReceiptQueue.sol:37-42 | A receipt with a new id keeps the queue history free of duplicates and true |
| TeleporterInvariants.AcceptKeepsInv | contracts/src/Teleporter/TeleporterMessenger.sol:229-290 | An accepted delivery is recorded under its origin and id, from an allowed relayer and for this chain |
| TeleporterMessenger.Messenger.Invoke | contracts/src/Teleporter/TeleporterMessenger.sol:41-80 | The imperative contract run as the EVM runs it: every call ends in exactly the state that the specification proves things about, and a revert restores all storage |
| TeleporterMessenger.Messenger.SafeTransferFrom | contracts/src/Teleporter/SafeERC20TransferFrom.sol:31-45 | Returns exactly the growth of the balance, and reverts if there is none |
| TeleporterMessenger.Messenger.TransferFee | contracts/src/Teleporter/TeleporterMessenger.sol:636-651 | Charges nothing for a zero amount, refuses the zero token, else takes the balance growth as the fee |
| TeleporterMessenger.Messenger.SendTeleporterMessage | contracts/src/Teleporter/TeleporterMessenger.sol:609-676 | Refines the specified send: next id, encoded message to Warp, hash and received fee stored; returns the id of the message sent |
| TeleporterMessenger.Messenger.SendCrossChainMessage | contracts/src/Teleporter/TeleporterMessenger.sol:90-102 | Refines the guarded send with a batch of receipts; returns the id of the message sent |
| TeleporterMessenger.Messenger.RetrySendCrossChainMessage | contracts/src/Teleporter/TeleporterMessenger.sol:113-146 | Refines the guarded retry of a send |
| TeleporterMessenger.Messenger.AddFeeAmount | contracts/src/Teleporter/TeleporterMessenger.sol:158-213 | Refines the guarded addition to a fee, with every check |
| TeleporterMessenger.Messenger.GatherReceipts | contracts/src/Teleporter/TeleporterMessenger.sol:428-447 | The loop returns the receipt of every id in order, or fails exactly if one id was not received |
| TeleporterMessenger.Messenger.SendSpecifiedReceipts | contracts/src/Teleporter/TeleporterMessenger.sol:422-462 | Refines sending chosen receipts in an empty message to the zero address; returns the id of the message sent |
| TeleporterMessenger.Messenger.CheckIsAllowedRelayer | contracts/src/Teleporter/TeleporterMessenger.sol:584-600 | The loop accepts exactly an empty list or a list that contains the deliverer |
| TeleporterMessenger.Messenger.MarkReceipts | contracts/src/Teleporter/TeleporterMessenger.sol:300-311 | The loop over the receipts is the fold of marking each |
| TeleporterMessenger.Messenger.MarkReceipt | contracts/src/Teleporter/TeleporterMessenger.sol:684-710 | Refines marking one receipt, the overflow check included |
| TeleporterMessenger.Messenger.RecordDelivery | contracts/src/Teleporter/TeleporterMessenger.sol:229-290 | Refines the checks of a delivery, in order, and its record |
| TeleporterMessenger.Messenger.HandleInitialMessageExecution | contracts/src/Teleporter/TeleporterMessenger.sol:725-773 | Refines the first execution with whatever its receiver calls |
| TeleporterMessenger.Messenger.ReceiveCrossChainMessage | contracts/src/Teleporter/TeleporterMessenger.sol:229-336 | Refines a whole delivery: checks, execution, receipts, own receipt last |
| TeleporterMessenger.Messenger.RetryMessageExecution | contracts/src/Teleporter/TeleporterMessenger.sol:353-403 | Refines the retried execution, which reverts as a whole if the receiver fails |
| TeleporterMessenger.Messenger.RedeemRelayerRewards | contracts/src/Teleporter/TeleporterMessenger.sol:471-485 | Refines the redemption: the reward is cleared before it is paid |
| TeleporterMessenger.Messenger.TakeReceipts | contracts/src/Teleporter/TeleporterMessenger.sol:90-102 | Refines taking a batch off the storage queue of a chain |
| ReceiptQueue.Enqueue | contracts/src/Teleporter/ReceiptQueue.sol:37-42 | Appends to the FIFO sequence |
| ReceiptQueue.Dequeue | contracts/src/Teleporter/ReceiptQueue.sol:50-58 | Takes the oldest receipt and zeroes its slot, or fails exactly on an empty queue |
| ReceiptQueue.GetOutstandingReceiptsToSend | contracts/src/Teleporter/ReceiptQueue.sol:63-76 | The loop splits the sequence into a batch of exactly the smaller of five and its length, and the rest |
| ReceiptQueue.Size | contracts/src/Teleporter/ReceiptQueue.sol:81-85 | The length of the sequence |
| ReceiptQueue.GetReceiptAtIndex | contracts/src/Teleporter/ReceiptQueue.sol:90-96 | The element at that position of the sequence, or a revert beyond it |
| ReentrancyGuards.ReentrancyGuarded.Run | contracts/src/Teleporter/ReentrancyGuards.sol:21-56 | Whatever tree of calls a function makes and whether it reverts, it leaves both guards as it found them, enters exactly if its guard is free, and runs the bodies its trace says |
| ReentrancyGuards.TraceBounded | contracts/src/Teleporter/ReentrancyGuards.sol:29-50 | In any call tree, at every moment at most one frame of a kind is active, none if its guard was taken before |
| ReentrancyGuards.GuardsAreFrames | contracts/src/Teleporter/ReentrancyGuards.sol:29-50 | In any call tree a call is turned away if and only if a frame of its own kind is running: the two flags do what the list of running frames would |
| ReentrancyGuards.AtMostOneOfEachKind | contracts/src/Teleporter/ReentrancyGuards.sol:8-15 | At any moment of any top-level call at most one sending and one receiving function are active |
| ReentrancyGuards.SendNestsInReceive | contracts/src/Teleporter/ReentrancyGuards.sol:8-15 | A send may run inside a delivery, and a delivery inside that send is turned away |
| MessageCodec.RoundTrip | abi-bindings/go/Teleporter/TeleporterMessenger/packing.go:37-68 | Decoding inverts encoding for every message that fits in memory |
| MessageCodec.RoundTripWithSuffix | contracts/src/Teleporter/TeleporterMessenger.sol:263-266 | Bytes behind an encoding do not change what is decoded |
| MessageCodec.FieldsInPlace | abi-bindings/go/Teleporter/TeleporterMessenger/packing.go:15-45 | The byte position of every field, array element, length and offset in the encoding, the payload and its zero padding, as the Contract ABI Specification has them |
| Words.FirstByteCountsMost | abi-bindings/go/Teleporter/TeleporterMessenger/packing.go:37-45 | Words are written and read with the most significant byte first |
| MessageCodec.EncodeInjective | contracts/src/Teleporter/TeleporterMessenger.sol:126-133 | Different messages have different encodings, hence different hashes |
| MessageCodec.EncodeIsCanonical | abi-bindings/go/Teleporter/TeleporterMessenger/packing.go:37-45 | The encoder lays out offsets, lengths and zero padding in the strict way |
| MessageCodec.ReencodeIffCanonical | contracts/src/Teleporter/TeleporterMessenger.sol:263-266 | For every byte string that the contract's decoder takes, encoding inverts decoding if and only if the string has the strict layout, a check on the bytes alone |
| MessageCodec.ReencodeMayDiffer | contracts/src/Teleporter/TeleporterMessenger.sol:263-266 | One byte behind any encoding decodes to the same message and is not its encoding |
| NativeTokenBridge.CollateralCoversAll | contracts/src/CrossChainApplications/NativeTokenBridge/README.md:27-36 | In every run, once the imbalance is zero, collateral plus reported burns covers all unlocks under way plus all fees burned by now |
| NativeTokenBridge.FailsIffReportExceeds | contracts/src/CrossChainApplications/NativeTokenBridge/NativeTokenSource.sol:76-118 | In every run a message to the source fails if and only if it is a report of more than the source has burned and still holds; none fails once collateralized, and no unlock ever fails |
| NativeTokenBridge.EarlyReportFails | contracts/src/CrossChainApplications/NativeTokenBridge/ERC20TokenSource.sol:217-223 | A run with a report that fails before collateralization; the message stays and can be tried again |
| NativeTokenBridge.ArrivalFailsIff | contracts/src/CrossChainApplications/NativeTokenBridge/NativeTokenDestination.sol:120-157 | In every run a transfer fails at the destination if and only if its amount is zero or the minted total would exceed 256 bits |
| NativeTokenBridge.CollectIff | contracts/src/CrossChainApplications/NativeTokenBridge/NativeTokenDestination.sol:117-157 | Exactly which messages the destination takes, in any state |
| NativeTokenBridge.HandleIff | contracts/src/CrossChainApplications/NativeTokenBridge/ERC20TokenSource.sol:105-124 | Exactly which messages the source takes, in any state |
| NativeTokenBridge.TransferToSourceIff | contracts/src/CrossChainApplications/NativeTokenBridge/NativeTokenDestination.sol:162-217 | A transfer commits if and only if it has a recipient, the bridge is collateralized and the value circulates; just the value is burned, and just the value is to be unlocked, for the same recipient |
| NativeTokenBridge.ReportNamesAllBurned | contracts/src/CrossChainApplications/NativeTokenBridge/NativeTokenDestination.sol:222-245 | A report carries exactly the balance of the fee burn address and changes nothing |
| NativeTokenBridge.LockAnnounces | contracts/src/CrossChainApplications/NativeTokenBridge/ERC20TokenSource.sol:129-186 | What is locked is what is announced, for the same recipient |
| NativeTokenBridge.SettlePays | contracts/src/CrossChainApplications/NativeTokenBridge/NativeTokenSource.sol:172-207 | An executed unlock takes just its amount out of collateral, and an executed report just what it adds to the highest one |
| NativeTokenBridge.ZeroLockIsNeverPaid | contracts/src/CrossChainApplications/NativeTokenBridge/NativeTokenSource.sol:123-167 | A run that locks nothing, and whose message stays under way through every continuation |
| NativeTokenBridge.ZeroTransferStays | contracts/src/CrossChainApplications/NativeTokenBridge/NativeTokenDestination.sol:128-128 | No run from any state executes a transfer of nothing |
| NativeTokenBridge.SupplyIsCirculation | contracts/src/CrossChainApplications/NativeTokenBridge/NativeTokenDestination.sol:257-263 | In every run totalSupply() is exactly what circulates, and reverts exactly if genesis and minted tokens together exceed 256 bits |
| NativeTokenBridge.CollectClosedForm | contracts/src/CrossChainApplications/NativeTokenBridge/NativeTokenDestination.sol:130-157 | After any list of accepted transfers imbalance and minted total depend on their sum alone: max(initial - sum, 0) and max(sum - initial, 0) |
| NativeTokenBridge.ReportsAreConfluent | contracts/src/CrossChainApplications/NativeTokenBridge/ERC20TokenSource.sol:217-223 | From any state of the source, reports in any order and repeated all succeed if and only if what is burned and held covers the highest, and burn exactly what the highest adds |
| NativeTokenBridge.NextKeepsInv | contracts/src/CrossChainApplications/NativeTokenBridge/README.md:27-36 | Every step on either chain keeps the books of both: locked, held, paid out, burned, under way, minted, circulating |
| NativeTokenBridge.RunInv | contracts/src/CrossChainApplications/NativeTokenBridge/README.md:27-36 | After every run from any initial imbalance the books of both sides hold; what was burned for transfers is exactly what was to be unlocked, plus what others sent to that address |
| NativeTokenFees.ReportPaysFromExcess | contracts/src/CrossChainApplications/NativeTokenBridge/NativeTokenDestination.sol:222-245 | In every run a burn report can pay exactly what transfers collected beyond their own fees and no report has paid yet, or the whole balance once the allowance is unlimited |
| NativeTokenFees.ExactFeesRefuseReports | contracts/src/CrossChainApplications/NativeTokenBridge/NativeTokenDestination.sol:222-245 | With tokens that deliver what they are asked for, less than 2^256-1, no run ends in a state where a report with a fee commits |
| NativeTokenFees.ExactFeesLeaveNothing | contracts/src/CrossChainApplications/NativeTokenBridge/NativeTokenDestination.sol:181-192 | Then every transfer uses up the allowance it grants |
| NativeTokenFees.TransferPaysIff | contracts/src/CrossChainApplications/NativeTokenBridge/NativeTokenDestination.sol:182-217 | In every run a transfer can pay its fee if and only if what comes in, and what was left over, cover it and the allowance is not unlimited |
| NativeTokenFees.RunIsSound | contracts/src/CrossChainApplications/NativeTokenBridge/NativeTokenDestination.sol:182-245 | In every run the balance is what was collected and given and not paid, and the allowance what was collected and not paid, as long as it is not unlimited |
| NativeTokenFees.FeeReportFails | contracts/src/CrossChainApplications/NativeTokenBridge/NativeTokenDestination.sol:222-245 | A run in which a report with a fee fails |
| NativeTokenFees.ExcessPaysReport | contracts/src/CrossChainApplications/NativeTokenBridge/NativeTokenDestination.sol:222-245 | A run in which a token that delivers more than asked lets one commit, for exactly the excess |
| NativeTokenFees.LargestFeePaysReport | contracts/src/CrossChainApplications/NativeTokenBridge/NativeTokenDestination.sol:222-245 | A run in which the largest fee there is leaves an unlimited allowance behind |
| NativeTokenContracts.NativeTokenDestination.ReceiveTeleporterMessage | contracts/src/CrossChainApplications/NativeTokenBridge/NativeTokenDestination.sol:98-157 | Refines paying down the imbalance and minting the rest, for the partner only; a failure leaves no trace |
| NativeTokenContracts.NativeTokenDestination.TransferToSource | contracts/src/CrossChainApplications/NativeTokenBridge/NativeTokenDestination.sol:162-217 | Refines the burn that precedes an unlock message, refused until collateralized, and the fee: collected, granted to Teleporter, taken; a failure leaves no trace |
| NativeTokenContracts.ERC20TokenSource.TransferToDestination | contracts/src/CrossChainApplications/NativeTokenBridge/ERC20TokenSource.sol:129-186 | Locks what was received less the fee, announces exactly the amount locked, and refuses a fee that takes all |
| NativeTokenContracts.ERC20TokenSource.ReceiveTeleporterMessage | contracts/src/CrossChainApplications/NativeTokenBridge/ERC20TokenSource.sol:82-124 | Refines unlocks and burn reports, for the partner only |
| NativeTokenContracts.ERC20TokenSource.UnlockTokens | contracts/src/CrossChainApplications/NativeTokenBridge/ERC20TokenSource.sol:191-200 | Pays out exactly the amount, or fails exactly for a zero recipient or too little collateral |
| NativeTokenContracts.ERC20TokenSource.HandleBurnTokens | contracts/src/CrossChainApplications/NativeTokenBridge/ERC20TokenSource.sol:205-223 | Burns exactly the increase over the highest total reported, nothing for an older report |
| NativeTokenContracts.NativeTokenSource.TransferToDestination | contracts/src/CrossChainApplications/NativeTokenBridge/NativeTokenSource.sol:123-167 | Locks and announces the whole value, even a zero one, with the fee collected, granted and taken |
| NativeTokenContracts.NativeTokenSource.ReceiveTeleporterMessage | contracts/src/CrossChainApplications/NativeTokenBridge/NativeTokenSource.sol:76-118 | Refines unlocks, which the recipient may refuse, and burn reports |
| BridgeToken.TransferIsExact | abi-bindings/go/CrossChainApplications/ERC20Bridge/BridgeToken/BridgeToken.go:34-35 | The unchecked balance additions of a transfer never wrap: each account changes by exactly what it pays and gets, self-transfers included, and the sum of balances stays the supply |
| BridgeToken.MintIsExact | contracts/src/CrossChainApplications/ERC20Bridge/BridgeToken.sol:55-58 | A mint raises the supply and that one balance by exactly the amount |
| BridgeToken.BurnIsExact | abi-bindings/go/CrossChainApplications/ERC20Bridge/BridgeToken/BridgeToken.go:34-35 | A burn lowers the supply and that one balance by exactly the amount |
| BridgeToken.CallEffect | abi-bindings/go/CrossChainApplications/ERC20Bridge/BridgeToken/BridgeToken.go:34-35 | For every call: which balance falls, which rises and by how much, and what each allowance of each owner is afterwards |
| BridgeToken.CallCommitsIff | abi-bindings/go/CrossChainApplications/ERC20Bridge/BridgeToken/BridgeToken.go:34-35 | For every call the exact condition: no zero address, a sufficient balance and allowance, and an allowance that stays within a word |
| BridgeToken.ApplyKeepsInv | abi-bindings/go/CrossChainApplications/ERC20Bridge/BridgeToken/BridgeToken.go:34-35 | Any call of any caller, unlimited allowances included, keeps the sum of balances equal to the supply and changes the supply only by what it burns |
| BridgeToken.BalanceFallsByConsent | abi-bindings/go/CrossChainApplications/ERC20Bridge/BridgeToken/BridgeToken.go:34-35 | No call of someone else lowers a balance beyond the allowance given to the caller, which falls by as much unless unlimited |
| BridgeToken.Token.MoveBalance | abi-bindings/go/CrossChainApplications/ERC20Bridge/BridgeToken/BridgeToken.go:34-35 | Refines a transfer |
| BridgeToken.Token.ApproveSpender | abi-bindings/go/CrossChainApplications/ERC20Bridge/BridgeToken/BridgeToken.go:34-35 | Refines approve |
| BridgeToken.Token.RaiseAllowance | abi-bindings/go/CrossChainApplications/ERC20Bridge/BridgeToken/BridgeToken.go:34-35 | Refines increaseAllowance, which must not overflow |
| BridgeToken.Token.LowerAllowance | abi-bindings/go/CrossChainApplications/ERC20Bridge/BridgeToken/BridgeToken.go:34-35 | Refines decreaseAllowance, which must not go below zero |
| BridgeToken.Token.Spend | abi-bindings/go/CrossChainApplications/ERC20Bridge/BridgeToken/BridgeToken.go:34-35 | Refines spending an allowance, an unlimited one staying as it is |
| BridgeToken.Token.TransferTokensFrom | abi-bindings/go/CrossChainApplications/ERC20Bridge/BridgeToken/BridgeToken.go:34-35 | Refines transferFrom; if the transfer fails the allowance is restored |
| BridgeToken.Token.MintTokens | contracts/src/CrossChainApplications/ERC20Bridge/BridgeToken.sol:55-58 | Only the bridge that deployed the token can mint |
| BridgeToken.Token.BurnTokens | abi-bindings/go/CrossChainApplications/ERC20Bridge/BridgeToken/BridgeToken.go:34-35 | Refines a burn of one's own tokens |
| BridgeToken.Token.BurnTokensFrom | abi-bindings/go/CrossChainApplications/ERC20Bridge/BridgeToken/BridgeToken.go:34-35 | Refines burnFrom; if the burn fails the allowance is restored |
| ERC20BridgeNetwork.LaneConservation | contracts/src/CrossChainApplications/ERC20Bridge/ERC20Bridge.sol:45-66 | In every reachable network the balance kept for a lane is wrapped supply plus wrapped tokens burned by holders plus mints under way plus returns under way |
| ERC20BridgeNetwork.CustodyCoversLanes | contracts/src/CrossChainApplications/ERC20Bridge/ERC20Bridge.sol:475-535 | In every reachable network an instance holds, in every token, what all other bridges together may send back, hops and fees included |
| ERC20BridgeNetwork.ReturnExecutesIff | contracts/src/CrossChainApplications/ERC20Bridge/ERC20Bridge.sol:475-535 | In every reachable network a return under way between instances can be executed if and only if it stays there, goes on without a fee, or meets an allowance of Teleporter below the largest: lane and balance always suffice, and a hop never subtracts more fee than it has |
| ERC20BridgeNetwork.ReturnNeverFails | contracts/src/CrossChainApplications/ERC20Bridge/ERC20Bridge.sol:475-535 | In every run in which an instance never holds 2^256-1 of a token, and no announcement pays as much, every return in it can be executed |
| ERC20BridgeNetwork.ScarceGrantsNothing | contracts/src/CrossChainApplications/ERC20Bridge/ERC20Bridge.sol:571-577 | In such a run every allowance that the instance grants is used up at once |
| ERC20BridgeNetwork.RunGrants | contracts/src/CrossChainApplications/ERC20Bridge/ERC20Bridge.sol:571-577 | In every run Teleporter's allowance in any token is zero or unlimited between calls |
| ERC20BridgeNetwork.MintNeverFails | contracts/src/CrossChainApplications/ERC20Bridge/ERC20Bridge.sol:441-466 | A mint under way can be executed if and only if its wrapped token exists: the supply cannot overflow |
| ERC20BridgeEffects.SubmittedIffAnnounced | contracts/src/CrossChainApplications/ERC20Bridge/ERC20Bridge.sol:188-248 | In every run a token may go to another bridge if and only if an announcement of just this token to just this bridge committed before |
| ERC20BridgeEffects.NativeSendIff | contracts/src/CrossChainApplications/ERC20Bridge/ERC20Bridge.sol:92-176 | In every reachable network bridgeTokens of a native token commits if and only if it was announced, the route is valid, what comes in exceeds the fee and fits the balance, and the fee can be granted |
| ERC20BridgeEffects.WrappedSendIff | contracts/src/CrossChainApplications/ERC20Bridge/ERC20Bridge.sol:623-709 | bridgeTokens of a wrapped token commits if and only if the route is valid, the fees leave something of the total, and the caller has the total and has allowed the bridge to take it |
| ERC20BridgeEffects.SubmitCommitsIff | contracts/src/CrossChainApplications/ERC20Bridge/ERC20Bridge.sol:188-248 | An announcement commits if and only if the other bridge has an address and the fee can be paid; who pays it and who has it then |
| ERC20BridgeEffects.FeePaidIff | contracts/src/CrossChainApplications/ERC20Bridge/ERC20Bridge.sol:623-650 | When a fee in a wrapped token can be paid, and what it leaves of the caller's allowance |
| ERC20BridgeEffects.UseChangesLedger | abi-bindings/go/CrossChainApplications/ERC20Bridge/BridgeToken/BridgeToken.go:34-35 | What holders do with a wrapped token changes its ledger alone, and what leaves the supply is counted as burned |
| ERC20BridgeEffects.CreationIff | contracts/src/CrossChainApplications/ERC20Bridge/ERC20Bridge.sol:393-431 | A wrapped token is created if and only if none wraps the asset yet and the asset is valid; it wraps just this asset and nobody holds any of it |
| ERC20BridgeHops.UnannouncedMintWaits | contracts/src/CrossChainApplications/ERC20Bridge/ERC20Bridge.sol:441-466 | In every run from any state, a mint whose token its bridge does not know stays under way as long as the token is not created |
| ERC20BridgeHops.HopIsReachable | contracts/src/CrossChainApplications/ERC20Bridge/ERC20Bridge.sol:475-535 | A run of three bridges in which a hop sends on to a chain that the token was not announced to |
| ERC20BridgeHops.UnannouncedHopWaits | contracts/src/CrossChainApplications/ERC20Bridge/ERC20Bridge.sol:475-535 | Its mint fails in every continuation that does not create the token |
| ERC20BridgeHops.HopArrivesOnceAnnounced | contracts/src/CrossChainApplications/ERC20Bridge/ERC20Bridge.sol:188-248 | Announced late, the token is minted after all |
| ERC20BridgeHops.LargestFeeStopsHops | contracts/src/CrossChainApplications/ERC20Bridge/ERC20Bridge.sol:188-248 | A run whose announcement pays the largest fee there is, after which a hop with a fee fails in every continuation |
| ERC20BridgeHops.StuckReturnStays | contracts/src/CrossChainApplications/ERC20Bridge/ERC20Bridge.sol:571-577 | From any state, a return that goes on with a fee and meets an unlimited allowance can never be executed |
| ERC20BridgeNetwork.ReturnKeepsInv | contracts/src/CrossChainApplications/ERC20Bridge/ERC20Bridge.sol:475-535 | On any sound instance, the exact condition for executing a return, the grant of its fee to Teleporter included; it debits its lane in full and pays out or goes on, and a hop goes on with what the fee leaves |
| ERC20BridgeNetwork.NativeKeepsInv | contracts/src/CrossChainApplications/ERC20Bridge/ERC20Bridge.sol:548-614 | With the tokens in custody a native transfer fails only for a wrapped token, the own chain, too high a fee or one that cannot be granted; no lane overflows |
| ERC20BridgeNetwork.SendKeepsInv | contracts/src/CrossChainApplications/ERC20Bridge/ERC20Bridge.sol:92-176 | A user transfer keeps the instance sound, moves exactly what its message says, and leaves a hop fee below its amount |
| ERC20BridgeNetwork.FeeKeepsSupply | contracts/src/CrossChainApplications/ERC20Bridge/ERC20Bridge.sol:623-650 | Passing the primary fee through the instance to Teleporter leaves the supply alone |
| ERC20BridgeNetwork.WrappedMoves | contracts/src/CrossChainApplications/ERC20Bridge/ERC20Bridge.sol:623-709 | Sending wrapped tokens back lowers the outstanding amount of that asset alone by what the message carries |
| ERC20BridgeNetwork.CreateKeepsInv | contracts/src/CrossChainApplications/ERC20Bridge/ERC20Bridge.sol:393-431 | A new wrapped token starts with nothing outstanding, and one asset never has two |
| ERC20BridgeNetwork.SubmitMoves | contracts/src/CrossChainApplications/ERC20Bridge/ERC20Bridge.sol:188-248 | An announcement moves no lane and leaves custody covered, in whatever token its fee is paid |
| ERC20BridgeNetwork.MintKeepsInv | contracts/src/CrossChainApplications/ERC20Bridge/ERC20Bridge.sol:441-466 | A mint raises the outstanding amount of its asset alone by what the message carried |
| ERC20BridgeNetwork.UseKeepsInv | abi-bindings/go/CrossChainApplications/ERC20Bridge/BridgeToken/BridgeToken.go:34-35 | What holders do with wrapped tokens moves no lane: direct burns are counted |
| ERC20BridgeNetwork.ReceiveKeepsInv | contracts/src/CrossChainApplications/ERC20Bridge/ERC20Bridge.sol:318-383 | Executing any message of any sender keeps the instance sound and moves exactly what the messages in and out say |
| ERC20BridgeNetwork.MovesConserve | contracts/src/CrossChainApplications/ERC20Bridge/ERC20Bridge.sol:45-66 | A call that moves what its messages say conserves every lane between every two instances |
| ERC20BridgeNetwork.NextKeepsInv | contracts/src/CrossChainApplications/ERC20Bridge/ERC20Bridge.sol:45-66 | Every step keeps all lanes conserved, all custody covered and all messages well-formed |
| ERC20BridgeNetwork.RunInv | contracts/src/CrossChainApplications/ERC20Bridge/ERC20Bridge.sol:45-66 | So does every run from new instances |
| BridgePools.ERC20RunIsPoolRun | contracts/src/CrossChainApplications/ERC20Bridge/ERC20Bridge.sol:318-383 | Every run of these bridges is a run of the same kind of pool of messages as every run of Teleporter |
| BridgePools.NativeRunIsPoolRun | contracts/src/CrossChainApplications/NativeTokenBridge/NativeTokenDestination.sol:98-157 | And so is every run of the native token bridge |
| ERC20BridgeTransfers.BridgedArrives | contracts/src/CrossChainApplications/ERC20Bridge/ERC20Bridge.sol:92-176 | From the call on the native chain to the mint: the recipient, and no other holder, gets what was received less the fee; custody and lane grow by as much |
| ERC20BridgeTransfers.HopArrives | contracts/src/CrossChainApplications/ERC20Bridge/ERC20Bridge.sol:475-535 | Over three chains: the recipient on the third gets the total less both fees, the lanes change by what their chains hold, and the second fee comes out of custody |
| ERC20BridgeTransfers.ReturnArrives | contracts/src/CrossChainApplications/ERC20Bridge/ERC20Bridge.sol:475-535 | Over two chains: the recipient, and nobody else, is paid the total less the primary fee, by which the lane falls, and custody too unless the instance pays itself |
| ERC20BridgeTransfers.WrappedLeaves | contracts/src/CrossChainApplications/ERC20Bridge/ERC20Bridge.sol:623-709 | The caller pays exactly the total in wrapped tokens, Teleporter gets the primary fee, the rest is burned, nobody else is touched |
| ERC20BridgeTransfers.MintArrives | contracts/src/CrossChainApplications/ERC20Bridge/ERC20Bridge.sol:441-466 | Executing a mint changes the recipient's balance in the wrapped token of that asset alone |
| ERC20BridgeTransfers.FeeReachesTeleporter | contracts/src/CrossChainApplications/ERC20Bridge/ERC20Bridge.sol:623-650 | The primary fee moves from the caller to Teleporter through the instance, which keeps nothing of it |
| ERC20BridgeContract.Contract.InvokeBridgeTokens | contracts/src/CrossChainApplications/ERC20Bridge/ERC20Bridge.sol:92-176 | Refines bridgeTokens; where it reverts all storage is restored |
| ERC20BridgeContract.Contract.ProcessNativeTokenTransfer | contracts/src/CrossChainApplications/ERC20Bridge/ERC20Bridge.sol:548-614 | Refines the native path: the allowance raised with a check, the lane credited, the fee taken out of balance and allowance |
| ERC20BridgeContract.Contract.ProcessWrappedTokenTransfer | contracts/src/CrossChainApplications/ERC20Bridge/ERC20Bridge.sol:623-709 | Refines the wrapped path |
| ERC20BridgeContract.Contract.SubmitCreate | contracts/src/CrossChainApplications/ERC20Bridge/ERC20Bridge.sol:188-248 | Refines the announcement of a token to another bridge, the fee in a wrapped or a native token included; a failure leaves no trace |
| ERC20BridgeContract.Contract.ReceiveTeleporterMessage | contracts/src/CrossChainApplications/ERC20Bridge/ERC20Bridge.sol:318-383 | Refines creating, minting and returning; where it reverts all storage is restored |
| ERC20BridgeContract.Contract.CreateToken | contracts/src/CrossChainApplications/ERC20Bridge/ERC20Bridge.sol:393-431 | Refines creating a wrapped token |
| ERC20BridgeContract.Contract.MintBridged | contracts/src/CrossChainApplications/ERC20Bridge/ERC20Bridge.sol:441-466 | Refines minting |
| ERC20BridgeContract.Contract.TransferBridged | contracts/src/CrossChainApplications/ERC20Bridge/ERC20Bridge.sol:475-535 | Refines a return: pay out here or go on to a third chain |
| GasLimit.CalculateReceiveMessageGasLimit | utils/gas-utils/gas_utils.go:24-46 | The loop returns the exact sum of the four parts if and only if the required limit and the sum fit 64 bits |
| GasLimit.SignersGasIsExact | utils/gas-utils/gas_utils.go:32-32 | The product for the signers is exact if and only if their number is between 0 and (2^64-1)/1000 |
| GasLimit.SignersGasWraps | utils/gas-utils/gas_utils.go:32-32 | One signer more wraps the product to 384 |
| GasLimit.LeastGasLimit | utils/gas-utils/gas_utils.go:10-14 | One signer and no required gas make 2101000 |
| GasLimit.Add64 | utils/gas-utils/gas_utils.go:39-42 | The sum, or an error exactly on overflow |
| LogIterator.Iterator.Next | abi-bindings/go/Teleporter/TeleporterMessenger/TeleporterMessenger.go:865-902 | Delivers the logs in order, and exactly says when one is taken, when it is delivered, when the iterator fails, which is for good, and when it is done; it ends without error only when all are delivered; its measure is the flag done, so it calls itself once at most |
| EventUnpacking.UnpackRestores | abi-bindings/go/Teleporter/TeleporterMessenger/packing.go:129-147 | Unpacking the log of any event, split into topics and data, restores every field and leaves the rest of the output alone |
| EventUnpacking.UnpackTakesIff | abi-bindings/go/Teleporter/TeleporterMessenger/packing.go:129-147 | A log is taken if and only if it has a topic for each indexed input and a signature, and no data or a value for each other input |
| EventUnpacking.MissingDataGoUnnoticed | abi-bindings/go/Teleporter/TeleporterMessenger/packing.go:134-138 | A log with its data missing is taken, and the fields in the data keep what the output held |
| EventUnpacking.UnpackEvent | abi-bindings/go/Teleporter/TeleporterMessenger/packing.go:129-147 | The loop over the inputs refines the specified unpacking |
| TeleporterCalls.SendCarriesOldestReceipts | contracts/src/Teleporter/TeleporterMessenger.sol:90-102 | The message sent is the one the caller asked for, under the next id, and carries the oldest queued receipts in order, exactly the smaller of five and the queue size, and the rest stays queued |
| TeleporterNetwork.BatchOfFive | contracts/src/Teleporter/ReceiptQueue.sol:30-31 | A batch is all there is up to five receipts, and five of more |
| TeleporterCalls.SpecifiedReceiptsSent | contracts/src/Teleporter/TeleporterMessenger.sol:422-462 | Receipts are sent only if all ids were received, true ones, in the order asked for, in an empty message to the zero address; the queue is not touched |
| TeleporterCalls.GuardsExclude | contracts/src/Teleporter/ReentrancyGuards.sol:29-50 | While a sending function runs every sending call changes nothing, and likewise for receiving functions |
| NativeTokenBridge.CollateralizedForGood | contracts/src/CrossChainApplications/NativeTokenBridge/NativeTokenDestination.sol:98-157 | No run raises the reserve imbalance |

## Left out

- ReceiptQueue.Enqueue: does not model 256-bit wrap-around of the queue indices, because one is used per delivered message.
- LogIterator.Iterator.Next: does not model what unpacking a log yields, only whether it succeeds.
- EventUnpacking.UnpackEvent: does not model the bytes of the values or which ones the go-ethereum ABI library refuses, because that library is not part of this model.
- MessageCodec.ReencodeIffCanonical: does not hold of that library's decoder, which is laxer about addresses than the contract's.
- ERC20BridgeContract.Contract.CreateToken: does not model deployment or the name, symbol and decimals; wrapped tokens are kept as ledgers, so aliasing between token contracts is not captured.
- The emission of events.
- The difference between the compiler's calldata and memory encoders: both are the one `Encode`.
- ABI bytes of the bridges' payloads, which are values here, and the bridges' own reentrancy guards, since their tokens do not call back.
- Calls back from fee tokens into TeleporterMessenger's books; `ReentrancyGuards` shows only which functions they can reach.
- Go call wrappers, deployment, the command line tool, Warp signing, gas metering.
- TeleporterRegistry, upgrades, owners and pausing.
- The example messenger and the block hash publisher, whose claims would be easy.
