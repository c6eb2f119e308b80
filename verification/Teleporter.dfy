// What each call of TeleporterMessenger does, as a function from the state before
// to the state after; None is a revert. Calls that the receiver of a delivered
// message makes while it runs are part of the delivering call.
module Teleporter {
  import opened Words
  import opened MessageCodec
  import ReceiptQueue

  // Keccak-256, taken to be injective and never zero.
  datatype Hash = Keccak(preimage: Bytes)

  // A message is known by the other chain and its id: the destination chain for
  // the messages sent from here, the source chain for the messages received here.
  datatype Key = Key(chain: Word, id: Word)

  datatype Fee = Fee(token: Address, amount: Word)
  datatype SentInfo = SentInfo(hash: Hash, fee: Fee)
  datatype Account = Account(relayer: Address, token: Address)
  datatype WarpMessage = WarpMessage(source: Word, sender: Address, payload: Bytes)

  datatype MessageInput = MessageInput(
    destinationBlockchainID: Word,
    destinationAddress: Address,
    fee: Fee,
    requiredGasLimit: Word,
    allowedRelayerAddresses: seq<Address>,
    message: Bytes)

  // How the fee token answers transferFrom: it refuses, or the contract's balance grows.
  datatype Pull = Refused | Received(amount: Word)

  // History, for stating properties: what was received in fees for a message, by the
  // send and by all additions to it; who was credited how much for which message; which
  // message was delivered by whom; and for each message that took its receipts from the
  // queue, how many receipts had ever been put there.
  datatype Paid = Paid(token: Address, total: nat)
  datatype Credit = Credit(key: Key, relayer: Address, fee: Fee)
  datatype Delivery = Delivery(message: Message, deliverer: Address)

  datatype State = State(
    // storage of the contract; a missing key of a mapping is zero
    sending: bool,
    receiving: bool,
    blockchainID: Word,
    latest: map<Word, Word>,
    queues: map<Word, seq<Receipt>>,
    sent: map<Key, SentInfo>,
    failed: map<Key, Hash>,
    relayers: map<Key, Address>,
    rewards: map<Account, Word>,
    // what the contract owns in each token, and the payloads it gave to Warp
    balances: map<Address, Word>,
    warpLog: seq<Bytes>,
    // history
    messages: map<Key, Message>,
    fees: map<Key, Paid>,
    credits: seq<Credit>,
    redeemed: map<Account, nat>,
    donated: map<Address, nat>,
    deliveries: map<Key, Delivery>,
    executed: seq<Key>,
    enqueued: map<Word, seq<Receipt>>,
    drained: map<Word, seq<Receipt>>,
    automatic: map<Key, nat>)

  const INITIAL: State :=
    State(false, false, 0, map[], map[], map[], map[], map[], map[], map[], [],
          map[], map[], [], map[], map[], map[], [], map[], map[], map[])

  // The chain that the call runs on, the contract's address (the same on every
  // chain), and the Warp messages that the validators have signed.
  datatype Env = Env(chain: Word, teleporter: Address, signed: set<WarpMessage>)

  datatype Call =
    | SendMessage(caller: Address, input: MessageInput, pull: Pull)
    | RetrySend(destination: Word, message: Message)
    | AddFee(destination: Word, id: Word, token: Address, amount: Word, pull: Pull)
    | SendReceipts(caller: Address, origin: Word, ids: seq<Word>, fee: Fee,
                   allowedRelayerAddresses: seq<Address>, pull: Pull)
    | Receive(deliverer: Address, warp: WarpMessage, rewardAddress: Address,
              enoughGas: bool, callee: Callee)
    | RetryExecution(origin: Word, message: Message, callee: Callee)
    | Redeem(caller: Address, token: Address)
    | Donate(token: Address, amount: Word)

  // The destination of a message: no contract there, or one that makes these calls
  // back into TeleporterMessenger, going on after those that revert, and then
  // returns normally or reverts.
  datatype Callee = NoCode | Contract(calls: seq<Call>, succeeds: bool)

  function ListAt(m: map<Word, seq<Receipt>>, k: Word): seq<Receipt> {
    if k in m then m[k] else []
  }

  function TotalAt<K>(m: map<K, nat>, k: K): nat {
    if k in m then m[k] else 0
  }

  // ---------- sending ----------

  // None where memory for the encoding cannot be allocated.
  function BuildMessage(id: Word, sender: Address, input: MessageInput, receipts: seq<Receipt>)
    : Option<Message>
  {
    var m := Message(id, sender, input.destinationBlockchainID, input.destinationAddress,
                     input.requiredGasLimit, input.allowedRelayerAddresses, receipts, input.message);
    if Size(m) <= MAX_UINT64 then Some(m) else None
  }

  // safeTransferFrom: the balances after the transfer, and by how much ours grew.
  function TransferIn(balances: map<Address, Word>, token: Address, pull: Pull)
    : Option<(map<Address, Word>, Word)>
  {
    match pull
    case Refused => None
    case Received(amount) =>
      var balance := Lookup(balances, token);
      if amount == 0 || balance + amount > MAX_WORD then None
      else Some((balances[token := balance + amount], amount))
  }

  function ChargeFee(balances: map<Address, Word>, fee: Fee, pull: Pull)
    : Option<(map<Address, Word>, Word)>
  {
    if fee.amount == 0 then Some((balances, 0))
    else if fee.token == 0 then None
    else TransferIn(balances, fee.token, pull)
  }

  function Send(s: State, sender: Address, input: MessageInput, receipts: seq<Receipt>, pull: Pull)
    : Option<State>
  {
    var chain := input.destinationBlockchainID;
    if Lookup(s.latest, chain) == MAX_WORD then None
    else
      var id := Lookup(s.latest, chain) + 1;
      match (BuildMessage(id, sender, input, receipts), ChargeFee(s.balances, input.fee, pull))
      case (Some(m), Some((balances, received))) =>
        var key, fee := Key(chain, id), Fee(input.fee.token, received);
        Some(s.(latest := s.latest[chain := id],
                balances := balances,
                sent := s.sent[key := SentInfo(Keccak(Encode(m)), fee)],
                warpLog := s.warpLog + [Encode(m)],
                messages := s.messages[key := m],
                fees := s.fees[key := Paid(input.fee.token, received)]))
      case _ => None
  }

  function BatchSize(n: nat): nat {
    ReceiptQueue.Min(ReceiptQueue.MAXIMUM_RECEIPT_COUNT, n)
  }

  // The state without the next batch of queued receipts for a chain, and the batch.
  function Drain(s: State, chain: Word): (State, seq<Receipt>) {
    var queue := ListAt(s.queues, chain);
    var n := BatchSize(|queue|);
    (s.(queues := s.queues[chain := queue[n..]],
        drained := s.drained[chain := ListAt(s.drained, chain) + queue[..n]]),
     queue[..n])
  }

  // The message sent last to a chain took its receipts from the queue.
  function RecordBatch(s: State, chain: Word): State {
    s.(automatic := s.automatic[Key(chain, Lookup(s.latest, chain)) := |ListAt(s.enqueued, chain)|])
  }

  function TrySend(s: State, caller: Address, input: MessageInput, pull: Pull): Option<State> {
    if s.sending then None
    else
      var (drained, receipts) := Drain(s, input.destinationBlockchainID);
      match Send(drained, caller, input, receipts, pull)
      case None => None
      case Some(t) => Some(RecordBatch(t, input.destinationBlockchainID))
  }

  function TryRetrySend(s: State, destination: Word, m: Message): Option<State> {
    var key := Key(destination, m.messageID);
    if s.sending || key !in s.sent || Keccak(Encode(m)) != s.sent[key].hash then None
    else Some(s.(warpLog := s.warpLog + [Encode(m)]))
  }

  // Fees are added to the entry; its history adds them up on its own.
  function AddToFee(s: State, key: Key, received: Word): Option<State>
    requires key in s.sent
  {
    var fee := s.sent[key].fee;
    if fee.amount + received > MAX_WORD then None
    else
      var paid := if key in s.fees then s.fees[key] else Paid(fee.token, 0);
      Some(s.(sent := s.sent[key := SentInfo(s.sent[key].hash, Fee(fee.token, fee.amount + received))],
              fees := s.fees[key := Paid(paid.token, paid.total + received)]))
  }

  function TryAddFee(s: State, key: Key, token: Address, amount: Word, pull: Pull): Option<State> {
    if s.sending || amount == 0 || token == 0 || key !in s.sent || s.sent[key].fee.token != token
    then None
    else
      match TransferIn(s.balances, token, pull)
      case None => None
      case Some((balances, received)) => AddToFee(s.(balances := balances), key, received)
  }

  // The receipts for these messages received from `origin`; None if one was not received.
  function CollectReceipts(relayers: map<Key, Address>, origin: Word, ids: seq<Word>)
    : Option<seq<Receipt>>
  {
    if forall id :: id in ids ==> Key(origin, id) in relayers
    then Some(seq(|ids|, i requires 0 <= i < |ids| => Receipt(ids[i], relayers[Key(origin, ids[i])])))
    else None
  }

  function TrySendReceipts(s: State, caller: Address, origin: Word, ids: seq<Word>, fee: Fee,
                           allowed: seq<Address>, pull: Pull): Option<State>
  {
    if s.sending then None
    else
      match CollectReceipts(s.relayers, origin, ids)
      case None => None
      case Some(receipts) =>
        Send(s, caller, MessageInput(origin, 0, fee, 0, allowed, []), receipts, pull)
  }

  // ---------- receiving ----------

  predicate AllowedRelayer(deliverer: Address, allowed: seq<Address>) {
    allowed == [] || deliverer in allowed
  }

  // The checks of a delivery up to the point where it is recorded.
  function Accept(env: Env, s: State, deliverer: Address, warp: WarpMessage, rewardAddress: Address)
    : Option<(State, Message)>
  {
    if s.receiving || rewardAddress == 0 || warp !in env.signed || warp.sender != env.teleporter
    then None
    else
      var chain := if s.blockchainID == 0 then env.chain else s.blockchainID;
      match Decode(warp.payload)
      case None => None
      case Some(m) =>
        var key := Key(warp.source, m.messageID);
        if m.destinationBlockchainID != chain || key in s.relayers
           || !AllowedRelayer(deliverer, m.allowedRelayerAddresses)
        then None
        else Some((s.(receiving := true,
                      blockchainID := chain,
                      relayers := s.relayers[key := rewardAddress],
                      deliveries := s.deliveries[key := Delivery(m, deliverer)]), m))
  }

  function MarkReceipt(s: State, origin: Word, r: Receipt): Option<State> {
    var key := Key(origin, r.receivedMessageID);
    if key !in s.sent then Some(s)
    else
      var fee := s.sent[key].fee;
      var account := Account(r.relayerRewardAddress, fee.token);
      if Lookup(s.rewards, account) + fee.amount > MAX_WORD then None
      else Some(s.(sent := s.sent - {key},
                   rewards := s.rewards[account := Lookup(s.rewards, account) + fee.amount],
                   credits := s.credits + [Credit(key, r.relayerRewardAddress, fee)]))
  }

  function MarkReceipts(s: State, origin: Word, rs: seq<Receipt>): Option<State>
    decreases |rs|
  {
    if rs == [] then Some(s)
    else
      match MarkReceipt(s, origin, rs[0])
      case None => None
      case Some(t) => MarkReceipts(t, origin, rs[1..])
  }

  function Enqueue(s: State, origin: Word, r: Receipt): State {
    s.(queues := s.queues[origin := ListAt(s.queues, origin) + [r]],
       enqueued := s.enqueued[origin := ListAt(s.enqueued, origin) + [r]])
  }

  function StoreFailed(s: State, origin: Word, m: Message): State {
    s.(failed := s.failed[Key(origin, m.messageID) := Keccak(Encode(m))])
  }

  function Executed(s: State, origin: Word, m: Message): State {
    s.(executed := s.executed + [Key(origin, m.messageID)])
  }

  // What follows the execution of an accepted message: its receipts, its own receipt.
  function Settle(s: State, origin: Word, m: Message, rewardAddress: Address): Option<State> {
    match MarkReceipts(s, origin, m.receipts)
    case None => None
    case Some(t) => Some(Enqueue(t, origin, Receipt(m.messageID, rewardAddress)).(receiving := false))
  }

  // The state in which the receiver of a retried message is called.
  function AcceptRetry(s: State, origin: Word, m: Message): Option<State> {
    var key := Key(origin, m.messageID);
    if s.receiving || key !in s.failed || Keccak(Encode(m)) != s.failed[key] then None
    else Some(s.(receiving := true, failed := s.failed - {key}, executed := s.executed + [key]))
  }

  // ---------- rewards ----------

  function TryRedeem(s: State, account: Account): Option<State> {
    var reward := Lookup(s.rewards, account);
    if reward == 0 || Lookup(s.balances, account.token) < reward then None
    else Some(s.(rewards := s.rewards - {account},
                 balances := s.balances[account.token := Lookup(s.balances, account.token) - reward],
                 redeemed := s.redeemed[account := TotalAt(s.redeemed, account) + reward]))
  }

  function TryDonate(s: State, token: Address, amount: Word): Option<State> {
    if Lookup(s.balances, token) + amount > MAX_WORD then None
    else Some(s.(balances := s.balances[token := Lookup(s.balances, token) + amount],
                 donated := s.donated[token := TotalAt(s.donated, token) + amount]))
  }

  // ---------- calls ----------

  function Try(env: Env, s: State, call: Call): Option<State>
    decreases call, 0
  {
    match call
    case SendMessage(caller, input, pull) => TrySend(s, caller, input, pull)
    case RetrySend(destination, m) => TryRetrySend(s, destination, m)
    case AddFee(destination, id, token, amount, pull) =>
      TryAddFee(s, Key(destination, id), token, amount, pull)
    case SendReceipts(caller, origin, ids, fee, allowed, pull) =>
      TrySendReceipts(s, caller, origin, ids, fee, allowed, pull)
    case Receive(deliverer, warp, rewardAddress, enoughGas, callee) =>
      (match Accept(env, s, deliverer, warp, rewardAddress)
       case None => None
       case Some((accepted, m)) =>
         if m.message == [] then Settle(accepted, warp.source, m, rewardAddress)
         else if !enoughGas then None
         else Settle(Execute(env, accepted, warp.source, m, callee), warp.source, m, rewardAddress))
    case RetryExecution(origin, m, callee) =>
      (match AcceptRetry(s, origin, m)
       case None => None
       case Some(accepted) =>
         if callee.NoCode? || !callee.succeeds then None
         else Some(RunCalls(env, accepted, callee.calls).(receiving := false)))
    case Redeem(caller, token) => TryRedeem(s, Account(caller, token))
    case Donate(token, amount) => TryDonate(s, token, amount)
  }

  // The first execution of an accepted message. What a failing receiver did is undone.
  function Execute(env: Env, s: State, origin: Word, m: Message, callee: Callee): State
    decreases callee
  {
    match callee
    case NoCode => StoreFailed(s, origin, m)
    case Contract(calls, succeeds) =>
      if succeeds then Executed(RunCalls(env, s, calls), origin, m) else StoreFailed(s, origin, m)
  }

  function RunCalls(env: Env, s: State, calls: seq<Call>): State
    decreases calls
  {
    if calls == [] then s else RunCalls(env, Do(env, s, calls[0]), calls[1..])
  }

  // A call that reverts leaves the state as it was.
  function Do(env: Env, s: State, call: Call): State
    decreases call, 1
  {
    match Try(env, s, call)
    case None => s
    case Some(t) => t
  }
}
