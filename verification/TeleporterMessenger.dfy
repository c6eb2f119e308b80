// The contract TeleporterMessenger: storage that its functions update step by step.
// Each function that changes it is proved to do what module Teleporter specifies.
module TeleporterMessenger {
  import opened Words
  import opened MessageCodec
  import ReceiptQueue
  import opened Teleporter

  const NOT_ENTERED: Word := 1
  const ENTERED: Word := 2

  function QueueAt(queues: map<Word, ReceiptQueue.Queue>, chain: Word): ReceiptQueue.Queue {
    if chain in queues then queues[chain] else ReceiptQueue.EMPTY
  }

  ghost predicate ValidQueues(queues: map<Word, ReceiptQueue.Queue>) {
    forall c :: c in queues ==> ReceiptQueue.Valid(queues[c])
  }

  ghost function AllContents(queues: map<Word, ReceiptQueue.Queue>): map<Word, seq<Receipt>>
    requires ValidQueues(queues)
  {
    map c | c in queues :: ReceiptQueue.Contents(queues[c])
  }

  // Updating one queue updates its contents and leaves the others alone.
  lemma ContentsUpdate(queues: map<Word, ReceiptQueue.Queue>, c: Word, q: ReceiptQueue.Queue)
    requires ValidQueues(queues) && ReceiptQueue.Valid(q)
    ensures ValidQueues(queues[c := q])
    ensures AllContents(queues[c := q]) == AllContents(queues)[c := ReceiptQueue.Contents(q)]
    ensures ReceiptQueue.Valid(QueueAt(queues, c))
    ensures ReceiptQueue.Contents(QueueAt(queues, c)) == ListAt(AllContents(queues), c)
  {
    hide ReceiptQueue.Contents;
    assert ReceiptQueue.Contents(ReceiptQueue.EMPTY) == [];
  }

  lemma QueueAtIsValid(queues: map<Word, ReceiptQueue.Queue>, c: Word)
    requires ValidQueues(queues)
    ensures ReceiptQueue.Valid(QueueAt(queues, c))
  {
  }

  lemma GuardedDrain(s: State, c: Word)
    ensures Drain(s, c).0.sending == s.sending
    ensures Drain(s.(sending := true), c) == (Drain(s, c).0.(sending := true), Drain(s, c).1)
  {
  }

  lemma GuardedAddToFee(s: State, key: Key, received: Word)
    requires key in s.sent
    ensures var r, g := AddToFee(s, key, received), AddToFee(s.(sending := true), key, received);
      && (r.Some? <==> g.Some?)
      && (r.Some? ==> r.value.sending == s.sending && g.value == r.value.(sending := true))
  {
    hide Size;
  }

  lemma GuardedSend(s: State, sender: Address, input: MessageInput, rs: seq<Receipt>, pull: Pull)
    ensures var r, g := Send(s, sender, input, rs, pull), Send(s.(sending := true), sender, input, rs, pull);
      && (r.Some? <==> g.Some?)
      && (r.Some? ==> r.value.sending == s.sending && g.value == r.value.(sending := true))
  {
    hide Encode, Size, BuildMessage, ChargeFee;
  }

  // A copy of all storage, which a revert restores.
  datatype Storage = Storage(
    sendEntered: Word, receiveEntered: Word, blockchainID: Word,
    latest: map<Word, Word>, queues: map<Word, ReceiptQueue.Queue>, sent: map<Key, SentInfo>,
    failed: map<Key, Hash>, relayers: map<Key, Address>, rewards: map<Account, Word>,
    balances: map<Address, Word>, warp: seq<Bytes>)

  class Messenger {
    var sendEntered: Word
    var receiveEntered: Word
    var blockchainID: Word
    var latestMessageIDs: map<Word, Word>
    var receiptQueues: map<Word, ReceiptQueue.Queue>
    var sentMessageInfo: map<Key, SentInfo>
    var receivedFailedMessageHashes: map<Key, Hash>
    var relayerRewardAddresses: map<Key, Address>
    var relayerRewardAmounts: map<Account, Word>

    // The contract's balance in each token, and what it gave to the Warp precompile.
    var tokenBalances: map<Address, Word>
    var warpMessages: seq<Bytes>

    // Carries the history of the calls; what it says about storage is not used.
    ghost var history: State

    ghost function Fields(): Storage
      reads this
    {
      Storage(sendEntered, receiveEntered, blockchainID, latestMessageIDs, receiptQueues,
              sentMessageInfo, receivedFailedMessageHashes, relayerRewardAddresses,
              relayerRewardAmounts, tokenBalances, warpMessages)
    }

    ghost predicate Valid()
      reads this
    {
      && sendEntered in {NOT_ENTERED, ENTERED} && receiveEntered in {NOT_ENTERED, ENTERED}
      && ValidQueues(receiptQueues)
    }

    ghost function Current(): State
      reads this
      requires Valid()
    {
      history.(sending := sendEntered == ENTERED,
               receiving := receiveEntered == ENTERED,
               blockchainID := blockchainID,
               latest := latestMessageIDs,
               queues := AllContents(receiptQueues),
               sent := sentMessageInfo,
               failed := receivedFailedMessageHashes,
               relayers := relayerRewardAddresses,
               rewards := relayerRewardAmounts,
               balances := tokenBalances,
               warpLog := warpMessages)
    }

    constructor ()
      ensures Valid() && Current() == INITIAL
    {
      sendEntered, receiveEntered, blockchainID := NOT_ENTERED, NOT_ENTERED, 0;
      latestMessageIDs, receiptQueues, sentMessageInfo := map[], map[], map[];
      receivedFailedMessageHashes, relayerRewardAddresses, relayerRewardAmounts := map[], map[], map[];
      tokenBalances, warpMessages := map[], [];
      history := INITIAL;
    }

    // ---------- sending ----------

    // By how much the balance grew; None where the transfer fails or brings nothing.
    method SafeTransferFrom(token: Address, pull: Pull) returns (r: Option<Word>)
      requires Valid()
      modifies this`tokenBalances
      ensures Valid()
      ensures match TransferIn(old(tokenBalances), token, pull)
              case None => r == None
              case Some((after, received)) => r == Some(received) && tokenBalances == after
    {
      var balanceBefore := Lookup(tokenBalances, token);
      if pull.Received? && balanceBefore + pull.amount <= MAX_WORD {
        tokenBalances := tokenBalances[token := balanceBefore + pull.amount];
      } else {
        return None;
      }
      var balanceAfter := Lookup(tokenBalances, token);
      if balanceAfter <= balanceBefore {
        return None;
      }
      return Some(balanceAfter - balanceBefore);
    }

    // The fee that a send charges: none if its amount is zero.
    method TransferFee(fee: Fee, pull: Pull) returns (r: Option<Word>)
      requires Valid()
      modifies this`tokenBalances
      ensures Valid()
      ensures match ChargeFee(old(tokenBalances), fee, pull)
              case None => r == None
              case Some((after, received)) => r == Some(received) && tokenBalances == after
    {
      if fee.amount == 0 {
        return Some(0);
      }
      if fee.token == 0 {
        return None;
      }
      r := SafeTransferFrom(fee.token, pull);
    }

    method SendTeleporterMessage(sender: Address, input: MessageInput, receipts: seq<Receipt>, pull: Pull)
      returns (r: Option<Word>)
      requires Valid()
      modifies `latestMessageIDs, `tokenBalances, `sentMessageInfo, `warpMessages, `history
      ensures Valid()
      ensures r.Some? <==> Send(old(Current()), sender, input, receipts, pull).Some?
      ensures r.Some? ==> Current() == Send(old(Current()), sender, input, receipts, pull).value
      ensures r.Some? ==> r.value == Lookup(latestMessageIDs, input.destinationBlockchainID)
      ensures sendEntered == old(sendEntered) && receiptQueues == old(receiptQueues)
    {
      hide Encode, Size, AllContents, ValidQueues, ChargeFee, BuildMessage;
      var chain := input.destinationBlockchainID;
      if Lookup(latestMessageIDs, chain) == MAX_WORD {
        return None;
      }
      var messageID := Lookup(latestMessageIDs, chain) + 1;
      var built := BuildMessage(messageID, sender, input, receipts);
      if built.None? {
        return None;
      }
      var message := built.value;
      latestMessageIDs := latestMessageIDs[chain := messageID];
      var adjustedFeeAmount := TransferFee(input.fee, pull);
      if adjustedFeeAmount.None? {
        return None;
      }
      StoreSent(Key(chain, messageID), message, Fee(input.fee.token, adjustedFeeAmount.value));
      return Some(messageID);
    }

    method StoreSent(key: Key, message: Message, fee: Fee)
      requires Valid()
      modifies `sentMessageInfo, `warpMessages, `history
      ensures Valid()
      ensures Current() == old(Current()).(
        sent := old(sentMessageInfo)[key := SentInfo(Keccak(Encode(message)), fee)],
        warpLog := old(warpMessages) + [Encode(message)],
        messages := old(history).messages[key := message],
        fees := old(history).fees[key := Paid(fee.token, fee.amount)])
    {
      hide Encode, Size;
      sentMessageInfo := sentMessageInfo[key := SentInfo(Keccak(Encode(message)), fee)];
      warpMessages := warpMessages + [Encode(message)];
      history := history.(messages := history.messages[key := message],
                          fees := history.fees[key := Paid(fee.token, fee.amount)]);
    }

    // ---------- the functions of the sender ----------

    method TakeReceipts(chain: Word) returns (receipts: seq<Receipt>)
      requires Valid()
      modifies `receiptQueues, `history
      ensures Valid()
      ensures (Current(), receipts) == Drain(old(Current()), chain)
    {
      hide Size, AllContents, ValidQueues, ReceiptQueue.Contents, ReceiptQueue.Valid, QueueAt;
      QueueAtIsValid(receiptQueues, chain);
      var q;
      q, receipts := ReceiptQueue.GetOutstandingReceiptsToSend(QueueAt(receiptQueues, chain));
      ContentsUpdate(receiptQueues, chain, q);
      ghost var queue := ReceiptQueue.Contents(QueueAt(receiptQueues, chain));
      assert queue[..|receipts|] == receipts && queue[|receipts|..] == ReceiptQueue.Contents(q);
      receiptQueues := receiptQueues[chain := q];
      history := history.(drained := history.drained[chain := ListAt(history.drained, chain) + receipts]);
    }

    method SendCrossChainMessage(caller: Address, input: MessageInput, pull: Pull) returns (r: Option<Word>)
      requires Valid()
      modifies this
      ensures Valid()
      ensures r.Some? <==> TrySend(old(Current()), caller, input, pull).Some?
      ensures r.Some? ==> Current() == TrySend(old(Current()), caller, input, pull).value
      ensures r.Some? ==> r.value == Lookup(latestMessageIDs, input.destinationBlockchainID)
    {
      hide Size, Send, Drain, AllContents, ValidQueues;
      if sendEntered != NOT_ENTERED {
        return None;
      }
      sendEntered := ENTERED;
      var receipts := TakeReceipts(input.destinationBlockchainID);
      GuardedDrain(old(Current()), input.destinationBlockchainID);
      GuardedSend(Drain(old(Current()), input.destinationBlockchainID).0, caller, input, receipts, pull);
      r := SendTeleporterMessage(caller, input, receipts, pull);
      sendEntered := NOT_ENTERED;
      history := RecordBatch(history.(latest := latestMessageIDs), input.destinationBlockchainID);
    }

    method RetrySendCrossChainMessage(destination: Word, message: Message) returns (ok: bool)
      requires Valid()
      modifies this
      ensures Valid()
      ensures ok <==> TryRetrySend(old(Current()), destination, message).Some?
      ensures ok ==> Current() == TryRetrySend(old(Current()), destination, message).value
    {
      hide Encode, Size, AllContents, ValidQueues;
      if sendEntered != NOT_ENTERED {
        return false;
      }
      sendEntered := ENTERED;
      var key := Key(destination, message.messageID);
      if key !in sentMessageInfo || Keccak(Encode(message)) != sentMessageInfo[key].hash {
        return false;
      }
      warpMessages := warpMessages + [Encode(message)];
      sendEntered := NOT_ENTERED;
      return true;
    }

    method AddFeeAmount(destination: Word, id: Word, token: Address, amount: Word, pull: Pull) returns (ok: bool)
      requires Valid()
      modifies this
      ensures Valid()
      ensures ok <==> TryAddFee(old(Current()), Key(destination, id), token, amount, pull).Some?
      ensures ok ==> Current() == TryAddFee(old(Current()), Key(destination, id), token, amount, pull).value
    {
      hide Size, AllContents, ValidQueues, TransferIn, Teleporter.AddToFee;
      var key := Key(destination, id);
      if sendEntered != NOT_ENTERED || amount == 0 || token == 0 || key !in sentMessageInfo {
        return false;
      }
      sendEntered := ENTERED;
      if sentMessageInfo[key].fee.token != token {
        return false;
      }
      var adjustedAmount := SafeTransferFrom(token, pull);
      if adjustedAmount.None? {
        return false;
      }
      GuardedAddToFee(old(Current()).(balances := tokenBalances), key, adjustedAmount.value);
      ok := AddToFee(key, adjustedAmount.value);
      sendEntered := NOT_ENTERED;
    }

    method AddToFee(key: Key, received: Word) returns (ok: bool)
      requires Valid() && key in sentMessageInfo
      modifies `sentMessageInfo, `history
      ensures Valid()
      ensures var r := Teleporter.AddToFee(old(Current()), key, received);
        (ok <==> r.Some?) && (ok ==> Current() == r.value)
    {
      hide Size, AllContents, ValidQueues;
      var info := sentMessageInfo[key];
      if info.fee.amount + received > MAX_WORD {
        return false;
      }
      StoreFee(key, Fee(info.fee.token, info.fee.amount + received), received);
      return true;
    }

    method StoreFee(key: Key, fee: Fee, ghost added: Word)
      requires Valid() && key in sentMessageInfo
      modifies `sentMessageInfo, `history
      ensures Valid()
      ensures Current() == old(Current()).(
        sent := old(sentMessageInfo)[key := SentInfo(old(sentMessageInfo)[key].hash, fee)],
        fees := var paid := if key in old(history).fees then old(history).fees[key] else Paid(fee.token, 0);
                old(history).fees[key := Paid(paid.token, paid.total + added)])
    {
      hide Size, AllContents, ValidQueues;
      sentMessageInfo := sentMessageInfo[key := SentInfo(sentMessageInfo[key].hash, fee)];
      ghost var paid := if key in history.fees then history.fees[key] else Paid(fee.token, 0);
      history := history.(fees := history.fees[key := Paid(paid.token, paid.total + added)]);
    }

    // The receipts for these ids; None at the first id that was not received.
    method GatherReceipts(origin: Word, ids: seq<Word>) returns (r: Option<seq<Receipt>>)
      ensures r == CollectReceipts(relayerRewardAddresses, origin, ids)
    {
      var receiptsToSend := [];
      for i := 0 to |ids|
        invariant |receiptsToSend| == i
        invariant forall j :: 0 <= j < i ==> Key(origin, ids[j]) in relayerRewardAddresses
        invariant forall j :: 0 <= j < i ==>
          receiptsToSend[j] == Receipt(ids[j], relayerRewardAddresses[Key(origin, ids[j])])
      {
        var key := Key(origin, ids[i]);
        if key !in relayerRewardAddresses {
          assert ids[i] in ids;
          return None;
        }
        receiptsToSend := receiptsToSend + [Receipt(ids[i], relayerRewardAddresses[key])];
      }
      assert receiptsToSend == CollectReceipts(relayerRewardAddresses, origin, ids).value;
      return Some(receiptsToSend);
    }

    method SendSpecifiedReceipts(caller: Address, origin: Word, ids: seq<Word>, fee: Fee,
                                 allowed: seq<Address>, pull: Pull) returns (r: Option<Word>)
      requires Valid()
      modifies this
      ensures Valid()
      ensures r.Some? <==> TrySendReceipts(old(Current()), caller, origin, ids, fee, allowed, pull).Some?
      ensures r.Some? ==>
        Current() == TrySendReceipts(old(Current()), caller, origin, ids, fee, allowed, pull).value
      ensures r.Some? ==> r.value == Lookup(latestMessageIDs, origin)
    {
      hide Size, Send, CollectReceipts, AllContents, ValidQueues;
      if sendEntered != NOT_ENTERED {
        return None;
      }
      sendEntered := ENTERED;
      var receipts := GatherReceipts(origin, ids);
      if receipts.None? {
        return None;
      }
      var input := MessageInput(origin, 0, fee, 0, allowed, []);
      GuardedSend(old(Current()), caller, input, receipts.value, pull);
      r := SendTeleporterMessage(caller, input, receipts.value, pull);
      sendEntered := NOT_ENTERED;
    }

    // ---------- the functions of the receiver ----------

    method CheckIsAllowedRelayer(deliverer: Address, allowed: seq<Address>) returns (isAllowed: bool)
      ensures isAllowed <==> AllowedRelayer(deliverer, allowed)
    {
      if |allowed| == 0 {
        return true;
      }
      for i := 0 to |allowed|
        invariant deliverer !in allowed[..i]
      {
        if allowed[i] == deliverer {
          return true;
        }
      }
      return false;
    }

    method MarkReceipt(origin: Word, receipt: Receipt) returns (ok: bool)
      requires Valid()
      modifies this
      ensures Valid()
      ensures ok <==> Teleporter.MarkReceipt(old(Current()), origin, receipt).Some?
      ensures ok ==> Current() == Teleporter.MarkReceipt(old(Current()), origin, receipt).value
    {
      hide Size, AllContents, ValidQueues;
      var key := Key(origin, receipt.receivedMessageID);
      if key !in sentMessageInfo {
        return true;
      }
      var fee := sentMessageInfo[key].fee;
      sentMessageInfo := sentMessageInfo - {key};
      var account := Account(receipt.relayerRewardAddress, fee.token);
      var total := Lookup(relayerRewardAmounts, account) + fee.amount;
      if total > MAX_WORD {
        return false;
      }
      relayerRewardAmounts := relayerRewardAmounts[account := total];
      history := history.(credits := history.credits + [Credit(key, receipt.relayerRewardAddress, fee)]);
      return true;
    }

    method MarkReceipts(origin: Word, receipts: seq<Receipt>) returns (ok: bool)
      requires Valid()
      modifies this
      ensures Valid()
      ensures ok <==> Teleporter.MarkReceipts(old(Current()), origin, receipts).Some?
      ensures ok ==> Current() == Teleporter.MarkReceipts(old(Current()), origin, receipts).value
    {
      hide Size, AllContents, ValidQueues, Teleporter.MarkReceipt;
      for i := 0 to |receipts|
        invariant Valid()
        invariant Teleporter.MarkReceipts(old(Current()), origin, receipts)
               == Teleporter.MarkReceipts(Current(), origin, receipts[i..])
      {
        assert receipts[i..][1..] == receipts[i + 1..];
        var marked := MarkReceipt(origin, receipts[i]);
        if !marked {
          return false;
        }
      }
      return true;
    }

    // The checks of a delivery, and its record; None where one of them fails.
    method RecordDelivery(env: Env, deliverer: Address, warp: WarpMessage, rewardAddress: Address)
      returns (r: Option<Message>)
      requires Valid()
      modifies this
      ensures Valid()
      ensures r.Some? <==> Accept(env, old(Current()), deliverer, warp, rewardAddress).Some?
      ensures r.Some? ==>
        (Current(), r.value) == Accept(env, old(Current()), deliverer, warp, rewardAddress).value
    {
      hide Decode, Size, AllContents, ValidQueues;
      if receiveEntered != NOT_ENTERED {
        return None;
      }
      receiveEntered := ENTERED;
      if rewardAddress == 0 || warp !in env.signed || warp.sender != env.teleporter {
        return None;
      }
      if blockchainID == 0 {
        blockchainID := env.chain;
      }
      r := Decode(warp.payload);
      if r.None? || r.value.destinationBlockchainID != blockchainID {
        return None;
      }
      var key := Key(warp.source, r.value.messageID);
      var allowed := CheckIsAllowedRelayer(deliverer, r.value.allowedRelayerAddresses);
      if key in relayerRewardAddresses || !allowed {
        return None;
      }
      relayerRewardAddresses := relayerRewardAddresses[key := rewardAddress];
      history := history.(deliveries := history.deliveries[key := Delivery(r.value, deliverer)]);
    }

    method StoreFailedMessageExecution(origin: Word, message: Message)
      requires Valid()
      modifies `receivedFailedMessageHashes
      ensures Valid() && Current() == StoreFailed(old(Current()), origin, message)
    {
      hide Encode, Size, AllContents, ValidQueues;
      var key := Key(origin, message.messageID);
      receivedFailedMessageHashes := receivedFailedMessageHashes[key := Keccak(Encode(message))];
    }

    method EnqueueReceipt(origin: Word, receipt: Receipt)
      requires Valid()
      modifies `receiptQueues, `history
      ensures Valid() && Current() == Enqueue(old(Current()), origin, receipt)
    {
      hide Size, AllContents, ValidQueues, ReceiptQueue.Contents, ReceiptQueue.Valid, QueueAt;
      QueueAtIsValid(receiptQueues, origin);
      var q := ReceiptQueue.Enqueue(QueueAt(receiptQueues, origin), receipt);
      ContentsUpdate(receiptQueues, origin, q);
      receiptQueues := receiptQueues[origin := q];
      history := history.(enqueued := history.enqueued[origin := ListAt(history.enqueued, origin) + [receipt]]);
    }

    // The first execution of an accepted message: a receiver without code or one that
    // fails leaves the message's hash, and nothing of what it did.
    method HandleInitialMessageExecution(env: Env, origin: Word, message: Message, callee: Callee)
      requires Valid()
      modifies this
      ensures Valid() && Current() == Execute(env, old(Current()), origin, message, callee)
      decreases callee, 1
    {
      hide Encode, Size, AllContents, ValidQueues, RunCalls, StoreFailed;
      if callee.NoCode? || !callee.succeeds {
        StoreFailedMessageExecution(origin, message);
      } else {
        RunReceiver(env, callee.calls);
        history := history.(executed := history.executed + [Key(origin, message.messageID)]);
      }
    }

    method ReceiveCrossChainMessage(env: Env, deliverer: Address, warp: WarpMessage, rewardAddress: Address,
                                    enoughGas: bool, callee: Callee) returns (ok: bool)
      requires Valid()
      modifies this
      ensures Valid()
      ensures var r := Try(env, old(Current()), Receive(deliverer, warp, rewardAddress, enoughGas, callee));
        (ok <==> r.Some?) && (ok ==> Current() == r.value)
      decreases callee, 2
    {
      hide Encode, Decode, Size, AllContents, ValidQueues, Accept, Execute, Settle;
      var message := RecordDelivery(env, deliverer, warp, rewardAddress);
      if message.None? {
        return false;
      }
      var m := message.value;
      if |m.message| > 0 {
        if !enoughGas {
          return false;
        }
        HandleInitialMessageExecution(env, warp.source, m, callee);
      }
      ok := SettleDelivery(warp.source, m, rewardAddress);
    }

    // The receipts of a delivered message are marked before its own receipt is queued.
    method SettleDelivery(origin: Word, message: Message, rewardAddress: Address) returns (ok: bool)
      requires Valid()
      modifies this
      ensures Valid()
      ensures ok <==> Settle(old(Current()), origin, message, rewardAddress).Some?
      ensures ok ==> Current() == Settle(old(Current()), origin, message, rewardAddress).value
    {
      hide Size, AllContents, ValidQueues, Teleporter.MarkReceipts;
      var marked := MarkReceipts(origin, message.receipts);
      if !marked {
        return false;
      }
      EnqueueReceipt(origin, Receipt(message.messageID, rewardAddress));
      receiveEntered := NOT_ENTERED;
      return true;
    }

    method RetryMessageExecution(env: Env, origin: Word, message: Message, callee: Callee) returns (ok: bool)
      requires Valid()
      modifies this
      ensures Valid()
      ensures var r := Try(env, old(Current()), RetryExecution(origin, message, callee));
        (ok <==> r.Some?) && (ok ==> Current() == r.value)
      decreases callee, 2
    {
      hide Encode, Size, AllContents, ValidQueues, RunCalls, AcceptRetry;
      var claimed := ClaimFailedMessage(origin, message);
      if !claimed || callee.NoCode? || !callee.succeeds {
        return false;
      }
      RunReceiver(env, callee.calls);
      receiveEntered := NOT_ENTERED;
      return true;
    }

    // The checks of a retry, and the failed hash cleared before the receiver is called.
    method ClaimFailedMessage(origin: Word, message: Message) returns (ok: bool)
      requires Valid()
      modifies `receiveEntered, `receivedFailedMessageHashes, `history
      ensures Valid()
      ensures ok <==> AcceptRetry(old(Current()), origin, message).Some?
      ensures ok ==> Current() == AcceptRetry(old(Current()), origin, message).value
    {
      hide Encode, Size, AllContents, ValidQueues;
      if receiveEntered != NOT_ENTERED {
        return false;
      }
      receiveEntered := ENTERED;
      var key := Key(origin, message.messageID);
      if key !in receivedFailedMessageHashes || Keccak(Encode(message)) != receivedFailedMessageHashes[key] {
        return false;
      }
      receivedFailedMessageHashes := receivedFailedMessageHashes - {key};
      history := history.(executed := history.executed + [key]);
      return true;
    }

    method RedeemRelayerRewards(caller: Address, token: Address) returns (ok: bool)
      requires Valid()
      modifies `relayerRewardAmounts, `tokenBalances, `history
      ensures Valid()
      ensures ok <==> TryRedeem(old(Current()), Account(caller, token)).Some?
      ensures ok ==> Current() == TryRedeem(old(Current()), Account(caller, token)).value
    {
      hide Size, AllContents, ValidQueues;
      var account := Account(caller, token);
      var rewardAmount := Lookup(relayerRewardAmounts, account);
      if rewardAmount == 0 {
        return false;
      }
      relayerRewardAmounts := relayerRewardAmounts - {account};
      if Lookup(tokenBalances, token) < rewardAmount {
        return false;
      }
      PayOut(account, rewardAmount);
      return true;
    }

    method PayOut(account: Account, amount: Word)
      requires Valid() && amount <= Lookup(tokenBalances, account.token)
      modifies `tokenBalances, `history
      ensures Valid()
      ensures Current() == old(Current()).(
        balances := old(tokenBalances)[account.token := Lookup(old(tokenBalances), account.token) - amount],
        redeemed := old(history).redeemed[account := TotalAt(old(history).redeemed, account) + amount])
    {
      hide Size, AllContents, ValidQueues, TotalAt;
      tokenBalances := tokenBalances[account.token := Lookup(tokenBalances, account.token) - amount];
      history := history.(redeemed := history.redeemed[account := TotalAt(history.redeemed, account) + amount]);
    }

    // Tokens that someone else transfers to the contract.
    method TakeDonation(token: Address, amount: Word) returns (ok: bool)
      requires Valid()
      modifies `tokenBalances, `history
      ensures Valid()
      ensures ok <==> TryDonate(old(Current()), token, amount).Some?
      ensures ok ==> Current() == TryDonate(old(Current()), token, amount).value
    {
      hide Size, AllContents, ValidQueues, TotalAt;
      ok := Lookup(tokenBalances, token) + amount <= MAX_WORD;
      if ok {
        tokenBalances := tokenBalances[token := Lookup(tokenBalances, token) + amount];
        history := history.(donated := history.donated[token := TotalAt(history.donated, token) + amount]);
      }
    }

    // ---------- calls ----------

    method Dispatch(env: Env, call: Call) returns (ok: bool)
      requires Valid()
      modifies this
      ensures Valid()
      ensures ok <==> Try(env, old(Current()), call).Some?
      ensures ok ==> Current() == Try(env, old(Current()), call).value
      decreases call, 0
    {
      hide Encode, Decode, Size, AllContents, ValidQueues;
      hide TrySend, TryRetrySend, TryAddFee, TrySendReceipts, TryRedeem, TryDonate;
      match call
      case SendMessage(caller, input, pull) =>
        var id := SendCrossChainMessage(caller, input, pull);
        return id.Some?;
      case RetrySend(destination, message) =>
        ok := RetrySendCrossChainMessage(destination, message);
      case AddFee(destination, id, token, amount, pull) =>
        ok := AddFeeAmount(destination, id, token, amount, pull);
      case SendReceipts(caller, origin, ids, fee, allowed, pull) =>
        var id := SendSpecifiedReceipts(caller, origin, ids, fee, allowed, pull);
        return id.Some?;
      case Receive(deliverer, warp, rewardAddress, enoughGas, callee) =>
        ok := ReceiveCrossChainMessage(env, deliverer, warp, rewardAddress, enoughGas, callee);
      case RetryExecution(origin, message, callee) =>
        ok := RetryMessageExecution(env, origin, message, callee);
      case Redeem(caller, token) =>
        ok := RedeemRelayerRewards(caller, token);
      case Donate(token, amount) =>
        ok := TakeDonation(token, amount);
    }

    // A call as the EVM runs it: when it reverts, all storage is restored.
    method Invoke(env: Env, call: Call) returns (ok: bool)
      requires Valid()
      modifies this
      ensures Valid()
      ensures ok <==> Try(env, old(Current()), call).Some?
      ensures Current() == Do(env, old(Current()), call)
      decreases call, 1
    {
      hide Try, Size, AllContents, ValidQueues;
      ghost var past := history;
      var saved := Save();
      ok := Dispatch(env, call);
      if !ok {
        Restore(saved, past);
      }
    }

    method Save() returns (saved: Storage)
      ensures saved == Fields()
    {
      saved := Storage(sendEntered, receiveEntered, blockchainID, latestMessageIDs, receiptQueues,
                       sentMessageInfo, receivedFailedMessageHashes, relayerRewardAddresses,
                       relayerRewardAmounts, tokenBalances, warpMessages);
    }

    method Restore(saved: Storage, ghost past: State)
      modifies this
      ensures Fields() == saved && history == past
    {
      hide Size;
      RestoreOfSender(saved);
      RestoreOfReceiver(saved);
      history := past;
    }

    method RestoreOfSender(saved: Storage)
      modifies `sendEntered, `latestMessageIDs, `receiptQueues, `sentMessageInfo, `tokenBalances, `warpMessages
      ensures sendEntered == saved.sendEntered && latestMessageIDs == saved.latest
      ensures receiptQueues == saved.queues && sentMessageInfo == saved.sent
      ensures tokenBalances == saved.balances && warpMessages == saved.warp
    {
      hide Size;
      sendEntered, latestMessageIDs, receiptQueues := saved.sendEntered, saved.latest, saved.queues;
      sentMessageInfo, tokenBalances, warpMessages := saved.sent, saved.balances, saved.warp;
    }

    method RestoreOfReceiver(saved: Storage)
      modifies `receiveEntered, `blockchainID, `receivedFailedMessageHashes, `relayerRewardAddresses,
               `relayerRewardAmounts
      ensures receiveEntered == saved.receiveEntered && blockchainID == saved.blockchainID
      ensures receivedFailedMessageHashes == saved.failed && relayerRewardAddresses == saved.relayers
      ensures relayerRewardAmounts == saved.rewards
    {
      hide Size;
      receiveEntered, blockchainID, relayerRewardAddresses := saved.receiveEntered, saved.blockchainID, saved.relayers;
      receivedFailedMessageHashes, relayerRewardAmounts := saved.failed, saved.rewards;
    }

    // What the receiver of a message does with this contract while it is called.
    method RunReceiver(env: Env, calls: seq<Call>)
      requires Valid()
      modifies this
      ensures Valid() && Current() == RunCalls(env, old(Current()), calls)
      decreases calls
    {
      hide Do, Size;
      if calls != [] {
        var _ := Invoke(env, calls[0]);
        RunReceiver(env, calls[1..]);
      }
    }
  }
}
