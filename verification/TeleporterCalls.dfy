// What a whole call does to one chain: the guards, the nested calls of a receiver,
// and the life of a message from its delivery on.
module TeleporterCalls {
  import opened Words
  import opened MessageCodec
  import opened Sums
  import opened Teleporter
  import opened TeleporterInvariants

  // Between top-level calls both guards are free, every delivered message has its
  // receipt in the queue's history, and a message has failed or was executed exactly
  // if it was delivered with a payload.
  ghost predicate Quiet(s: State) {
    && !s.sending && !s.receiving
    && (forall k :: k in s.relayers ==> Receipt(k.id, s.relayers[k]) in ListAt(s.enqueued, k.chain))
    && (forall k :: k in s.deliveries ==> HasOutcome(s, k))
  }

  ghost predicate HasOutcome(s: State, k: Key)
    requires k in s.deliveries
  {
    s.deliveries[k].message.message != [] <==> k in s.executed || k in s.failed
  }

  ghost predicate SubMap<K(!new), V>(a: map<K, V>, b: map<K, V>) {
    forall k :: k in a ==> k in b && a[k] == b[k]
  }

  ghost predicate FeeGrows(fees: map<Key, Paid>, fees': map<Key, Paid>) {
    forall k :: k in fees ==>
      k in fees' && fees[k].token == fees'[k].token && fees[k].total <= fees'[k].total
  }

  // What no call takes back: who delivered which message, what was sent, what was
  // executed and credited; and a message that left sentMessageInfo never returns.
  ghost predicate Extends(s: State, t: State) {
    && SubMap(s.relayers, t.relayers) && SubMap(s.deliveries, t.deliveries)
    && SubMap(s.messages, t.messages) && FeeGrows(s.fees, t.fees)
    && s.executed <= t.executed && s.credits <= t.credits
    && (forall c :: ListAt(s.enqueued, c) <= ListAt(t.enqueued, c))
    && (forall k :: k in s.messages && k in t.sent ==> k in s.sent)
  }

  lemma ExtendsTransitive(s: State, t: State, u: State)
    requires Extends(s, t) && Extends(t, u)
    ensures Extends(s, u)
  {
    hide Size;
    forall c
      ensures ListAt(s.enqueued, c) <= ListAt(u.enqueued, c)
    {
      assert ListAt(s.enqueued, c) <= ListAt(t.enqueued, c) <= ListAt(u.enqueued, c);
    }
  }

  // What a call leaves alone while the receive guard is taken.
  ghost predicate Locked(s: State, t: State) {
    && t.receiving == s.receiving && t.sending == s.sending && t.blockchainID == s.blockchainID
    && t.relayers == s.relayers && t.deliveries == s.deliveries && t.failed == s.failed
    && t.executed == s.executed && t.enqueued == s.enqueued && t.credits == s.credits
  }

  predicate ReceiverCall(call: Call) {
    call.Receive? || call.RetryExecution?
  }

  predicate SenderCall(call: Call) {
    call.SendMessage? || call.RetrySend? || call.AddFee? || call.SendReceipts?
  }

  // While a frame of one kind is active, no other of that kind gets in, at any depth.
  lemma GuardsExclude(env: Env, s: State, call: Call)
    ensures s.receiving && ReceiverCall(call) ==> Do(env, s, call) == s
    ensures s.sending && SenderCall(call) ==> Do(env, s, call) == s
  {
  }

  // A send, from a state that the drained receipts have left, only adds to what was sent.
  lemma SendExtends(s: State, sender: Address, input: MessageInput, rs: seq<Receipt>, pull: Pull)
    requires SendingInv(s)
    ensures var r := Send(s, sender, input, rs, pull);
      r.Some? ==> Locked(s, r.value) && Extends(s, r.value)
  {
    hide Size, Encode, SubMap, FeeGrows, SendingInv, ChargeFee, BuildMessage;
    var r := Send(s, sender, input, rs, pull);
    if r.Some? {
      var key := Key(input.destinationBlockchainID, Lookup(s.latest, input.destinationBlockchainID) + 1);
      NextIdIsNew(s, key);
      AddedToMap(s.messages, key, r.value.messages[key]);
      AddedFee(s.fees, key, r.value.fees[key]);
      SameMaps(s);
    }
  }

  lemma NextIdIsNew(s: State, key: Key)
    requires SendingInv(s) && key.id == Lookup(s.latest, key.chain) + 1
    ensures key !in s.messages && key !in s.fees && key !in s.sent
  {
    hide Size, Encode, Logged;
    assert key in s.messages <==> InRange(s.latest, key);
  }

  lemma AddedToMap(messages: map<Key, Message>, key: Key, m: Message)
    requires key !in messages
    ensures SubMap(messages, messages[key := m])
  {
    hide Size;
  }

  lemma AddedFee(fees: map<Key, Paid>, key: Key, p: Paid)
    requires key !in fees
    ensures FeeGrows(fees, fees[key := p])
  {
  }

  lemma SameMaps(s: State)
    ensures SubMap(s.relayers, s.relayers) && SubMap(s.deliveries, s.deliveries)
    ensures SubMap(s.messages, s.messages) && FeeGrows(s.fees, s.fees)
  {
    hide Size;
  }

  lemma FeesOfMessages(s: State)
    requires SendingInv(s)
    ensures s.fees.Keys == s.messages.Keys && s.sent.Keys <= s.messages.Keys
    ensures forall k :: k in s.sent ==> IsTotal(s.sent[k].fee, s.fees[k])
  {
    hide Size, Encode, Ids, Logged;
  }

  lemma DrainExtends(s: State, c: Word)
    ensures Locked(s, Drain(s, c).0) && Extends(s, Drain(s, c).0)
  {
    hide Size;
  }

  lemma AddFeeExtends(s: State, key: Key, token: Address, amount: Word, pull: Pull)
    requires SendingInv(s)
    ensures var r := TryAddFee(s, key, token, amount, pull);
      r.Some? ==> Locked(s, r.value) && Extends(s, r.value)
  {
    hide Size, Encode, Ids, Logged, Entries;
    FeesOfMessages(s);
  }

  lemma PlainCallExtends(env: Env, s: State, call: Call)
    requires Inv(env.chain, s) && (s.receiving || !ReceiverCall(call))
    ensures Locked(s, Do(env, s, call)) && Extends(s, Do(env, s, call))
  {
    hide Size, Encode, Decode, Send, Drain, RecordBatch, TryAddFee, TryRedeem, TryDonate, TryRetrySend, Extends, Locked;
    hide SendingInv, MoneyInv, ReceivingInv, ReturnInv;
    SameExtends(s);
    match call
    case SendMessage(caller, input, pull) =>
      DrainKeepsInv(env.chain, s, input.destinationBlockchainID);
      var (t, rs) := Drain(s, input.destinationBlockchainID);
      DrainSendExtends(s, t, caller, input, rs, pull);
      var sent := Send(t, caller, input, rs, pull);
      if sent.Some? {
        RecordExtends(s, sent.value, input.destinationBlockchainID);
      }
    case RetrySend(destination, m) => BooksExtend(s, call, env);
    case AddFee(destination, id, token, amount, pull) =>
      AddFeeExtends(s, Key(destination, id), token, amount, pull);
    case SendReceipts(caller, origin, ids, fee, allowed, pull) =>
      var rs := CollectReceipts(s.relayers, origin, ids);
      if rs.Some? {
        SendExtends(s, caller, MessageInput(origin, 0, fee, 0, allowed, []), rs.value, pull);
      }
    case Redeem(caller, token) => BooksExtend(s, call, env);
    case Donate(token, amount) => BooksExtend(s, call, env);
    case Receive(_, _, _, _, _) =>
    case RetryExecution(_, _, _) =>
  }

  lemma RecordExtends(s: State, t: State, c: Word)
    requires Locked(s, t) && Extends(s, t)
    ensures Locked(s, RecordBatch(t, c)) && Extends(s, RecordBatch(t, c))
  {
    hide Size, SubMap, FeeGrows;
  }

  lemma RecordKeepsInv(chain: Word, t: State, c: Word)
    requires Inv(chain, t)
    ensures Inv(chain, RecordBatch(t, c))
  {
    hide Size, Encode, Ids, Entries, Logged, CreditInv, RewardInv, Solvent, DeliveryInv, ExecInv, QueueInv, ReceiptInv;
  }

  lemma SameExtends(s: State)
    ensures Locked(s, s) && Extends(s, s)
  {
  }

  // A call that changes no more than balances, rewards and what Warp was given.
  lemma BooksOnly(s: State, t: State)
    requires t == s.(warpLog := t.warpLog, rewards := t.rewards, balances := t.balances,
                     redeemed := t.redeemed, donated := t.donated)
    ensures Locked(s, t) && Extends(s, t)
  {
    hide Size, SubMap, FeeGrows;
    SameMaps(s);
  }

  lemma BooksExtend(s: State, call: Call, env: Env)
    requires call.RetrySend? || call.Redeem? || call.Donate?
    ensures Locked(s, Do(env, s, call)) && Extends(s, Do(env, s, call))
  {
    hide Size, Encode, Locked, Extends;
    if Try(env, s, call).None? {
      SameExtends(s);
    } else {
      BooksOnly(s, Try(env, s, call).value);
    }
  }

  lemma DrainSendExtends(s: State, t: State, sender: Address, input: MessageInput, rs: seq<Receipt>, pull: Pull)
    requires SendingInv(t) && (t, rs) == Drain(s, input.destinationBlockchainID)
    ensures var r := Send(t, sender, input, rs, pull);
      r.Some? ==> Locked(s, r.value) && Extends(s, r.value)
  {
    hide Size, Encode, Send, SendingInv, Extends;
    DrainExtends(s, input.destinationBlockchainID);
    SendExtends(t, sender, input, rs, pull);
    var r := Send(t, sender, input, rs, pull);
    if r.Some? {
      ExtendsTransitive(s, t, r.value);
    }
  }

  lemma CollectedAreTrue(relayers: map<Key, Address>, origin: Word, ids: seq<Word>)
    ensures var r := CollectReceipts(relayers, origin, ids);
      r.Some? ==> TrueReceipts(relayers, origin, r.value)
  {
  }

  lemma PlainCallKeepsInv(env: Env, s: State, call: Call)
    requires Inv(env.chain, s) && (s.receiving || !ReceiverCall(call))
    ensures Inv(env.chain, Do(env, s, call))
  {
    hide Inv, Size, Encode, Decode, TrueReceipts, RecordBatch;
    match call
    case SendMessage(caller, input, pull) =>
      DrainKeepsInv(env.chain, s, input.destinationBlockchainID);
      var (t, rs) := Drain(s, input.destinationBlockchainID);
      SendKeepsInv(env.chain, t, caller, input, rs, pull);
      var sent := Send(t, caller, input, rs, pull);
      if sent.Some? {
        RecordKeepsInv(env.chain, sent.value, input.destinationBlockchainID);
      }
    case RetrySend(destination, m) =>
      RetrySendRepeats(env.chain, s, destination, m);
    case AddFee(destination, id, token, amount, pull) =>
      AddFeeKeepsInv(env.chain, s, Key(destination, id), token, amount, pull);
    case SendReceipts(caller, origin, ids, fee, allowed, pull) =>
      CollectedAreTrue(s.relayers, origin, ids);
      var rs := CollectReceipts(s.relayers, origin, ids);
      if rs.Some? {
        SendKeepsInv(env.chain, s, caller, MessageInput(origin, 0, fee, 0, allowed, []), rs.value, pull);
      }
    case Redeem(caller, token) => RedeemKeepsInv(env.chain, s, Account(caller, token));
    case Donate(token, amount) => DonateKeepsInv(env.chain, s, token, amount);
    case Receive(_, _, _, _, _) =>
    case RetryExecution(_, _, _) =>
  }

  // A retry is accepted for a message exactly if it is the one that was sent with that
  // id and has no receipt yet, and what it gives to Warp is what was given before.
  lemma RetrySendRepeats(chain: Word, s: State, destination: Word, m: Message)
    requires Inv(chain, s)
    ensures var key := Key(destination, m.messageID);
      && (TryRetrySend(s, destination, m).Some? <==>
            !s.sending && key in s.sent && s.messages[key] == m)
    ensures TryRetrySend(s, destination, m).Some? ==>
      var t := TryRetrySend(s, destination, m).value;
      Inv(chain, t) && t == s.(warpLog := s.warpLog + [Encode(m)])
  {
    hide Size, Encode, Ids, CreditInv, RewardInv, Solvent, DeliveryInv, ExecInv, QueueInv, ReceiptInv;
    var key := Key(destination, m.messageID);
    if key in s.sent {
      assert EntryFor(s.sent[key], s.messages[key], s.fees[key]);
      if Encode(m) == Encode(s.messages[key]) {
        EncodeInjective(m, s.messages[key]);
        assert IsEncoded(s.messages, Encode(m));
      }
    }
  }

  // ---------- the calls of a receiver ----------

  lemma {:induction false} NestedCallsKeep(env: Env, s: State, calls: seq<Call>)
    requires Inv(env.chain, s) && s.receiving
    ensures var t := RunCalls(env, s, calls);
      Inv(env.chain, t) && Locked(s, t) && Extends(s, t)
    decreases |calls|
  {
    hide Inv, Extends, Do;
    if calls == [] {
      SameExtends(s);
    } else {
      var t := Do(env, s, calls[0]);
      PlainCallKeepsInv(env, s, calls[0]);
      PlainCallExtends(env, s, calls[0]);
      NestedCallsKeep(env, t, calls[1..]);
      ExtendsTransitive(s, t, RunCalls(env, t, calls[1..]));
    }
  }

  // ---------- receiving ----------

  // m was accepted under this key and has not been executed yet.
  ghost predicate Running(s: State, key: Key, m: Message) {
    && s.receiving && key.id == m.messageID
    && key in s.deliveries && s.deliveries[key].message == m
    && key !in s.failed && key !in s.executed
  }

  predicate Succeeds(callee: Callee) {
    callee.Contract? && callee.succeeds
  }

  // What the execution of message m leaves: if its receiver succeeded it was executed, once
  // more than before, and otherwise it has failed; nothing else that the receive guard
  // protects has changed.
  ghost predicate RanOnce(s: State, t: State, key: Key, m: Message, success: bool) {
    && Locked(s.(failed := t.failed, executed := t.executed), t)
    && t.failed == (if success then s.failed else s.failed[key := Keccak(Encode(m))])
    && t.executed == (if success then s.executed + [key] else s.executed)
  }

  lemma StoreFailedKeeps(chain: Word, s: State, origin: Word, m: Message)
    requires Inv(chain, s) && Running(s, Key(origin, m.messageID), m)
    ensures var t := StoreFailed(s, origin, m);
      Inv(chain, t) && RanOnce(s, t, Key(origin, m.messageID), m, false)
  {
    hide Size, Encode, Ids, Entries, Logged, CreditInv, RewardInv, Solvent, QueueInv, ReceiptInv, DeliveryInv;
  }

  lemma ExecutedKeeps(chain: Word, s: State, t: State, origin: Word, m: Message)
    requires Inv(chain, t) && Locked(s, t) && Running(s, Key(origin, m.messageID), m)
    ensures var u := Executed(t, origin, m);
      Inv(chain, u) && RanOnce(s, u, Key(origin, m.messageID), m, true)
  {
    hide Size, Encode, Ids, Entries, Logged, CreditInv, RewardInv, Solvent, QueueInv, ReceiptInv, DeliveryInv;
  }

  lemma OutcomeExtends(s: State, origin: Word, m: Message)
    ensures Extends(s, StoreFailed(s, origin, m)) && Extends(s, Executed(s, origin, m))
  {
    hide Size, Encode;
  }

  lemma ExecuteKeeps(env: Env, s: State, origin: Word, m: Message, callee: Callee)
    requires Inv(env.chain, s) && Running(s, Key(origin, m.messageID), m)
    ensures var t := Execute(env, s, origin, m, callee);
      && Inv(env.chain, t) && RanOnce(s, t, Key(origin, m.messageID), m, Succeeds(callee)) && Extends(s, t)
      && t == (if Succeeds(callee) then RunCalls(env, s, callee.calls).(executed := t.executed)
               else s.(failed := t.failed))
  {
    hide Inv, Encode, Size, RunCalls, Extends, RanOnce, Locked;
    if callee.Contract? && callee.succeeds {
      var t := RunCalls(env, s, callee.calls);
      NestedCallsKeep(env, s, callee.calls);
      ExecutedKeeps(env.chain, s, t, origin, m);
      OutcomeExtends(t, origin, m);
      ExtendsTransitive(s, t, Executed(t, origin, m));
    } else {
      StoreFailedKeeps(env.chain, s, origin, m);
      OutcomeExtends(s, origin, m);
    }
  }

  // What a committed delivery does: it records the message, its deliverer and the
  // reward address; the message runs once if it has a payload; the receipts in it are
  // credited; and its own receipt is put behind those delivered before.
  ghost predicate Delivered(s: State, t: State, key: Key, m: Message, deliverer: Address, reward: Address,
                            success: bool)
  {
    && t.relayers == s.relayers[key := reward]
    && t.deliveries == s.deliveries[key := Delivery(m, deliverer)]
    && t.enqueued == s.enqueued[key.chain := ListAt(s.enqueued, key.chain) + [Receipt(key.id, reward)]]
    && t.sending == s.sending && !t.receiving
    && t.failed == (if m.message != [] && !success then s.failed[key := Keccak(Encode(m))] else s.failed)
    && t.executed == (if m.message != [] && success then s.executed + [key] else s.executed)
    && s.credits <= t.credits && FromReceipts(t.credits[|s.credits|..], key.chain, m.receipts)
  }

  lemma AcceptExtends(env: Env, s: State, deliverer: Address, warp: WarpMessage, reward: Address)
    requires s.deliveries.Keys == s.relayers.Keys
    ensures var r := Accept(env, s, deliverer, warp, reward); r.Some? ==> Extends(s, r.value.0)
  {
    hide Size, Encode, Decode, FeeGrows;
    SameMaps(s);
  }

  lemma AcceptRuns(env: Env, s: State, deliverer: Address, warp: WarpMessage, reward: Address)
    requires Inv(env.chain, s)
    ensures var r := Accept(env, s, deliverer, warp, reward);
      r.Some? ==> var (t, m) := r.value; var key := Key(warp.source, m.messageID);
        && key !in s.relayers && key !in s.failed && key !in s.executed && Running(t, key, m)
        && Inv(env.chain, t) && Extends(s, t)
  {
    hide Size, Encode, Decode, Extends, SendingInv, MoneyInv, ReturnInv;
    AcceptKeepsInv(env, s, deliverer, warp, reward);
    AcceptExtends(env, s, deliverer, warp, reward);
  }

  lemma SettleKeeps(chain: Word, s: State, origin: Word, m: Message, reward: Address)
    requires Inv(chain, s) && TrueReceipt(s.relayers, origin, Receipt(m.messageID, reward))
    requires forall i :: 0 <= i < |ListAt(s.enqueued, origin)| ==>
      ListAt(s.enqueued, origin)[i].receivedMessageID != m.messageID
    ensures var r := Settle(s, origin, m, reward); r.Some? && Inv(chain, r.value) && Extends(s, r.value)
  {
    hide Size, Encode, Extends;
    hide Ids, Entries, Logged, CreditInv, RewardInv, Solvent, QueueInv, ReceiptInv, DeliveryInv, ExecInv;
    MarkReceiptsKeepInv(chain, s, origin, m.receipts);
    MarkReceiptsCredits(s, origin, m.receipts);
    var t := MarkReceipts(s, origin, m.receipts).value;
    EnqueueKeepsInv(chain, t, origin, Receipt(m.messageID, reward));
    SettleExtends(s, t, origin, m, reward);
  }

  lemma {:induction false} MarkReceiptsShrink(s: State, origin: Word, rs: seq<Receipt>)
    ensures var r := MarkReceipts(s, origin, rs); r.Some? ==> r.value.sent.Keys <= s.sent.Keys
    decreases |rs|
  {
    if rs != [] && MarkReceipt(s, origin, rs[0]).Some? {
      MarkReceiptsShrink(MarkReceipt(s, origin, rs[0]).value, origin, rs[1..]);
    }
  }

  lemma SettleExtends(s: State, t: State, origin: Word, m: Message, reward: Address)
    requires MarkReceipts(s, origin, m.receipts) == Some(t)
    requires OnlyMarked(s, t) && s.credits <= t.credits
    ensures Extends(s, Settle(s, origin, m, reward).value)
  {
    hide Size, Encode;
    MarkReceiptsShrink(s, origin, m.receipts);
  }

  // The state after the execution of an accepted message, if it has a payload.
  function AfterExecution(env: Env, s: State, origin: Word, m: Message, callee: Callee): State {
    if m.message == [] then s else Execute(env, s, origin, m, callee)
  }

  lemma AfterExecutionKeeps(env: Env, s: State, origin: Word, m: Message, callee: Callee)
    requires Inv(env.chain, s) && Running(s, Key(origin, m.messageID), m)
    ensures var t := AfterExecution(env, s, origin, m, callee);
      && Inv(env.chain, t) && Extends(s, t)
      && (if m.message == [] then s == t
          else RanOnce(s, t, Key(origin, m.messageID), m, Succeeds(callee)))
  {
    hide Inv, Encode, Size, Execute, Extends, RanOnce;
    if m.message == [] {
      SameExtends(s);
    } else {
      ExecuteKeeps(env, s, origin, m, callee);
    }
  }

  // The ids already in the queue's history were delivered before, so a new one differs.
  lemma NewIdIsFresh(s: State, key: Key, i: nat)
    requires ReturnInv(s) && key !in s.relayers && i < |ListAt(s.enqueued, key.chain)|
    ensures ListAt(s.enqueued, key.chain)[i].receivedMessageID != key.id
  {
    hide Size, ReceiptInv;
    var c := key.chain;
    assert LaneInv(s.relayers, c, ListAt(s.drained, c), ListAt(s.queues, c), ListAt(s.enqueued, c));
    assert TrueReceipt(s.relayers, c, ListAt(s.enqueued, c)[i]);
  }

  // A delivery commits exactly if it is accepted and brings the gas its payload
  // requires: neither its receiver nor the receipts in it can stop it.
  lemma ReceiveEffect(env: Env, s: State, call: Call)
    requires Inv(env.chain, s) && call.Receive?
    ensures var accepted := Accept(env, s, call.deliverer, call.warp, call.rewardAddress);
      && (Try(env, s, call).Some? <==>
            accepted.Some? && (accepted.value.1.message == [] || call.enoughGas))
      && (Try(env, s, call).Some? ==>
            var t, m := Try(env, s, call).value, accepted.value.1;
            && Inv(env.chain, t) && Extends(s, t)
            && Delivered(s, t, Key(call.warp.source, m.messageID), m, call.deliverer, call.rewardAddress,
                         Succeeds(call.callee)))
  {
    hide Inv, Encode, Decode, Size, Execute, RanOnce, Extends, Running, Delivered, Settle;
    var accepted := Accept(env, s, call.deliverer, call.warp, call.rewardAddress);
    if accepted.Some? && (accepted.value.1.message == [] || call.enoughGas) {
      var (a, m) := accepted.value;
      AcceptRuns(env, s, call.deliverer, call.warp, call.rewardAddress);
      AfterExecutionKeeps(env, a, call.warp.source, m, call.callee);
      var e := AfterExecution(env, a, call.warp.source, m, call.callee);
      FinishDelivery(env.chain, s, a, e, call.warp.source, m, call.deliverer, call.rewardAddress,
                     Succeeds(call.callee));
      var t := Settle(e, call.warp.source, m, call.rewardAddress).value;
      ExtendsTransitive(s, a, e);
      ExtendsTransitive(s, e, t);
    }
  }

  lemma FinishDelivery(chain: Word, s: State, a: State, e: State, origin: Word, m: Message,
                       deliverer: Address, reward: Address, success: bool)
    requires Inv(chain, s) && Inv(chain, e)
    requires var key := Key(origin, m.messageID);
      && key !in s.relayers && a.receiving
      && a == s.(receiving := true, blockchainID := a.blockchainID,
                 relayers := s.relayers[key := reward], deliveries := s.deliveries[key := Delivery(m, deliverer)])
      && (if m.message == [] then a == e else RanOnce(a, e, key, m, success))
    ensures var r := Settle(e, origin, m, reward);
      && r.Some? && Inv(chain, r.value) && Extends(e, r.value)
      && Delivered(s, r.value, Key(origin, m.messageID), m, deliverer, reward, success)
  {
    hide Encode, Size, Extends, SendingInv, MoneyInv, ReceivingInv, ReturnInv, RanOnce, Delivered, MarkReceipts;
    var key := Key(origin, m.messageID);
    SameQueue(a, e, key, m, success);
    forall i | 0 <= i < |ListAt(e.enqueued, origin)|
      ensures ListAt(e.enqueued, origin)[i].receivedMessageID != m.messageID
    {
      NewIdIsFresh(s, key, i);
    }
    SettleKeeps(chain, e, origin, m, reward);
    MarkReceiptsKeepInv(chain, e, origin, m.receipts);
    MarkReceiptsCredits(e, origin, m.receipts);
    DeliveryEffect(s, a, e, MarkReceipts(e, origin, m.receipts).value, origin, m, deliverer, reward,
                   success);
  }

  lemma SameQueue(a: State, e: State, key: Key, m: Message, success: bool)
    requires a == e || RanOnce(a, e, key, m, success)
    ensures e.enqueued == a.enqueued && e.relayers == a.relayers
  {
    hide Encode, Size;
  }

  lemma DeliveryEffect(s: State, a: State, e: State, u: State, origin: Word, m: Message,
                       deliverer: Address, reward: Address, success: bool)
    requires var key := Key(origin, m.messageID);
      && a == s.(receiving := true, blockchainID := a.blockchainID,
                 relayers := s.relayers[key := reward], deliveries := s.deliveries[key := Delivery(m, deliverer)])
      && (if m.message == [] then a == e else RanOnce(a, e, key, m, success))
    requires OnlyMarked(e, u) && e.credits <= u.credits
    requires FromReceipts(u.credits[|e.credits|..], origin, m.receipts)
    ensures Delivered(s, Enqueue(u, origin, Receipt(m.messageID, reward)).(receiving := false),
                      Key(origin, m.messageID), m, deliverer, reward, success)
  {
    hide Encode, Size, FromReceipts;
  }

  // ---------- retrying a failed execution ----------

  // A committed retry: the failed message, and no other, was executed.
  ghost predicate Retried(s: State, t: State, key: Key) {
    && key in s.failed && t.failed == s.failed - {key} && t.executed == s.executed + [key]
    && Locked(s.(failed := t.failed, executed := t.executed), t)
  }

  // A retry is accepted for a message exactly if it is the one that was delivered
  // under that id and its execution has failed; it commits exactly if its receiver
  // exists and succeeds this time.
  lemma RetryEffect(env: Env, s: State, call: Call)
    requires Inv(env.chain, s) && call.RetryExecution?
    ensures var key := Key(call.origin, call.message.messageID);
      && (Try(env, s, call).Some? <==>
            && !s.receiving && key in s.failed && key in s.deliveries
            && s.deliveries[key].message == call.message
            && call.callee.Contract? && call.callee.succeeds)
      && (Try(env, s, call).Some? ==>
            var t := Try(env, s, call).value;
            Inv(env.chain, t) && Extends(s, t) && Retried(s, t, key))
  {
    hide Inv, Encode, Size, RunCalls, Extends, AcceptRetry, Retried;
    DeliveriesOfRelayers(env.chain, s);
    RetryAcceptedIff(env.chain, s, call.origin, call.message);
    if Try(env, s, call).Some? {
      RetryKeeps(env, s, call);
    }
  }

  lemma RetryAcceptedIff(chain: Word, s: State, origin: Word, m: Message)
    requires Inv(chain, s)
    ensures var key := Key(origin, m.messageID);
      && (key in s.failed ==> key in s.deliveries)
      && (AcceptRetry(s, origin, m).Some? <==>
            !s.receiving && key in s.failed && s.deliveries[key].message == m)
  {
    hide Encode, Size, SendingInv, MoneyInv, ReturnInv, DeliveryInv;
    var key := Key(origin, m.messageID);
    if key in s.failed && Encode(m) == Encode(s.deliveries[key].message) {
      EncodeInjective(m, s.deliveries[key].message);
    }
  }

  lemma AcceptRetryKeeps(chain: Word, s: State, origin: Word, m: Message)
    requires Inv(chain, s)
    ensures var r := AcceptRetry(s, origin, m); r.Some? ==>
      Inv(chain, r.value) && Extends(s, r.value) && Retried(s.(receiving := true), r.value, Key(origin, m.messageID))
  {
    hide Size, Encode, Ids, Entries, Logged, CreditInv, RewardInv, Solvent, QueueInv, ReceiptInv, DeliveryInv;
  }

  lemma RetryKeeps(env: Env, s: State, call: Call)
    requires Inv(env.chain, s) && call.RetryExecution? && Try(env, s, call).Some?
    ensures var t := Try(env, s, call).value;
      Inv(env.chain, t) && Extends(s, t) && Retried(s, t, Key(call.origin, call.message.messageID))
  {
    hide Encode, Size, RunCalls, Extends;
    hide SendingInv, MoneyInv, ReceivingInv, ReturnInv;
    AcceptRetryKeeps(env.chain, s, call.origin, call.message);
    var a := AcceptRetry(s, call.origin, call.message).value;
    NestedCallsKeep(env, a, call.callee.calls);
    var t := RunCalls(env, a, call.callee.calls);
    ExtendsTransitive(s, a, t);
    ReleaseKeeps(env.chain, t);
    ExtendsTransitive(s, t, t.(receiving := false));
  }

  lemma ReleaseKeeps(chain: Word, t: State)
    requires Inv(chain, t)
    ensures Inv(chain, t.(receiving := false)) && Extends(t, t.(receiving := false))
  {
    hide Size, Encode, Ids, Entries, Logged, CreditInv, RewardInv, Solvent, QueueInv, ReceiptInv, DeliveryInv;
  }

  // ---------- whole calls ----------

  lemma DeliveredKeepsQuiet(s: State, t: State, key: Key, m: Message, deliverer: Address, reward: Address,
                            success: bool)
    requires Quiet(s) && Delivered(s, t, key, m, deliverer, reward, success)
    requires key !in s.deliveries && key !in s.failed && key !in s.executed
    ensures Quiet(t)
  {
    hide Size, Encode, HasOutcome, FromReceipts;
    assert Receipt(key.id, reward) in ListAt(t.enqueued, key.chain);
    forall k | k in s.relayers && k != key
      ensures Receipt(k.id, t.relayers[k]) in ListAt(t.enqueued, k.chain)
    {
      assert Receipt(k.id, s.relayers[k]) in ListAt(s.enqueued, k.chain);
    }
    forall k | k in t.deliveries
      ensures HasOutcome(t, k)
    {
      DeliveredOutcome(s, t, key, m, deliverer, reward, success, k);
    }
  }

  lemma DeliveredOutcome(s: State, t: State, key: Key, m: Message, deliverer: Address, reward: Address,
                         success: bool, k: Key)
    requires Delivered(s, t, key, m, deliverer, reward, success) && k in t.deliveries
    requires key !in s.deliveries && key !in s.failed && key !in s.executed
    requires k != key ==> HasOutcome(s, k)
    ensures HasOutcome(t, k)
  {
    hide Size, Encode, FromReceipts;
    if k != key {
      assert k in t.executed <==> k in s.executed;
    } else {
      assert m.message != [] && t.executed == s.executed + [key] ==> t.executed[|s.executed|] == key;
    }
  }

  lemma RetriedKeepsQuiet(s: State, t: State, key: Key)
    requires Quiet(s) && Retried(s, t, key)
    ensures Quiet(t)
  {
    hide Size, Encode;
    assert t.executed[|s.executed|] == key;
    forall k | k in t.deliveries
      ensures HasOutcome(t, k)
    {
      assert HasOutcome(s, k);
    }
  }

  lemma LockedKeepsQuiet(s: State, t: State)
    requires Quiet(s) && Locked(s, t)
    ensures Quiet(t)
  {
    hide Size;
    forall k | k in t.deliveries
      ensures HasOutcome(t, k)
    {
      assert HasOutcome(s, k);
    }
  }

  // How a call may change a quiet state: by one delivery, one successful retry, or
  // without touching what the receive guard protects.
  ghost predicate Progress(env: Env, s: State, t: State, call: Call) {
    || Locked(s, t)
    || (call.RetryExecution? && Retried(s, t, Key(call.origin, call.message.messageID)))
    || (call.Receive? && Accept(env, s, call.deliverer, call.warp, call.rewardAddress).Some?
        && var m := Accept(env, s, call.deliverer, call.warp, call.rewardAddress).value.1;
           && Delivered(s, t, Key(call.warp.source, m.messageID), m, call.deliverer, call.rewardAddress,
                        Succeeds(call.callee))
           && NeverSeen(s, Key(call.warp.source, m.messageID)))
  }

  ghost predicate NeverSeen(s: State, key: Key) {
    key !in s.deliveries && key !in s.failed && key !in s.executed
  }

  lemma CallProgresses(env: Env, s: State, call: Call)
    requires Inv(env.chain, s)
    ensures var t := Do(env, s, call);
      Inv(env.chain, t) && Extends(s, t) && Progress(env, s, t, call)
  {
    hide Inv, Encode, Decode, Size, Extends, Locked, Retried, Delivered, Accept, Execute, Settle;
    if call.Receive? {
      ReceiveEffect(env, s, call);
      AcceptRuns(env, s, call.deliverer, call.warp, call.rewardAddress);
      SameExtends(s);
      DeliveriesOfRelayers(env.chain, s);
    } else if call.RetryExecution? {
      RetryEffect(env, s, call);
      SameExtends(s);
    } else {
      PlainCallKeepsInv(env, s, call);
      PlainCallExtends(env, s, call);
    }
  }

  lemma DeliveriesOfRelayers(chain: Word, s: State)
    requires Inv(chain, s)
    ensures s.deliveries.Keys == s.relayers.Keys
  {
  }

  // Every top-level call, committed or reverted, ends with both guards free.
  lemma CallKeepsQuiet(env: Env, s: State, call: Call)
    requires Inv(env.chain, s) && Quiet(s)
    ensures Quiet(Do(env, s, call))
  {
    hide Inv, Encode, Decode, Size, Quiet, Extends, Locked, Retried, Delivered, Accept, Do;
    CallProgresses(env, s, call);
    var t := Do(env, s, call);
    if Locked(s, t) {
      LockedKeepsQuiet(s, t);
    } else if call.RetryExecution? {
      RetriedKeepsQuiet(s, t, Key(call.origin, call.message.messageID));
    } else {
      var m := Accept(env, s, call.deliverer, call.warp, call.rewardAddress).value.1;
      DeliveredKeepsQuiet(s, t, Key(call.warp.source, m.messageID), m, call.deliverer, call.rewardAddress,
                          Succeeds(call.callee));
    }
  }

  // The life of a message at its destination.
  datatype Status = Undelivered | Empty | HasRun | HasFailed

  ghost function StatusOf(s: State, k: Key): Status {
    if k !in s.deliveries then Undelivered
    else if k in s.executed then HasRun
    else if k in s.failed then HasFailed
    else Empty
  }

  // A message is delivered once; only a failed one can still run, once; and one that
  // has run, or had nothing to run, stays so.
  lemma StatusSteps(env: Env, s: State, call: Call, k: Key)
    requires Inv(env.chain, s) && Quiet(s)
    ensures var before, after := StatusOf(s, k), StatusOf(Do(env, s, call), k);
      || after == before || before == Undelivered || (before == HasFailed && after == HasRun)
  {
    hide Inv, Encode, Decode, Size, Quiet, Extends, Accept, Do;
    CallProgresses(env, s, call);
    OutcomesExclude(env.chain, s);
    var t := Do(env, s, call);
    assert t.executed == s.executed || |t.executed| == |s.executed| + 1;
    assert k in t.executed && k !in s.executed ==> t.executed[|s.executed|] == k;
  }

  lemma OutcomesExclude(chain: Word, s: State)
    requires Inv(chain, s)
    ensures forall k :: k in s.failed ==> k !in s.executed
  {
    hide Size, Encode;
  }

  // ---------- receipts ----------

  // A committed delivery settles every receipt in the message: none of the messages
  // they name is live any more, so each has been credited.
  lemma {:induction false} MarkReceiptsSettle(s: State, origin: Word, rs: seq<Receipt>, i: nat)
    requires i < |rs|
    ensures var r := MarkReceipts(s, origin, rs);
      r.Some? ==> Key(origin, rs[i].receivedMessageID) !in r.value.sent
    decreases |rs|
  {
    if MarkReceipt(s, origin, rs[0]).Some? {
      var t := MarkReceipt(s, origin, rs[0]).value;
      if i == 0 {
        MarkReceiptsShrink(t, origin, rs[1..]);
      } else {
        MarkReceiptsSettle(t, origin, rs[1..], i - 1);
      }
    }
  }

  lemma DeliverySettlesReceipts(env: Env, s: State, call: Call, i: nat)
    requires call.Receive? && Try(env, s, call).Some?
    ensures var m := Accept(env, s, call.deliverer, call.warp, call.rewardAddress).value.1;
      i < |m.receipts| ==>
        Key(call.warp.source, m.receipts[i].receivedMessageID) !in Try(env, s, call).value.sent
  {
    hide Encode, Decode, Size, Execute;
    var (a, m) := Accept(env, s, call.deliverer, call.warp, call.rewardAddress).value;
    if i < |m.receipts| {
      MarkReceiptsSettle(AfterExecution(env, a, call.warp.source, m, call.callee), call.warp.source, m.receipts, i);
    }
  }

  // The message that `sender` asks for with this input, under this id.
  ghost predicate AskedFor(m: Message, id: Word, sender: Address, input: MessageInput) {
    && m.messageID == id && m.senderAddress == sender
    && m.destinationBlockchainID == input.destinationBlockchainID
    && m.destinationAddress == input.destinationAddress && m.requiredGasLimit == input.requiredGasLimit
    && m.allowedRelayerAddresses == input.allowedRelayerAddresses && m.message == input.message
  }

  // A sent message is the one asked for, under the next id, and carries the oldest
  // receipts of the queue, five at most, in order.
  lemma SendCarriesOldestReceipts(s: State, caller: Address, input: MessageInput, pull: Pull)
    ensures var c := input.destinationBlockchainID; var r := TrySend(s, caller, input, pull); r.Some? ==>
      var key := Key(c, Lookup(s.latest, c) + 1);
      && key in r.value.messages && AskedFor(r.value.messages[key], key.id, caller, input)
      && var rs := r.value.messages[key].receipts;
      && rs + ListAt(r.value.queues, c) == ListAt(s.queues, c)
      && |rs| == BatchSize(|ListAt(s.queues, c)|)
  {
    hide Encode, Size, Send, Drain, AskedFor;
    var c := input.destinationBlockchainID;
    var (t, rs) := Drain(s, c);
    DrainTakesOldest(s, c);
    SendAttaches(t, caller, input, rs, pull);
  }

  // Specified receipts are sent if all are known, for the ids asked for, in that order and
  // as often as asked, in a message that runs nothing; the queue is not touched.
  lemma SpecifiedReceiptsSent(s: State, caller: Address, origin: Word, ids: seq<Word>, fee: Fee,
                              allowed: seq<Address>, pull: Pull)
    ensures var r := TrySendReceipts(s, caller, origin, ids, fee, allowed, pull); r.Some? ==>
      var key := Key(origin, Lookup(s.latest, origin) + 1);
      && (forall id :: id in ids ==> Key(origin, id) in s.relayers)
      && key in r.value.messages && r.value.queues == s.queues
      && AskedFor(r.value.messages[key], key.id, caller, MessageInput(origin, 0, fee, 0, allowed, []))
      && var rs := r.value.messages[key].receipts;
      && |rs| == |ids| && TrueReceipts(s.relayers, origin, rs)
      && (forall i :: 0 <= i < |ids| ==> rs[i].receivedMessageID == ids[i])
  {
    hide Encode, Size, Send, AskedFor;
    var rs := CollectReceipts(s.relayers, origin, ids);
    if rs.Some? {
      SendAttaches(s, caller, MessageInput(origin, 0, fee, 0, allowed, []), rs.value, pull);
    }
  }

  lemma DrainTakesOldest(s: State, c: Word)
    ensures var (t, rs) := Drain(s, c); var queue := ListAt(s.queues, c);
      && rs + ListAt(t.queues, c) == queue && t.latest == s.latest
      && |rs| == BatchSize(|queue|)
  {
    hide Size;
    var (t, rs) := Drain(s, c);
    assert rs + ListAt(t.queues, c) == ListAt(s.queues, c);
  }

  lemma SendAttaches(s: State, sender: Address, input: MessageInput, rs: seq<Receipt>, pull: Pull)
    ensures var r := Send(s, sender, input, rs, pull); r.Some? ==>
      var key := Key(input.destinationBlockchainID, Lookup(s.latest, input.destinationBlockchainID) + 1);
      && key in r.value.messages && r.value.messages[key].receipts == rs && r.value.queues == s.queues
      && AskedFor(r.value.messages[key], key.id, sender, input)
  {
    hide Encode, Size, ChargeFee, BuildMessage, AskedFor;
    if Lookup(s.latest, input.destinationBlockchainID) < MAX_WORD {
      BuiltAsAsked(Lookup(s.latest, input.destinationBlockchainID) + 1, sender, input, rs);
    }
  }

  lemma BuiltAsAsked(id: Word, sender: Address, input: MessageInput, rs: seq<Receipt>)
    ensures var m := BuildMessage(id, sender, input, rs);
      m.Some? ==> m.value.receipts == rs && AskedFor(m.value, id, sender, input)
  {
  }
}
