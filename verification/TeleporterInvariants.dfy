// What every call of TeleporterMessenger keeps on its own chain, however the
// calls are nested.
module TeleporterInvariants {
  import opened Words
  import opened MessageCodec
  import opened Sums
  import opened Teleporter

  // ---------- the invariant ----------

  ghost predicate InRange(latest: map<Word, Word>, k: Key) {
    1 <= k.id <= Lookup(latest, k.chain)
  }

  ghost predicate IdentifiedBy(m: Message, k: Key) {
    m.messageID == k.id && m.destinationBlockchainID == k.chain
  }

  // The ids sent to a chain are 1 up to the latest one.
  ghost predicate Ids(latest: map<Word, Word>, messages: map<Key, Message>) {
    && (forall k :: k in messages <==> InRange(latest, k))
    && (forall k :: k in messages ==> IdentifiedBy(messages[k], k))
  }

  ghost predicate IsTotal(fee: Fee, paid: Paid) {
    fee.token == paid.token && fee.amount == paid.total
  }

  ghost predicate EntryFor(info: SentInfo, m: Message, paid: Paid) {
    info.hash == Keccak(Encode(m)) && IsTotal(info.fee, paid)
  }

  // An entry of sentMessageInfo holds the hash of its message and all fees received for it.
  ghost predicate Entries(messages: map<Key, Message>, fees: map<Key, Paid>, sent: map<Key, SentInfo>) {
    && fees.Keys == messages.Keys && sent.Keys <= messages.Keys
    && (forall k :: k in sent ==> EntryFor(sent[k], messages[k], fees[k]))
  }

  ghost predicate IsEncoded(messages: map<Key, Message>, b: Bytes) {
    exists k :: k in messages && b == Encode(messages[k])
  }

  // Warp was given the messages that were sent, and nothing else.
  ghost predicate Logged(messages: map<Key, Message>, warpLog: seq<Bytes>) {
    && (forall b :: b in warpLog ==> IsEncoded(messages, b))
    && (forall k :: k in messages ==> Encode(messages[k]) in warpLog)
  }

  ghost predicate CreditOk(fees: map<Key, Paid>, sent: map<Key, SentInfo>, c: Credit) {
    c.key in fees && c.key !in sent && IsTotal(c.fee, fees[c.key])
  }

  ghost predicate IsCredited(credits: seq<Credit>, k: Key) {
    exists i :: 0 <= i < |credits| && credits[i].key == k
  }

  // A message is credited at most once, with all its fees, when it leaves
  // sentMessageInfo; it leaves in no other way.
  ghost predicate CreditInv(fees: map<Key, Paid>, sent: map<Key, SentInfo>, credits: seq<Credit>) {
    && (forall i :: 0 <= i < |credits| ==> CreditOk(fees, sent, credits[i]))
    && (forall i, j :: 0 <= i < j < |credits| ==> credits[i].key != credits[j].key)
    && (forall k :: k in fees && k !in sent ==> IsCredited(credits, k))
  }

  // All that was ever credited to an account.
  ghost function Credited(cs: seq<Credit>, a: Account): nat {
    if cs == [] then 0
    else
      var c := cs[|cs| - 1];
      Credited(cs[..|cs| - 1], a) + if Account(c.relayer, c.fee.token) == a then c.fee.amount else 0
  }

  ghost predicate RewardInv(rewards: map<Account, Word>, redeemed: map<Account, nat>, credits: seq<Credit>) {
    forall a :: Lookup(rewards, a) + TotalAt(redeemed, a) == Credited(credits, a)
  }

  // What the live entries of sentMessageInfo hold in a token, and what is owed in it.
  ghost function Held(sent: map<Key, SentInfo>, token: Address): map<Key, nat> {
    map k | k in sent :: InToken(sent[k].fee, token)
  }

  ghost function InToken(fee: Fee, token: Address): nat {
    if fee.token == token then fee.amount else 0
  }

  ghost function Owed(rewards: map<Account, Word>, token: Address): map<Account, nat> {
    map a | a in rewards :: InToken(Fee(a.token, rewards[a]), token)
  }

  // The books of one token.
  ghost predicate Balanced(balances: map<Address, Word>, donated: map<Address, nat>,
                           sent: map<Key, SentInfo>, rewards: map<Account, Word>, token: Address)
  {
    Lookup(balances, token)
      == TotalAt(donated, token) + Sum(Held(sent, token)) + Sum(Owed(rewards, token))
  }

  ghost predicate Solvent(balances: map<Address, Word>, donated: map<Address, nat>,
                          sent: map<Key, SentInfo>, rewards: map<Account, Word>)
  {
    forall token :: Balanced(balances, donated, sent, rewards, token)
  }

  // A delivered message is the one its key names, meant for this chain, brought by an
  // allowed relayer.
  ghost predicate GoodDelivery(chain: Word, k: Key, d: Delivery) {
    && d.message.messageID == k.id && d.message.destinationBlockchainID == chain
    && AllowedRelayer(d.deliverer, d.message.allowedRelayerAddresses)
  }

  ghost predicate DeliveryInv(chain: Word, relayers: map<Key, Address>, deliveries: map<Key, Delivery>) {
    && deliveries.Keys == relayers.Keys
    && (forall k :: k in relayers ==> relayers[k] != 0)
    && (forall k :: k in deliveries ==> GoodDelivery(chain, k, deliveries[k]))
  }

  // A message is executed at most once, after its delivery, and a failed one was not executed.
  ghost predicate ExecInv(deliveries: map<Key, Delivery>, failed: map<Key, Hash>, executed: seq<Key>) {
    && failed.Keys <= deliveries.Keys
    && (forall k :: k in failed ==> failed[k] == Keccak(Encode(deliveries[k].message)))
    && (forall k :: k in failed ==> k !in executed)
    && (forall k :: k in executed ==> k in deliveries)
    && (forall i, j :: 0 <= i < j < |executed| ==> executed[i] != executed[j])
  }

  // A receipt tells who delivered the message.
  ghost predicate TrueReceipt(relayers: map<Key, Address>, chain: Word, r: Receipt) {
    var k := Key(chain, r.receivedMessageID);
    k in relayers && relayers[k] == r.relayerRewardAddress
  }

  ghost predicate TrueReceipts(relayers: map<Key, Address>, chain: Word, rs: seq<Receipt>) {
    forall i :: 0 <= i < |rs| ==> TrueReceipt(relayers, chain, rs[i])
  }

  ghost predicate DistinctIds(rs: seq<Receipt>) {
    forall i, j :: 0 <= i < j < |rs| ==> rs[i].receivedMessageID != rs[j].receivedMessageID
  }

  // The receipts taken from a queue and those still in it are those put in, in order;
  // each is true, and none is there twice.
  ghost predicate LaneInv(relayers: map<Key, Address>, chain: Word, drained: seq<Receipt>,
                          queue: seq<Receipt>, enqueued: seq<Receipt>)
  {
    && drained + queue == enqueued
    && TrueReceipts(relayers, chain, enqueued) && DistinctIds(enqueued)
  }

  ghost predicate QueueInv(relayers: map<Key, Address>, drained: map<Word, seq<Receipt>>,
                           queues: map<Word, seq<Receipt>>, enqueued: map<Word, seq<Receipt>>)
  {
    forall chain :: LaneInv(relayers, chain, ListAt(drained, chain), ListAt(queues, chain),
                            ListAt(enqueued, chain))
  }

  ghost predicate ReceiptInv(relayers: map<Key, Address>, messages: map<Key, Message>) {
    forall k :: k in messages ==> TrueReceipts(relayers, k.chain, messages[k].receipts)
  }

  ghost predicate SendingInv(s: State) {
    Ids(s.latest, s.messages) && Entries(s.messages, s.fees, s.sent) && Logged(s.messages, s.warpLog)
  }

  ghost predicate MoneyInv(s: State) {
    && CreditInv(s.fees, s.sent, s.credits) && RewardInv(s.rewards, s.redeemed, s.credits)
    && Solvent(s.balances, s.donated, s.sent, s.rewards)
  }

  ghost predicate ReceivingInv(chain: Word, s: State) {
    && (s.blockchainID == 0 || s.blockchainID == chain)
    && DeliveryInv(chain, s.relayers, s.deliveries)
    && ExecInv(s.deliveries, s.failed, s.executed)
  }

  ghost predicate ReturnInv(s: State) {
    QueueInv(s.relayers, s.drained, s.queues, s.enqueued) && ReceiptInv(s.relayers, s.messages)
  }

  ghost predicate Inv(chain: Word, s: State) {
    SendingInv(s) && MoneyInv(s) && ReceivingInv(chain, s) && ReturnInv(s)
  }

  lemma InitialInv(chain: Word)
    ensures Inv(chain, INITIAL)
  {
  }

  // ---------- books ----------

  lemma HeldUpdate(sent: map<Key, SentInfo>, key: Key, info: SentInfo, token: Address)
    ensures Sum(Held(sent[key := info], token)) + (if key in sent then InToken(sent[key].fee, token) else 0)
         == Sum(Held(sent, token)) + InToken(info.fee, token)
  {
    assert Held(sent[key := info], token) == Held(sent, token)[key := InToken(info.fee, token)];
    SumUpdate(Held(sent, token), key, InToken(info.fee, token));
  }

  lemma HeldWithout(sent: map<Key, SentInfo>, key: Key, token: Address)
    requires key in sent
    ensures Sum(Held(sent, token)) == InToken(sent[key].fee, token) + Sum(Held(sent - {key}, token))
  {
    assert Held(sent - {key}, token) == Held(sent, token) - {key};
    SumWithout(Held(sent, token), key);
  }

  lemma OwedUpdate(rewards: map<Account, Word>, a: Account, amount: Word, token: Address)
    ensures Sum(Owed(rewards[a := amount], token)) + InToken(Fee(a.token, Lookup(rewards, a)), token)
         == Sum(Owed(rewards, token)) + InToken(Fee(a.token, amount), token)
  {
    var v := InToken(Fee(a.token, amount), token);
    assert Owed(rewards[a := amount], token) == Owed(rewards, token)[a := v];
    SumUpdate(Owed(rewards, token), a, v);
  }

  lemma OwedWithout(rewards: map<Account, Word>, a: Account, token: Address)
    requires a in rewards
    ensures Sum(Owed(rewards, token))
         == InToken(Fee(a.token, rewards[a]), token) + Sum(Owed(rewards - {a}, token))
  {
    assert Owed(rewards - {a}, token) == Owed(rewards, token) - {a};
    SumWithout(Owed(rewards, token), a);
  }

  // ---------- what a send keeps ----------

  lemma SendIds(latest: map<Word, Word>, messages: map<Key, Message>, key: Key, m: Message)
    requires Ids(latest, messages)
    requires key.id == Lookup(latest, key.chain) + 1 && IdentifiedBy(m, key)
    ensures key !in messages && Ids(latest[key.chain := key.id], messages[key := m])
  {
    hide Size;
    forall k {:trigger k in messages}
      ensures k in messages[key := m] <==> InRange(latest[key.chain := key.id], k)
    {
      assert k in messages <==> InRange(latest, k);
      assert k == key <==> k.chain == key.chain && k.id == key.id;
    }
  }

  lemma SendLogged(messages: map<Key, Message>, warpLog: seq<Bytes>, key: Key, m: Message)
    requires Logged(messages, warpLog) && key !in messages
    ensures Logged(messages[key := m], warpLog + [Encode(m)])
  {
    hide Size, Encode;
    var after := messages[key := m];
    assert key in after && after[key] == m;
    forall b | b in warpLog
      ensures IsEncoded(after, b)
    {
      var k :| k in messages && b == Encode(messages[k]);
      assert k in after && b == Encode(after[k]);
    }
  }

  lemma SendCredits(fees: map<Key, Paid>, sent: map<Key, SentInfo>, credits: seq<Credit>, key: Key, info: SentInfo)
    requires CreditInv(fees, sent, credits) && (key in fees ==> key in sent)
    ensures CreditInv(fees[key := Paid(info.fee.token, info.fee.amount)], sent[key := info], credits)
  {
  }

  lemma ChargeSolvent(s: State, key: Key, info: SentInfo, balances: map<Address, Word>, received: Word)
    requires Solvent(s.balances, s.donated, s.sent, s.rewards)
    requires || (balances == s.balances && received == 0)
             || (Lookup(s.balances, info.fee.token) + received <= MAX_WORD
                 && balances == s.balances[info.fee.token := Lookup(s.balances, info.fee.token) + received])
    requires info.fee.amount == received + if key in s.sent then s.sent[key].fee.amount else 0
    requires key in s.sent ==> s.sent[key].fee.token == info.fee.token
    ensures Solvent(balances, s.donated, s.sent[key := info], s.rewards)
  {
    var sent := s.sent[key := info];
    forall token {:trigger Balanced(balances, s.donated, sent, s.rewards, token)}
      ensures Balanced(balances, s.donated, sent, s.rewards, token)
    {
      assert Balanced(s.balances, s.donated, s.sent, s.rewards, token);
      HeldUpdate(s.sent, key, info, token);
    }
  }

  lemma SendKeepsInv(chain: Word, s: State, sender: Address, input: MessageInput, rs: seq<Receipt>, pull: Pull)
    requires Inv(chain, s) && TrueReceipts(s.relayers, input.destinationBlockchainID, rs)
    ensures var r := Send(s, sender, input, rs, pull); r.Some? ==> Inv(chain, r.value)
  {
    hide Size, Encode, Ids, Entries, Logged, CreditInv, RewardInv, Solvent, DeliveryInv, ExecInv, QueueInv;
    hide TrueReceipts;
    var r := Send(s, sender, input, rs, pull);
    if r.Some? {
      var t := r.value;
      var key := Key(input.destinationBlockchainID, Lookup(s.latest, input.destinationBlockchainID) + 1);
      var m := BuildMessage(key.id, sender, input, rs).value;
      assert IdentifiedBy(m, key);
      SendIds(s.latest, s.messages, key, m);
      SendEntries(s.messages, s.fees, s.sent, key, m, t.sent[key].fee);
      SendLogged(s.messages, s.warpLog, key, m);
      SendCredits(s.fees, s.sent, s.credits, key, t.sent[key]);
      ChargeSolvent(s, key, t.sent[key], t.balances, t.sent[key].fee.amount);
    }
  }

  lemma SendEntries(messages: map<Key, Message>, fees: map<Key, Paid>, sent: map<Key, SentInfo>,
                    key: Key, m: Message, fee: Fee)
    requires Entries(messages, fees, sent) && key !in messages
    ensures key !in fees && key !in sent
    ensures Entries(messages[key := m], fees[key := Paid(fee.token, fee.amount)],
                    sent[key := SentInfo(Keccak(Encode(m)), fee)])
  {
    hide Size, Encode;
  }

  lemma AddFeeKeepsInv(chain: Word, s: State, key: Key, token: Address, amount: Word, pull: Pull)
    requires Inv(chain, s)
    ensures var r := TryAddFee(s, key, token, amount, pull); r.Some? ==> Inv(chain, r.value)
  {
    hide Size, Encode, Ids, Logged, CreditInv, RewardInv, Solvent, DeliveryInv, ExecInv, QueueInv, ReceiptInv;
    var r := TryAddFee(s, key, token, amount, pull);
    if r.Some? {
      var t := r.value;
      assert EntryFor(s.sent[key], s.messages[key], s.fees[key]);
      SendCredits(s.fees, s.sent, s.credits, key, t.sent[key]);
      ChargeSolvent(s, key, t.sent[key], t.balances, pull.amount);
    }
  }

  lemma FeeWithinBalance(s: State, key: Key)
    requires Solvent(s.balances, s.donated, s.sent, s.rewards) && key in s.sent
    ensures s.sent[key].fee.amount <= Lookup(s.balances, s.sent[key].fee.token)
  {
    var token := s.sent[key].fee.token;
    assert Balanced(s.balances, s.donated, s.sent, s.rewards, token);
    SumBound(Held(s.sent, token), key);
  }

  lemma LiveIffNotCredited(s: State, key: Key)
    requires SendingInv(s) && CreditInv(s.fees, s.sent, s.credits)
    ensures key in s.sent <==> key in s.messages && !IsCredited(s.credits, key)
    ensures key in s.sent ==> key in s.fees && IsTotal(s.sent[key].fee, s.fees[key])
  {
    hide Size, Encode, Ids, Logged;
    if key in s.sent {
      assert EntryFor(s.sent[key], s.messages[key], s.fees[key]);
      forall i | 0 <= i < |s.credits|
        ensures s.credits[i].key != key
      {
        assert CreditOk(s.fees, s.sent, s.credits[i]);
      }
    }
  }

  // A fee can be added exactly to a message that was sent and for which no receipt has
  // come back, in the token of its fee, with a transfer that brings something: neither
  // its delivery nor the size of the sum matters.
  lemma AddFeeAcceptedIff(chain: Word, s: State, key: Key, token: Address, amount: Word, pull: Pull)
    requires Inv(chain, s) && !s.sending
    ensures TryAddFee(s, key, token, amount, pull).Some? <==>
      && amount > 0 && token != 0
      && key in s.messages && key in s.fees && s.fees[key].token == token && !IsCredited(s.credits, key)
      && pull.Received? && pull.amount > 0 && Lookup(s.balances, token) + pull.amount <= MAX_WORD
  {
    hide Size, Encode, Ids, Logged, CreditInv, RewardInv, Solvent, DeliveryInv, ExecInv, QueueInv, ReceiptInv;
    hide IsCredited;
    LiveIffNotCredited(s, key);
    if key in s.sent {
      FeeWithinBalance(s, key);
    }
  }

  // ---------- what a receipt keeps ----------

  lemma MarkCredits(fees: map<Key, Paid>, sent: map<Key, SentInfo>, credits: seq<Credit>, c: Credit)
    requires CreditInv(fees, sent, credits)
    requires c.key in sent && c.key in fees && IsTotal(c.fee, fees[c.key])
    ensures CreditInv(fees, sent - {c.key}, credits + [c])
  {
    var after := credits + [c];
    assert after[|credits|] == c;
    forall k {:trigger IsCredited(after, k)} | k in fees && k !in sent - {c.key}
      ensures IsCredited(after, k)
    {
      if k != c.key {
        assert IsCredited(credits, k);
        var i :| 0 <= i < |credits| && credits[i].key == k;
        assert after[i].key == k;
      }
    }
  }

  lemma MarkRewards(rewards: map<Account, Word>, redeemed: map<Account, nat>, credits: seq<Credit>, c: Credit)
    requires RewardInv(rewards, redeemed, credits)
    requires Lookup(rewards, Account(c.relayer, c.fee.token)) + c.fee.amount <= MAX_WORD
    ensures var a := Account(c.relayer, c.fee.token);
      RewardInv(rewards[a := Lookup(rewards, a) + c.fee.amount], redeemed, credits + [c])
  {
    assert (credits + [c])[..|credits|] == credits;
  }

  lemma MarkSolvent(s: State, key: Key, relayer: Address)
    requires Solvent(s.balances, s.donated, s.sent, s.rewards) && key in s.sent
    requires var fee := s.sent[key].fee; Lookup(s.rewards, Account(relayer, fee.token)) + fee.amount <= MAX_WORD
    ensures var fee := s.sent[key].fee; var a := Account(relayer, fee.token);
      Solvent(s.balances, s.donated, s.sent - {key}, s.rewards[a := Lookup(s.rewards, a) + fee.amount])
  {
    var fee := s.sent[key].fee;
    var a := Account(relayer, fee.token);
    var total := Lookup(s.rewards, a) + fee.amount;
    var sent, rewards := s.sent - {key}, s.rewards[a := total];
    forall token {:trigger Balanced(s.balances, s.donated, sent, rewards, token)}
      ensures Balanced(s.balances, s.donated, sent, rewards, token)
    {
      assert Balanced(s.balances, s.donated, s.sent, s.rewards, token);
      HeldWithout(s.sent, key, token);
      OwedUpdate(s.rewards, a, total, token);
    }
  }

  // The books are never so full that crediting a reward could overflow.
  lemma MarkReceiptNeverReverts(s: State, origin: Word, r: Receipt)
    requires Solvent(s.balances, s.donated, s.sent, s.rewards)
    ensures MarkReceipt(s, origin, r).Some?
  {
    var key := Key(origin, r.receivedMessageID);
    if key in s.sent {
      var fee := s.sent[key].fee;
      var a := Account(r.relayerRewardAddress, fee.token);
      assert Balanced(s.balances, s.donated, s.sent, s.rewards, fee.token);
      SumBound(Held(s.sent, fee.token), key);
      if a in s.rewards {
        SumBound(Owed(s.rewards, fee.token), a);
      }
    }
  }

  lemma MarkReceiptKeepsInv(chain: Word, s: State, origin: Word, r: Receipt)
    requires Inv(chain, s)
    ensures var m := MarkReceipt(s, origin, r); m.Some? && Inv(chain, m.value)
  {
    hide Size, Encode, Ids, Logged, CreditInv, RewardInv, Solvent, DeliveryInv, ExecInv, QueueInv, ReceiptInv;
    MarkReceiptNeverReverts(s, origin, r);
    var key := Key(origin, r.receivedMessageID);
    if key in s.sent {
      assert EntryFor(s.sent[key], s.messages[key], s.fees[key]);
      var c := Credit(key, r.relayerRewardAddress, s.sent[key].fee);
      MarkCredits(s.fees, s.sent, s.credits, c);
      MarkRewards(s.rewards, s.redeemed, s.credits, c);
      MarkSolvent(s, key, r.relayerRewardAddress);
    }
  }

  // The new credits are all for receipts in the list.
  ghost predicate FromReceipts(cs: seq<Credit>, origin: Word, rs: seq<Receipt>) {
    forall i :: 0 <= i < |cs| ==> cs[i].key.chain == origin && Receipt(cs[i].key.id, cs[i].relayer) in rs
  }

  // Marking changes the sent entries, the rewards and the credits, and nothing else.
  ghost predicate OnlyMarked(s: State, t: State) {
    t == s.(sent := t.sent, rewards := t.rewards, credits := t.credits)
  }

  lemma {:induction false} MarkReceiptsKeepInv(chain: Word, s: State, origin: Word, rs: seq<Receipt>)
    requires Inv(chain, s)
    ensures var r := MarkReceipts(s, origin, rs);
      r.Some? && Inv(chain, r.value) && OnlyMarked(s, r.value)
    decreases |rs|
  {
    hide Inv;
    if rs != [] {
      MarkReceiptKeepsInv(chain, s, origin, rs[0]);
      MarkReceiptsKeepInv(chain, MarkReceipt(s, origin, rs[0]).value, origin, rs[1..]);
    }
  }

  lemma {:induction false} MarkReceiptsCredits(s: State, origin: Word, rs: seq<Receipt>)
    ensures var r := MarkReceipts(s, origin, rs); r.Some? ==>
      s.credits <= r.value.credits && FromReceipts(r.value.credits[|s.credits|..], origin, rs)
    decreases |rs|
  {
    if rs != [] && MarkReceipts(s, origin, rs).Some? {
      var t := MarkReceipt(s, origin, rs[0]).value;
      MarkReceiptsCredits(t, origin, rs[1..]);
      var u := MarkReceipts(t, origin, rs[1..]).value;
      assert u.credits[|s.credits|..] == t.credits[|s.credits|..] + u.credits[|t.credits|..];
      assert FromReceipts(t.credits[|s.credits|..], origin, rs);
    }
  }

  // ---------- what redeeming and donating keep ----------

  // A reward is always covered by the contract's balance.
  lemma RewardCovered(s: State, a: Account)
    requires Solvent(s.balances, s.donated, s.sent, s.rewards)
    ensures Lookup(s.rewards, a) <= Lookup(s.balances, a.token)
  {
    assert Balanced(s.balances, s.donated, s.sent, s.rewards, a.token);
    if a in s.rewards {
      SumBound(Owed(s.rewards, a.token), a);
    }
  }

  lemma RedeemSolvent(s: State, a: Account)
    requires Solvent(s.balances, s.donated, s.sent, s.rewards) && a in s.rewards
    requires s.rewards[a] <= Lookup(s.balances, a.token)
    ensures var balances := s.balances[a.token := Lookup(s.balances, a.token) - s.rewards[a]];
      Solvent(balances, s.donated, s.sent, s.rewards - {a})
  {
    var balances := s.balances[a.token := Lookup(s.balances, a.token) - s.rewards[a]];
    var rewards := s.rewards - {a};
    forall token {:trigger Balanced(balances, s.donated, s.sent, rewards, token)}
      ensures Balanced(balances, s.donated, s.sent, rewards, token)
    {
      assert Balanced(s.balances, s.donated, s.sent, s.rewards, token);
      OwedWithout(s.rewards, a, token);
    }
  }

  lemma RedeemKeepsInv(chain: Word, s: State, a: Account)
    requires Inv(chain, s)
    ensures var r := TryRedeem(s, a);
      && (r.Some? <==> Lookup(s.rewards, a) > 0) && (r.Some? ==> Inv(chain, r.value))
  {
    hide Size, Encode, Ids, Entries, Logged, CreditInv, Solvent, DeliveryInv, ExecInv, QueueInv, ReceiptInv;
    RewardCovered(s, a);
    if a in s.rewards {
      RedeemSolvent(s, a);
    }
  }

  lemma DonateKeepsInv(chain: Word, s: State, token: Address, amount: Word)
    requires Inv(chain, s)
    ensures var r := TryDonate(s, token, amount); r.Some? ==> Inv(chain, r.value)
  {
    hide Size, Encode, Ids, Entries, Logged, CreditInv, RewardInv, DeliveryInv, ExecInv, QueueInv, ReceiptInv;
    var r := TryDonate(s, token, amount);
    if r.Some? {
      var t := r.value;
      forall x {:trigger Balanced(t.balances, t.donated, t.sent, t.rewards, x)}
        ensures Balanced(t.balances, t.donated, t.sent, t.rewards, x)
      {
        assert Balanced(s.balances, s.donated, s.sent, s.rewards, x);
      }
    }
  }

  // ---------- what deliveries keep ----------

  lemma MoreRelayers(relayers: map<Key, Address>, key: Key, relayer: Address, chain: Word, rs: seq<Receipt>)
    requires key !in relayers && TrueReceipts(relayers, chain, rs)
    ensures TrueReceipts(relayers[key := relayer], chain, rs)
  {
    forall i {:trigger rs[i]} | 0 <= i < |rs|
      ensures TrueReceipt(relayers[key := relayer], chain, rs[i])
    {
      assert TrueReceipt(relayers, chain, rs[i]);
    }
  }

  lemma AcceptKeepsReturn(s: State, key: Key, relayer: Address)
    requires ReturnInv(s) && key !in s.relayers
    ensures QueueInv(s.relayers[key := relayer], s.drained, s.queues, s.enqueued)
    ensures ReceiptInv(s.relayers[key := relayer], s.messages)
  {
    hide Size;
    var relayers := s.relayers[key := relayer];
    forall c {:trigger ListAt(s.enqueued, c)}
      ensures LaneInv(relayers, c, ListAt(s.drained, c), ListAt(s.queues, c), ListAt(s.enqueued, c))
    {
      assert LaneInv(s.relayers, c, ListAt(s.drained, c), ListAt(s.queues, c), ListAt(s.enqueued, c));
      MoreRelayers(s.relayers, key, relayer, c, ListAt(s.enqueued, c));
    }
    forall k | k in s.messages
      ensures TrueReceipts(relayers, k.chain, s.messages[k].receipts)
    {
      MoreRelayers(s.relayers, key, relayer, k.chain, s.messages[k].receipts);
    }
  }

  lemma AcceptKeepsDeliveries(chain: Word, s: State, key: Key, relayer: Address, d: Delivery)
    requires ReceivingInv(chain, s) && key !in s.relayers && relayer != 0 && GoodDelivery(chain, key, d)
    ensures DeliveryInv(chain, s.relayers[key := relayer], s.deliveries[key := d])
    ensures ExecInv(s.deliveries[key := d], s.failed, s.executed)
    ensures key !in s.failed && key !in s.executed
  {
    hide Size, Encode;
  }

  lemma AcceptKeepsInv(env: Env, s: State, deliverer: Address, warp: WarpMessage, reward: Address)
    requires Inv(env.chain, s)
    ensures var r := Accept(env, s, deliverer, warp, reward);
      r.Some? ==> Inv(env.chain, r.value.0)
  {
    hide Size, Encode, Decode, Ids, Entries, Logged, CreditInv, RewardInv, Solvent, QueueInv, ReceiptInv;
    var r := Accept(env, s, deliverer, warp, reward);
    if r.Some? {
      var (t, m) := r.value;
      var key := Key(warp.source, m.messageID);
      AcceptKeepsReturn(s, key, reward);
      AcceptKeepsDeliveries(env.chain, s, key, reward, t.deliveries[key]);
    }
  }

  lemma DrainLane(relayers: map<Key, Address>, c: Word, drained: seq<Receipt>, queue: seq<Receipt>,
                  enqueued: seq<Receipt>, n: nat)
    requires LaneInv(relayers, c, drained, queue, enqueued) && n <= |queue|
    ensures LaneInv(relayers, c, drained + queue[..n], queue[n..], enqueued)
    ensures TrueReceipts(relayers, c, queue[..n])
  {
    hide TrueReceipt;
    forall i | 0 <= i < n
      ensures TrueReceipt(relayers, c, queue[..n][i])
    {
      assert queue[..n][i] == enqueued[|drained| + i];
    }
    assert drained + queue[..n] + queue[n..] == enqueued;
  }

  lemma DrainQueues(s: State, c: Word)
    requires QueueInv(s.relayers, s.drained, s.queues, s.enqueued)
    ensures var (t, rs) := Drain(s, c);
      QueueInv(t.relayers, t.drained, t.queues, t.enqueued) && TrueReceipts(t.relayers, c, rs)
  {
    hide Size, LaneInv, TrueReceipts;
    var (t, rs) := Drain(s, c);
    var queue := ListAt(s.queues, c);
    forall x {:trigger ListAt(t.enqueued, x)}
      ensures LaneInv(t.relayers, x, ListAt(t.drained, x), ListAt(t.queues, x), ListAt(t.enqueued, x))
    {
      assert LaneInv(s.relayers, x, ListAt(s.drained, x), ListAt(s.queues, x), ListAt(s.enqueued, x));
      if x == c {
        DrainLane(s.relayers, c, ListAt(s.drained, c), queue, ListAt(s.enqueued, c), |rs|);
      }
    }
    assert LaneInv(s.relayers, c, ListAt(s.drained, c), queue, ListAt(s.enqueued, c));
    DrainLane(s.relayers, c, ListAt(s.drained, c), queue, ListAt(s.enqueued, c), |rs|);
  }

  lemma DrainKeepsInv(chain: Word, s: State, c: Word)
    requires Inv(chain, s)
    ensures var (t, rs) := Drain(s, c); Inv(chain, t) && TrueReceipts(t.relayers, c, rs)
  {
    hide Size, Encode, Ids, Entries, Logged, CreditInv, RewardInv, Solvent, DeliveryInv, ExecInv, ReceiptInv;
    hide QueueInv, TrueReceipts;
    DrainQueues(s, c);
  }

  lemma EnqueueKeepsInv(chain: Word, s: State, c: Word, r: Receipt)
    requires Inv(chain, s) && TrueReceipt(s.relayers, c, r)
    requires forall i :: 0 <= i < |ListAt(s.enqueued, c)| ==>
      ListAt(s.enqueued, c)[i].receivedMessageID != r.receivedMessageID
    ensures Inv(chain, Enqueue(s, c, r))
  {
    hide Size, Encode, Ids, Entries, Logged, CreditInv, RewardInv, Solvent, DeliveryInv, ExecInv, ReceiptInv;
    var t := Enqueue(s, c, r);
    forall x {:trigger ListAt(t.enqueued, x)}
      ensures LaneInv(t.relayers, x, ListAt(t.drained, x), ListAt(t.queues, x), ListAt(t.enqueued, x))
    {
      assert LaneInv(s.relayers, x, ListAt(s.drained, x), ListAt(s.queues, x), ListAt(s.enqueued, x));
    }
  }
}
