// The receipts that sent messages carry: those taken from the queues are, over every
// run and all nested calls, just what the messages brought, in batches of full size.
module TeleporterBatches {
  import opened Words
  import opened MessageCodec
  import opened Teleporter
  import opened TeleporterInvariants
  import opened TeleporterCalls

  ghost function CarriedBy(messages: map<Key, Message>, automatic: map<Key, nat>, k: Key): seq<Receipt> {
    if k in automatic && k in messages then messages[k].receipts else []
  }

  // The receipts in the messages 1 to n to chain c that took theirs from the queue.
  ghost function AutoReceipts(messages: map<Key, Message>, automatic: map<Key, nat>, c: Word, n: Word): seq<Receipt> {
    if n == 0 then []
    else AutoReceipts(messages, automatic, c, n - 1) + CarriedBy(messages, automatic, Key(c, n))
  }

  // Message k took all receipts that were queued when it was sent, five at most: those
  // put into the queue by then and not in an earlier message.
  ghost predicate FullBatch(messages: map<Key, Message>, automatic: map<Key, nat>, k: Key)
    requires k in messages && k in automatic && k.id > 0
  {
    var earlier := |AutoReceipts(messages, automatic, k.chain, k.id - 1)|;
    earlier <= automatic[k] && |messages[k].receipts| == BatchSize(automatic[k] - earlier)
  }

  // A message that did not take receipts from the queue asks for nothing to be executed.
  ghost predicate GoodBatch(messages: map<Key, Message>, automatic: map<Key, nat>, enqueued: map<Word, seq<Receipt>>,
                            k: Key)
    requires k in messages
  {
    if k in automatic then
      k.id > 0 && FullBatch(messages, automatic, k) && automatic[k] <= |ListAt(enqueued, k.chain)|
    else messages[k].destinationAddress == 0 && messages[k].message == []
  }

  // Each message found in the queue's history all that the earlier ones found, or more.
  ghost predicate Growing(automatic: map<Key, nat>) {
    forall k, l :: k in automatic && l in automatic && k.chain == l.chain && k.id <= l.id ==>
      automatic[k] <= automatic[l]
  }

  ghost predicate Batches(s: State) {
    && s.automatic.Keys <= s.messages.Keys && Growing(s.automatic)
    && (forall c :: ListAt(s.drained, c) == AutoReceipts(s.messages, s.automatic, c, Lookup(s.latest, c)))
    && (forall k :: k in s.messages ==> GoodBatch(s.messages, s.automatic, s.enqueued, k))
  }

  // ---------- calls that send nothing new ----------

  ghost predicate SameBatches(s: State, t: State) {
    && t.messages == s.messages && t.automatic == s.automatic && t.latest == s.latest && t.drained == s.drained
    && (forall c :: ListAt(s.enqueued, c) <= ListAt(t.enqueued, c))
  }

  lemma SameKeepsBatches(s: State, t: State)
    requires Batches(s) && SameBatches(s, t)
    ensures Batches(t)
  {
    hide Size, FullBatch, AutoReceipts, Growing;
    forall k | k in t.messages
      ensures GoodBatch(t.messages, t.automatic, t.enqueued, k)
    {
      assert GoodBatch(s.messages, s.automatic, s.enqueued, k);
      assert ListAt(s.enqueued, k.chain) <= ListAt(t.enqueued, k.chain);
    }
  }

  lemma SendsNothing(env: Env, s: State, call: Call)
    requires call.RetrySend? || call.AddFee? || call.Redeem? || call.Donate?
    ensures SameBatches(s, Do(env, s, call))
  {
    hide Size, Encode;
  }

  // ---------- sends ----------

  // A message sent later does not count for the earlier ones.
  lemma {:induction false} LaterMessage(messages: map<Key, Message>, automatic: map<Key, nat>, key: Key, m: Message,
                                        size: nat, c: Word, n: Word)
    requires c == key.chain ==> n < key.id
    ensures AutoReceipts(messages[key := m], automatic, c, n) == AutoReceipts(messages, automatic, c, n)
    ensures AutoReceipts(messages[key := m], automatic[key := size], c, n) == AutoReceipts(messages, automatic, c, n)
    decreases n
  {
    hide Size;
    if n > 0 {
      LaterMessage(messages, automatic, key, m, size, c, n - 1);
    }
  }

  // The messages already sent stay good when one with a new id joins them.
  lemma OldBatches(messages: map<Key, Message>, automatic: map<Key, nat>, automatic': map<Key, nat>,
                   enqueued: map<Word, seq<Receipt>>, key: Key, m: Message, size: nat, k: Key)
    requires k in messages && k != key && GoodBatch(messages, automatic, enqueued, k)
    requires k.chain == key.chain ==> k.id < key.id
    requires automatic' == automatic || automatic' == automatic[key := size]
    ensures GoodBatch(messages[key := m], automatic', enqueued, k)
  {
    hide Size, AutoReceipts;
    if k in automatic {
      LaterMessage(messages, automatic, key, m, size, k.chain, k.id - 1);
    }
  }

  ghost predicate NewKey(s: State, key: Key) {
    && key.id == Lookup(s.latest, key.chain) + 1 && key !in s.messages
    && (forall k :: k in s.messages && k.chain == key.chain ==> k.id < key.id)
  }

  lemma NextKeyIsNew(s: State, key: Key)
    requires SendingInv(s) && key.id == Lookup(s.latest, key.chain) + 1
    ensures NewKey(s, key)
  {
    hide Size, Encode, Logged, Entries;
    forall k | k in s.messages
      ensures InRange(s.latest, k)
    {
    }
    assert !InRange(s.latest, key);
  }

  // What a send does to the batches: message m under a new key, with `taken` receipts off
  // the queue if `isAutomatic`.
  ghost predicate SentBatch(s: State, t: State, key: Key, m: Message, isAutomatic: bool, taken: seq<Receipt>) {
    && t.messages == s.messages[key := m] && t.latest == s.latest[key.chain := key.id] && t.enqueued == s.enqueued
    && (if isAutomatic
        then t.automatic == s.automatic[key := |ListAt(s.enqueued, key.chain)|]
             && t.drained == s.drained[key.chain := ListAt(s.drained, key.chain) + taken] && m.receipts == taken
        else t.automatic == s.automatic && t.drained == s.drained)
  }

  lemma SentKeepsDrained(s: State, t: State, key: Key, m: Message, isAutomatic: bool, taken: seq<Receipt>, c: Word)
    requires Batches(s) && NewKey(s, key) && SentBatch(s, t, key, m, isAutomatic, taken)
    ensures ListAt(t.drained, c) == AutoReceipts(t.messages, t.automatic, c, Lookup(t.latest, c))
  {
    hide Size, GoodBatch;
    var n := if c == key.chain then key.id - 1 else Lookup(s.latest, c);
    assert ListAt(s.drained, c) == AutoReceipts(s.messages, s.automatic, c, n);
    LaterMessage(s.messages, s.automatic, key, m, |ListAt(s.enqueued, key.chain)|, c, n);
  }

  lemma SentKeepsGrowing(s: State, t: State, key: Key, m: Message, isAutomatic: bool, taken: seq<Receipt>)
    requires Batches(s) && NewKey(s, key) && SentBatch(s, t, key, m, isAutomatic, taken)
    ensures Growing(t.automatic)
  {
    hide Size, FullBatch, AutoReceipts;
    forall k | k in s.automatic && k.chain == key.chain
      ensures k.id < key.id && s.automatic[k] <= |ListAt(s.enqueued, key.chain)|
    {
      assert GoodBatch(s.messages, s.automatic, s.enqueued, k);
    }
  }

  lemma SentKeepsBatches(s: State, t: State, key: Key, m: Message, isAutomatic: bool, taken: seq<Receipt>)
    requires Batches(s) && NewKey(s, key) && SentBatch(s, t, key, m, isAutomatic, taken)
    requires var queued := |ListAt(s.enqueued, key.chain)| - |ListAt(s.drained, key.chain)|;
      if isAutomatic then queued >= 0 && |taken| == BatchSize(queued)
      else m.destinationAddress == 0 && m.message == []
    ensures Batches(t)
  {
    hide Size, AutoReceipts, GoodBatch, BatchSize, Growing;
    forall c
      ensures ListAt(t.drained, c) == AutoReceipts(t.messages, t.automatic, c, Lookup(t.latest, c))
    {
      SentKeepsDrained(s, t, key, m, isAutomatic, taken, c);
    }
    SentKeepsGrowing(s, t, key, m, isAutomatic, taken);
    forall k | k in t.messages
      ensures GoodBatch(t.messages, t.automatic, t.enqueued, k)
    {
      if k == key {
        NewBatch(s, t, key, m, isAutomatic, taken);
      } else {
        OldBatches(s.messages, s.automatic, t.automatic, s.enqueued, key, m, |ListAt(s.enqueued, key.chain)|, k);
      }
    }
  }

  lemma NewBatch(s: State, t: State, key: Key, m: Message, isAutomatic: bool, taken: seq<Receipt>)
    requires Batches(s) && NewKey(s, key) && SentBatch(s, t, key, m, isAutomatic, taken)
    requires var queued := |ListAt(s.enqueued, key.chain)| - |ListAt(s.drained, key.chain)|;
      if isAutomatic then queued >= 0 && |taken| == BatchSize(queued)
      else m.destinationAddress == 0 && m.message == []
    ensures GoodBatch(t.messages, t.automatic, t.enqueued, key)
  {
    hide Size, AutoReceipts, BatchSize;
    LaterMessage(s.messages, s.automatic, key, m, |ListAt(s.enqueued, key.chain)|, key.chain, key.id - 1);
  }

  // ---------- calls ----------

  lemma SendIsSentBatch(s: State, sender: Address, input: MessageInput, rs: seq<Receipt>, pull: Pull)
    ensures var r := Send(s, sender, input, rs, pull); r.Some? ==>
      && Lookup(s.latest, input.destinationBlockchainID) < MAX_WORD
      && var key := Key(input.destinationBlockchainID, Lookup(s.latest, input.destinationBlockchainID) + 1);
      && key in r.value.messages && var m := r.value.messages[key];
      && SentBatch(s, r.value, key, m, false, []) && m.receipts == rs
      && m.destinationAddress == input.destinationAddress && m.message == input.message
      && Lookup(r.value.latest, key.chain) == key.id
  {
    hide Size, Encode, Send, BuildMessage;
    SendUpdates(s, sender, input, rs, pull);
    if Send(s, sender, input, rs, pull).Some? {
      BuiltAsAsked(Lookup(s.latest, input.destinationBlockchainID) + 1, sender, input, rs);
    }
  }

  lemma SendUpdates(s: State, sender: Address, input: MessageInput, rs: seq<Receipt>, pull: Pull)
    ensures var r := Send(s, sender, input, rs, pull); var c := input.destinationBlockchainID; r.Some? ==>
      && Lookup(s.latest, c) < MAX_WORD
      && var id := Lookup(s.latest, c) + 1; var m := BuildMessage(id, sender, input, rs);
      && m.Some? && r.value.messages == s.messages[Key(c, id) := m.value] && r.value.latest == s.latest[c := id]
      && (r.value.enqueued, r.value.automatic, r.value.drained) == (s.enqueued, s.automatic, s.drained)
  {
    hide Size, Encode, ChargeFee, BuildMessage;
  }

  lemma TrySendIsSentBatch(s: State, caller: Address, input: MessageInput, pull: Pull)
    ensures var r := TrySend(s, caller, input, pull); r.Some? ==>
      var c := input.destinationBlockchainID;
      && Lookup(s.latest, c) < MAX_WORD && var key := Key(c, Lookup(s.latest, c) + 1);
      && key in r.value.messages && var m := r.value.messages[key];
      && SentBatch(s, r.value, key, m, true, m.receipts)
      && |m.receipts| == BatchSize(|ListAt(s.queues, c)|)
  {
    hide Size, Send, BatchSize;
    var (t, rs) := Drain(s, input.destinationBlockchainID);
    DrainTakesOldest(s, input.destinationBlockchainID);
    SendIsSentBatch(t, caller, input, rs, pull);
  }

  lemma QueueIsRest(s: State, c: Word)
    requires ReturnInv(s)
    ensures |ListAt(s.queues, c)| == |ListAt(s.enqueued, c)| - |ListAt(s.drained, c)|
  {
    hide Size, ReceiptInv;
    assert LaneInv(s.relayers, c, ListAt(s.drained, c), ListAt(s.queues, c), ListAt(s.enqueued, c));
  }

  lemma TrySendKeepsBatches(chain: Word, s: State, caller: Address, input: MessageInput, pull: Pull)
    requires Inv(chain, s) && Batches(s)
    ensures var r := TrySend(s, caller, input, pull); r.Some? ==> Batches(r.value)
  {
    hide Size, Batches, TrySend, SendingInv, MoneyInv, ReceivingInv, ReturnInv, SentBatch, NewKey, BatchSize;
    var r := TrySend(s, caller, input, pull);
    if r.Some? {
      var c := input.destinationBlockchainID;
      TrySendIsSentBatch(s, caller, input, pull);
      var key := Key(c, Lookup(s.latest, c) + 1);
      QueueIsRest(s, c);
      NextKeyIsNew(s, key);
      var m := r.value.messages[key];
      SentKeepsBatches(s, r.value, key, m, true, m.receipts);
    }
  }

  lemma TrySendReceiptsKeepsBatches(chain: Word, s: State, caller: Address, origin: Word, ids: seq<Word>, fee: Fee,
                                    allowed: seq<Address>, pull: Pull)
    requires Inv(chain, s) && Batches(s)
    ensures var r := TrySendReceipts(s, caller, origin, ids, fee, allowed, pull); r.Some? ==> Batches(r.value)
  {
    hide Size, Batches, Send, SendingInv, MoneyInv, ReceivingInv, ReturnInv, SentBatch, NewKey;
    var r := TrySendReceipts(s, caller, origin, ids, fee, allowed, pull);
    if r.Some? {
      var rs := CollectReceipts(s.relayers, origin, ids).value;
      SendIsSentBatch(s, caller, MessageInput(origin, 0, fee, 0, allowed, []), rs, pull);
      var key := Key(origin, Lookup(s.latest, origin) + 1);
      NextKeyIsNew(s, key);
      SentKeepsBatches(s, r.value, key, r.value.messages[key], false, []);
    }
  }

  lemma PlainCallKeepsBatches(env: Env, s: State, call: Call)
    requires Inv(env.chain, s) && Batches(s) && (s.receiving || !ReceiverCall(call))
    ensures Batches(Do(env, s, call))
  {
    hide Inv, Size, Batches, TrySend, TrySendReceipts, SameBatches;
    match call
    case SendMessage(caller, input, pull) => TrySendKeepsBatches(env.chain, s, caller, input, pull);
    case SendReceipts(caller, origin, ids, fee, allowed, pull) =>
      TrySendReceiptsKeepsBatches(env.chain, s, caller, origin, ids, fee, allowed, pull);
    case Receive(_, _, _, _, _) =>
    case RetryExecution(_, _, _) =>
    case _ =>
      SendsNothing(env, s, call);
      SameKeepsBatches(s, Do(env, s, call));
  }

  lemma {:induction false} NestedCallsKeepBatches(env: Env, s: State, calls: seq<Call>)
    requires Inv(env.chain, s) && s.receiving && Batches(s)
    ensures Batches(RunCalls(env, s, calls))
    decreases |calls|
  {
    hide Inv, Batches, Do;
    if calls != [] {
      PlainCallKeepsInv(env, s, calls[0]);
      PlainCallExtends(env, s, calls[0]);
      PlainCallKeepsBatches(env, s, calls[0]);
      NestedCallsKeepBatches(env, Do(env, s, calls[0]), calls[1..]);
    }
  }

  lemma ExecuteKeepsBatches(env: Env, s: State, origin: Word, m: Message, callee: Callee)
    requires Inv(env.chain, s) && s.receiving && Batches(s)
    ensures Batches(Execute(env, s, origin, m, callee))
  {
    hide Inv, Size, Encode, Batches, RunCalls;
    if callee.Contract? && callee.succeeds {
      NestedCallsKeepBatches(env, s, callee.calls);
      var t := RunCalls(env, s, callee.calls);
      SameKeepsBatches(t, Executed(t, origin, m));
    } else {
      SameKeepsBatches(s, StoreFailed(s, origin, m));
    }
  }

  lemma SettleKeepsBatches(chain: Word, s: State, origin: Word, m: Message, reward: Address)
    requires Inv(chain, s) && Batches(s)
    ensures var r := Settle(s, origin, m, reward); r.Some? ==> Batches(r.value)
  {
    hide Inv, Size, Batches, MarkReceipts;
    MarkReceiptsKeepInv(chain, s, origin, m.receipts);
    SameKeepsBatches(s, Settle(s, origin, m, reward).value);
  }

  lemma ReceiveKeepsBatches(env: Env, s: State, call: Call)
    requires Inv(env.chain, s) && Batches(s) && call.Receive?
    ensures Batches(Do(env, s, call))
  {
    hide Inv, Size, Encode, Decode, Batches, Execute, Settle, Running, Extends, RanOnce;
    var accepted := Accept(env, s, call.deliverer, call.warp, call.rewardAddress);
    if accepted.Some? {
      var (a, m) := accepted.value;
      AcceptRuns(env, s, call.deliverer, call.warp, call.rewardAddress);
      RunningReceives(a, Key(call.warp.source, m.messageID), m);
      SameKeepsBatches(s, a);
      if m.message != [] {
        ExecuteKeepsBatches(env, a, call.warp.source, m, call.callee);
      }
      var e := AfterExecution(env, a, call.warp.source, m, call.callee);
      AfterExecutionKeeps(env, a, call.warp.source, m, call.callee);
      SettleKeepsBatches(env.chain, e, call.warp.source, m, call.rewardAddress);
    }
  }

  lemma RunningReceives(s: State, key: Key, m: Message)
    requires Running(s, key, m)
    ensures s.receiving
  {
  }

  lemma RetryKeepsBatches(env: Env, s: State, call: Call)
    requires Inv(env.chain, s) && Batches(s) && call.RetryExecution?
    ensures Batches(Do(env, s, call))
  {
    hide Inv, Size, Encode, Batches, RunCalls, Extends, Retried;
    if Try(env, s, call).Some? {
      AcceptRetryKeeps(env.chain, s, call.origin, call.message);
      var a := AcceptRetry(s, call.origin, call.message).value;
      SameKeepsBatches(s, a);
      NestedCallsKeepBatches(env, a, call.callee.calls);
      var t := RunCalls(env, a, call.callee.calls);
      SameKeepsBatches(t, t.(receiving := false));
    }
  }

  // Every call, with all that its receiver calls in turn, keeps the batches.
  lemma CallKeepsBatches(env: Env, s: State, call: Call)
    requires Inv(env.chain, s) && Batches(s)
    ensures Batches(Do(env, s, call))
  {
    hide Inv, Batches, Do;
    if call.Receive? {
      ReceiveKeepsBatches(env, s, call);
    } else if call.RetryExecution? {
      RetryKeepsBatches(env, s, call);
    } else {
      PlainCallKeepsBatches(env, s, call);
    }
  }
}
