// Any number of chains that run TeleporterMessenger at the same address, with relayers
// that deliver the messages Warp has signed in any order, as often as they like.
module TeleporterNetwork {
  import opened Words
  import opened MessageCodec
  import opened Teleporter
  import opened TeleporterInvariants
  import opened TeleporterCalls
  import opened TeleporterBatches

  datatype Network = Network(teleporter: Address, chains: map<Word, State>, signed: set<WarpMessage>)

  // A top-level call on one chain, or a Warp message of another contract being signed.
  datatype Step = OnChain(chain: Word, call: Call) | ForeignWarp(warp: WarpMessage)

  ghost function Start(teleporter: Address, ids: set<Word>): Network {
    Network(teleporter, map c | c in ids :: INITIAL, {})
  }

  ghost function Published(chain: Word, sender: Address, payloads: seq<Bytes>): set<WarpMessage> {
    set b | b in payloads :: WarpMessage(chain, sender, b)
  }

  ghost function EnvOf(net: Network, chain: Word): Env {
    Env(chain, net.teleporter, net.signed)
  }

  // Warp is authentic: validators sign only what the sender on the source chain published.
  ghost function Next(net: Network, step: Step): Network {
    match step
    case OnChain(chain, call) =>
      if chain !in net.chains then net
      else
        var t := Do(EnvOf(net, chain), net.chains[chain], call);
        Network(net.teleporter, net.chains[chain := t],
                net.signed + Published(chain, net.teleporter, t.warpLog))
    case ForeignWarp(warp) =>
      if warp.sender == net.teleporter then net else net.(signed := net.signed + {warp})
  }

  ghost function Run(net: Network, steps: seq<Step>): Network {
    if steps == [] then net else Next(Run(net, steps[..|steps| - 1]), steps[|steps| - 1])
  }

  // ---------- the invariant ----------

  ghost predicate Authentic(net: Network, w: WarpMessage) {
    w.sender == net.teleporter ==> w.source in net.chains && w.payload in net.chains[w.source].warpLog
  }

  // What was delivered on chain c under key k is what chain k.chain sent to c with that id.
  ghost predicate WasSent(chains: map<Word, State>, c: Word, k: Key, m: Message) {
    k.chain in chains && Key(c, k.id) in chains[k.chain].messages
    && chains[k.chain].messages[Key(c, k.id)] == m
  }

  // A credit on chain c went to the address that the destination recorded at the delivery.
  ghost predicate WasEarned(chains: map<Word, State>, c: Word, x: Credit) {
    x.key.chain in chains && Key(c, x.key.id) in chains[x.key.chain].relayers
    && chains[x.key.chain].relayers[Key(c, x.key.id)] == x.relayer
  }

  ghost predicate DeliveriesSent(chains: map<Word, State>, c: Word, deliveries: map<Key, Delivery>) {
    forall k :: k in deliveries ==> WasSent(chains, c, k, deliveries[k].message)
  }

  ghost predicate CreditsEarned(chains: map<Word, State>, c: Word, credits: seq<Credit>) {
    forall i :: 0 <= i < |credits| ==> WasEarned(chains, c, credits[i])
  }

  ghost predicate AllPublished(net: Network, c: Word, warpLog: seq<Bytes>) {
    forall b :: b in warpLog ==> WarpMessage(c, net.teleporter, b) in net.signed
  }

  ghost predicate ChainInv(net: Network, c: Word)
    requires c in net.chains
  {
    var s := net.chains[c];
    && Inv(c, s) && Quiet(s) && AllPublished(net, c, s.warpLog)
    && DeliveriesSent(net.chains, c, s.deliveries) && CreditsEarned(net.chains, c, s.credits)
  }

  ghost predicate NetInv(net: Network) {
    && (forall c :: c in net.chains ==> ChainInv(net, c))
    && (forall w :: w in net.signed ==> Authentic(net, w))
  }

  // ---------- steps keep it ----------

  // What a signed Teleporter message says was sent by its source, with true receipts.
  lemma SignedIsSent(net: Network, w: WarpMessage, m: Message)
    requires NetInv(net) && w in net.signed && w.sender == net.teleporter
    requires Decode(w.payload) == Some(m)
    ensures w.source in net.chains
    ensures WasSent(net.chains, m.destinationBlockchainID, Key(w.source, m.messageID), m)
    ensures TrueReceipts(net.chains[w.source].relayers, m.destinationBlockchainID, m.receipts)
  {
    hide Encode, Decode, Size, Quiet, DeliveriesSent, CreditsEarned, AllPublished;
    hide MoneyInv, ReceivingInv, QueueInv, Entries;
    assert Authentic(net, w) && ChainInv(net, w.source);
    var messages := net.chains[w.source].messages;
    var k :| k in messages && w.payload == Encode(messages[k]);
    RoundTrip(messages[k]);
    assert IdentifiedBy(messages[k], k);
  }

  lemma ChainGrows(chains: map<Word, State>, c: Word, t: State, x: Word)
    requires c in chains && x in chains && Extends(chains[c], t)
    requires DeliveriesSent(chains, x, chains[x].deliveries) && CreditsEarned(chains, x, chains[x].credits)
    ensures DeliveriesSent(chains[c := t], x, chains[x].deliveries)
    ensures CreditsEarned(chains[c := t], x, chains[x].credits)
  {
    hide Size;
    forall k | k in chains[x].deliveries
      ensures WasSent(chains[c := t], x, k, chains[x].deliveries[k].message)
    {
      assert WasSent(chains, x, k, chains[x].deliveries[k].message);
    }
    forall i | 0 <= i < |chains[x].credits|
      ensures WasEarned(chains[c := t], x, chains[x].credits[i])
    {
      assert WasEarned(chains, x, chains[x].credits[i]);
    }
  }

  // The new entries of a chain that commits a delivery.
  lemma DeliveryIsTrue(net: Network, c: Word, t: State, call: Call)
    requires NetInv(net) && c in net.chains && call.Receive? && Extends(net.chains[c], t)
    requires var s := net.chains[c]; var r := Accept(EnvOf(net, c), s, call.deliverer, call.warp, call.rewardAddress);
      r.Some? && Delivered(s, t, Key(call.warp.source, r.value.1.messageID), r.value.1,
                           call.deliverer, call.rewardAddress, Succeeds(call.callee))
    ensures DeliveriesSent(net.chains[c := t], c, t.deliveries)
    ensures CreditsEarned(net.chains[c := t], c, t.credits)
  {
    hide Encode, Decode, Size, Quiet, NetInv, SendingInv, MoneyInv, ReturnInv, DeliveryInv, ExecInv;
    var s, chains := net.chains[c], net.chains[c := t];
    assert ChainInv(net, c) by { ChainOf(net, c); }
    var m := Accept(EnvOf(net, c), s, call.deliverer, call.warp, call.rewardAddress).value.1;
    var key := Key(call.warp.source, m.messageID);
    assert m.destinationBlockchainID == c;
    SignedIsSent(net, call.warp, m);
    ChainGrows(net.chains, c, t, c);
    forall i | |s.credits| <= i < |t.credits|
      ensures WasEarned(chains, c, t.credits[i])
    {
      var x := t.credits[|s.credits|..][i - |s.credits|];
      assert x == t.credits[i] && Receipt(x.key.id, x.relayer) in m.receipts;
      var j :| 0 <= j < |m.receipts| && m.receipts[j] == Receipt(x.key.id, x.relayer);
      assert TrueReceipt(net.chains[call.warp.source].relayers, c, m.receipts[j]);
    }
  }

  lemma ChainOf(net: Network, c: Word)
    requires NetInv(net) && c in net.chains
    ensures ChainInv(net, c)
  {
  }

  lemma ProgressIsTrue(net: Network, c: Word, call: Call)
    requires NetInv(net) && c in net.chains
    ensures var s := net.chains[c]; var t := Do(EnvOf(net, c), s, call);
      && Inv(c, t) && Quiet(t) && Extends(s, t)
      && DeliveriesSent(net.chains[c := t], c, t.deliveries)
      && CreditsEarned(net.chains[c := t], c, t.credits)
  {
    hide Inv, Quiet, Extends, Do, NetInv, Delivered, Accept, DeliveriesSent, CreditsEarned, Size;
    ChainOf(net, c);
    var env, s := EnvOf(net, c), net.chains[c];
    var t := Do(env, s, call);
    CallProgresses(env, s, call);
    CallKeepsQuiet(env, s, call);
    ChainGrows(net.chains, c, t, c);
    if !Locked(s, t) && call.Receive? {
      DeliveryIsTrue(net, c, t, call);
    }
  }

  lemma NextKeepsInv(net: Network, step: Step)
    requires NetInv(net)
    ensures NetInv(Next(net, step))
  {
    hide Inv, Quiet, Extends, Do, DeliveriesSent, CreditsEarned, Size;
    if step.OnChain? && step.chain in net.chains {
      var c, after := step.chain, Next(net, step);
      ProgressIsTrue(net, c, step.call);
      forall x | x in after.chains
        ensures ChainInv(after, x)
      {
        assert ChainInv(net, x);
        if x != c {
          ChainGrows(net.chains, c, after.chains[c], x);
        }
      }
      LogsGrow(net, step);
    }
  }

  lemma LogsGrow(net: Network, step: Step)
    requires NetInv(net) && step.OnChain? && step.chain in net.chains
    ensures forall w :: w in Next(net, step).signed ==> Authentic(Next(net, step), w)
  {
    hide Inv, Quiet, Extends, Size;
    var c := step.chain;
    LogGrows(EnvOf(net, c), net.chains[c], step.call);
  }

  lemma LogGrows(env: Env, s: State, call: Call)
    requires Inv(env.chain, s)
    ensures forall b :: b in s.warpLog ==> b in Do(env, s, call).warpLog
  {
    hide Encode, Size, Do, Progress, MoneyInv, ReceivingInv, ReturnInv, Ids, Entries;
    CallProgresses(env, s, call);
    var t := Do(env, s, call);
    forall b | b in s.warpLog
      ensures b in t.warpLog
    {
      assert IsEncoded(s.messages, b);
    }
  }

  // In every run the invariant holds at the end, hence all along.
  lemma {:induction false} EveryRunIsSafe(teleporter: Address, ids: set<Word>, steps: seq<Step>)
    ensures NetInv(Run(Start(teleporter, ids), steps))
  {
    hide Inv, Size;
    if steps == [] {
      forall c | c in ids
        ensures Inv(c, INITIAL)
      {
        InitialInv(c);
      }
    } else {
      EveryRunIsSafe(teleporter, ids, steps[..|steps| - 1]);
      NextKeepsInv(Run(Start(teleporter, ids), steps[..|steps| - 1]), steps[|steps| - 1]);
    }
  }

  ghost predicate Reachable(net: Network) {
    exists teleporter: Address, ids: set<Word>, steps: seq<Step> ::
      net == Run(Start(teleporter, ids), steps)
  }

  lemma ReachableIsSafe(net: Network)
    requires Reachable(net)
    ensures NetInv(net)
  {
    var teleporter, ids, steps :| net == Run(Start(teleporter, ids), steps);
    EveryRunIsSafe(teleporter, ids, steps);
  }

  // ---------- what relayers can rely on ----------

  // Every message sent is either live, holding all fees received for it, or was credited
  // exactly once, with all these fees, to the address that the destination recorded when
  // the message was delivered there.
  lemma CreditedExactlyOnce(net: Network, c: Word, key: Key)
    requires Reachable(net) && c in net.chains
    ensures var s := net.chains[c];
      && (key in s.messages <==> 1 <= key.id <= Lookup(s.latest, key.chain))
      && (key in s.sent ==> key in s.fees && IsTotal(s.sent[key].fee, s.fees[key]))
      && (key in s.sent ==> forall i :: 0 <= i < |s.credits| ==> s.credits[i].key != key)
      && (key in s.messages && key !in s.sent ==> exists i :: 0 <= i < |s.credits| && Earned(net, c, key, s.credits[i]))
      && (forall i, j :: 0 <= i < j < |s.credits| ==> s.credits[i].key != s.credits[j].key)
  {
    hide Encode, Size, Quiet, ReceivingInv, ReturnInv, Logged, RewardInv, Solvent;
    ReachableIsSafe(net);
    assert ChainInv(net, c);
    var s := net.chains[c];
    assert key in s.messages <==> InRange(s.latest, key);
    FeesOfMessages(s);
    assert forall i :: 0 <= i < |s.credits| ==> CreditOk(s.fees, s.sent, s.credits[i]);
    if key in s.messages && key !in s.sent {
      assert IsCredited(s.credits, key);
      var i :| 0 <= i < |s.credits| && s.credits[i].key == key;
      assert WasEarned(net.chains, c, s.credits[i]);
      assert Earned(net, c, key, s.credits[i]);
    }
  }

  ghost predicate Earned(net: Network, c: Word, key: Key, x: Credit)
    requires c in net.chains
  {
    && x.key == key && key in net.chains[c].fees && IsTotal(x.fee, net.chains[c].fees[key])
    && key.chain in net.chains && Key(c, key.id) in net.chains[key.chain].relayers
    && x.relayer == net.chains[key.chain].relayers[Key(c, key.id)]
  }

  // Whoever has a reward can redeem all of it: what was ever credited to an account is
  // what it has redeemed and what it can still redeem, and the balance covers it.
  lemma RewardsArePayable(net: Network, c: Word, a: Account)
    requires Reachable(net) && c in net.chains
    ensures var s := net.chains[c];
      && Lookup(s.rewards, a) + TotalAt(s.redeemed, a) == Credited(s.credits, a)
      && (TryRedeem(s, a).Some? <==> Lookup(s.rewards, a) > 0)
      && Balanced(s.balances, s.donated, s.sent, s.rewards, a.token)
  {
    hide Size, Encode, SendingInv, ReceivingInv, ReturnInv, Quiet, CreditInv;
    ReachableIsSafe(net);
    assert ChainInv(net, c);
    RedeemKeepsInv(c, net.chains[c], a);
  }

  // Every message sent, once signed by Warp, can be delivered exactly by an allowed
  // relayer who names a reward address and brings the required gas, and exactly once.
  lemma DeliverableOnce(net: Network, source: Word, c: Word, id: Word, call: Call)
    requires Reachable(net) && source in net.chains && c in net.chains
    requires Key(c, id) in net.chains[source].messages && call.Receive?
    requires var m := net.chains[source].messages[Key(c, id)];
      call.warp == WarpMessage(source, net.teleporter, Encode(m))
    ensures var m, s := net.chains[source].messages[Key(c, id)], net.chains[c];
      Try(EnvOf(net, c), s, call).Some? <==>
        && call.rewardAddress != 0 && Key(source, id) !in s.relayers
        && (m.allowedRelayerAddresses == [] || call.deliverer in m.allowedRelayerAddresses)
        && (m.message == [] || call.enoughGas)
  {
    hide Inv, Encode, Decode, Size, Quiet, ChainInv, Accept, Extends, Delivered, Try;
    ReachableIsSafe(net);
    var m := net.chains[source].messages[Key(c, id)];
    SentIsSigned(net, source, Key(c, id));
    RoundTrip(m);
    ChainOf(net, c);
    ChainIsQuiet(net, c);
    AcceptedIff(EnvOf(net, c), net.chains[c], call.deliverer, call.warp, call.rewardAddress, m);
    ReceiveEffect(EnvOf(net, c), net.chains[c], call);
  }

  lemma SentIsSigned(net: Network, source: Word, key: Key)
    requires NetInv(net) && source in net.chains && key in net.chains[source].messages
    ensures var m := net.chains[source].messages[key];
      && WarpMessage(source, net.teleporter, Encode(m)) in net.signed
      && m.messageID == key.id && m.destinationBlockchainID == key.chain
  {
    hide Encode, Size, Quiet, DeliveriesSent, CreditsEarned, MoneyInv, ReceivingInv, ReturnInv, Entries;
    assert ChainInv(net, source);
    var m := net.chains[source].messages[key];
    assert IdentifiedBy(m, key) && Encode(m) in net.chains[source].warpLog;
  }

  lemma ChainIsQuiet(net: Network, c: Word)
    requires NetInv(net) && c in net.chains
    ensures Inv(c, net.chains[c]) && !net.chains[c].receiving
  {
    hide Inv;
    assert ChainInv(net, c);
  }

  lemma AcceptedIff(env: Env, s: State, deliverer: Address, warp: WarpMessage, reward: Address, m: Message)
    requires Inv(env.chain, s) && !s.receiving
    requires warp in env.signed && warp.sender == env.teleporter
    requires Decode(warp.payload) == Some(m) && m.destinationBlockchainID == env.chain
    ensures var r := Accept(env, s, deliverer, warp, reward);
      && (r.Some? <==> reward != 0 && Key(warp.source, m.messageID) !in s.relayers
                       && AllowedRelayer(deliverer, m.allowedRelayerAddresses))
      && (r.Some? ==> r.value.1 == m)
  {
    hide Encode, Decode, Size, SendingInv, MoneyInv, ReturnInv, DeliveryInv, ExecInv;
  }

  // What was executed on a chain was sent to it by the named chain, was delivered by a
  // relayer that the sender allowed, and was executed once.
  lemma ExecutedWasSent(net: Network, c: Word, i: nat)
    requires Reachable(net) && c in net.chains && i < |net.chains[c].executed|
    ensures var s := net.chains[c]; var k := s.executed[i];
      && k in s.deliveries && WasSent(net.chains, c, k, s.deliveries[k].message)
      && (s.deliveries[k].message.allowedRelayerAddresses == []
          || s.deliveries[k].deliverer in s.deliveries[k].message.allowedRelayerAddresses)
      && k !in s.failed && forall j :: 0 <= j < |s.executed| && j != i ==> s.executed[j] != k
  {
    hide Size, Encode, SendingInv, MoneyInv, ReturnInv, CreditsEarned, AllPublished;
    ReachableIsSafe(net);
    assert ChainInv(net, c);
    var s := net.chains[c];
    var k := s.executed[i];
    assert k in s.executed && GoodDelivery(c, k, s.deliveries[k]);
  }

  // ---------- receipts ----------

  ghost predicate AllBatches(net: Network) {
    forall c :: c in net.chains ==> Batches(net.chains[c])
  }

  lemma {:induction false} EveryRunHasBatches(teleporter: Address, ids: set<Word>, steps: seq<Step>)
    ensures AllBatches(Run(Start(teleporter, ids), steps))
  {
    hide Inv, Size, Batches, NetInv, Do;
    if steps == [] {
      InitialBatches();
    } else {
      var net, step := Run(Start(teleporter, ids), steps[..|steps| - 1]), steps[|steps| - 1];
      EveryRunHasBatches(teleporter, ids, steps[..|steps| - 1]);
      EveryRunIsSafe(teleporter, ids, steps[..|steps| - 1]);
      if step.OnChain? && step.chain in net.chains {
        ChainIsQuiet(net, step.chain);
        CallKeepsBatches(EnvOf(net, step.chain), net.chains[step.chain], step.call);
      }
    }
  }

  lemma InitialBatches()
    ensures Batches(INITIAL)
  {
  }

  // The receipts that chain c has sent to `source` in messages that take them from the queue.
  ghost function SentReceipts(s: State, source: Word): seq<Receipt> {
    AutoReceipts(s.messages, s.automatic, source, Lookup(s.latest, source))
  }

  // Every message delivered has exactly one receipt: the receipts in the messages sent back
  // automatically, in the order of these messages, and then those still queued are those of
  // the committed deliveries, in order. Each such message took all that was queued, five
  // receipts at most; the others run nothing.
  lemma ReceiptsInOrder(net: Network, c: Word, source: Word)
    requires Reachable(net) && c in net.chains
    ensures var s := net.chains[c]; var all := ListAt(s.enqueued, source);
      && SentReceipts(s, source) + ListAt(s.queues, source) == all && DistinctIds(all)
      && (forall id, relayer :: Receipt(id, relayer) in all <==>
            Key(source, id) in s.relayers && s.relayers[Key(source, id)] == relayer)
      && (forall k :: k in s.messages ==> GoodBatch(s.messages, s.automatic, s.enqueued, k))
      && Growing(s.automatic)
  {
    hide Inv, Quiet, Size, Batches, CreditsEarned, DeliveriesSent, AllPublished;
    ReachableIsSafe(net);
    ReachableHasBatches(net);
    assert ChainInv(net, c) && Batches(net.chains[c]);
    LaneOf(c, net.chains[c], source);
    BatchesOf(net.chains[c], source);
  }

  lemma BatchesOf(s: State, source: Word)
    requires Batches(s)
    ensures ListAt(s.drained, source) == SentReceipts(s, source)
    ensures forall k :: k in s.messages ==> GoodBatch(s.messages, s.automatic, s.enqueued, k)
    ensures Growing(s.automatic)
  {
    hide Size, GoodBatch, AutoReceipts;
  }

  // The history of a queue: what was taken and what is left, one receipt for each delivery.
  lemma LaneOf(c: Word, s: State, source: Word)
    requires Inv(c, s) && Quiet(s)
    ensures var all := ListAt(s.enqueued, source);
      && ListAt(s.drained, source) + ListAt(s.queues, source) == all && DistinctIds(all)
      && (forall id, relayer :: Receipt(id, relayer) in all <==>
            Key(source, id) in s.relayers && s.relayers[Key(source, id)] == relayer)
  {
    hide Size, Encode, SendingInv, MoneyInv, ReceivingInv, ReceiptInv, HasOutcome;
    var all := ListAt(s.enqueued, source);
    assert LaneInv(s.relayers, source, ListAt(s.drained, source), ListAt(s.queues, source), all);
    forall id, relayer
      ensures Receipt(id, relayer) in all <==>
        Key(source, id) in s.relayers && s.relayers[Key(source, id)] == relayer
    {
      if Receipt(id, relayer) in all {
        var i :| 0 <= i < |all| && all[i] == Receipt(id, relayer);
        assert TrueReceipt(s.relayers, source, all[i]);
      }
    }
  }

  lemma ReachableHasBatches(net: Network)
    requires Reachable(net)
    ensures AllBatches(net)
  {
    hide Batches, Inv, Size;
    var teleporter, ids, steps :| net == Run(Start(teleporter, ids), steps);
    EveryRunHasBatches(teleporter, ids, steps);
  }

  // A batch is all there is up to five receipts, and five of more.
  lemma BatchOfFive(n: nat)
    ensures BatchSize(n) == if n <= 5 then n else 5
  {
  }

  // ---------- added fees ----------

  // In every reachable network, what decides on an added fee is whether a receipt has come
  // back; that the message was delivered does not keep a fee from being added.
  lemma FeeCanBeAddedIff(net: Network, c: Word, key: Key, token: Address, amount: Word, pull: Pull)
    requires Reachable(net) && c in net.chains
    ensures var s := net.chains[c];
      Try(EnvOf(net, c), s, AddFee(key.chain, key.id, token, amount, pull)).Some? <==>
        && amount > 0 && token != 0
        && key in s.messages && key in s.fees && s.fees[key].token == token && !IsCredited(s.credits, key)
        && pull.Received? && pull.amount > 0 && Lookup(s.balances, token) + pull.amount <= MAX_WORD
  {
    hide Inv, TryAddFee, Size, Quiet, IsCredited;
    ReachableIsSafe(net);
    ChainIsQuiet(net, c);
    SendsAreFree(net, c);
    AddFeeAcceptedIff(c, net.chains[c], key, token, amount, pull);
  }

  lemma SendsAreFree(net: Network, c: Word)
    requires NetInv(net) && c in net.chains
    ensures !net.chains[c].sending
  {
    hide Inv;
    assert ChainInv(net, c);
  }

  // A message without payload from chain 1 to chain 2, its delivery, and a fee for it.
  const SENT: Message := Message(1, 7, 2, 8, 0, [], [], [])
  const SEND: Call := SendMessage(7, MessageInput(2, 8, Fee(3, 0), 0, [], []), Refused)
  const DELIVER: Call := Receive(9, WarpMessage(1, 5, Encode(SENT)), 9, true, NoCode)
  const ADD: Call := AddFee(2, 1, 3, 10, Received(10))

  lemma AfterSend()
    ensures var net := Next(Start(5, {1, 2}), OnChain(1, SEND)); var s := net.chains[1];
      && net.chains.Keys == {1, 2} && net.teleporter == 5 && net.chains[2] == INITIAL
      && WarpMessage(1, 5, Encode(SENT)) in net.signed
      && Key(2, 1) in s.sent && s.sent[Key(2, 1)].fee == Fee(3, 0) && !s.sending && s.balances == map[]
  {
    hide Encode;
    assert Drain(INITIAL, 2).1 == [];
  }

  lemma AfterDelivery(net: Network)
    requires net.teleporter == 5 && 2 in net.chains && net.chains[2] == INITIAL
    requires WarpMessage(1, 5, Encode(SENT)) in net.signed
    ensures Key(1, 1) in Next(net, OnChain(2, DELIVER)).chains[2].relayers
  {
    hide Encode, Decode;
    RoundTrip(SENT);
    var env := EnvOf(net, 2);
    var accepted := Accept(env, INITIAL, 9, WarpMessage(1, 5, Encode(SENT)), 9);
    assert accepted.Some? && accepted.value.1 == SENT;
    var settled := Settle(accepted.value.0, 1, SENT, 9);
    assert settled.Some? && Key(1, 1) in settled.value.relayers;
    assert Try(env, INITIAL, DELIVER) == settled;
  }

  // A documented requirement that the code does not have: the message of this run has been
  // delivered, and a fee is added to it all the same.
  lemma FeeAddedAfterDelivery()
    ensures var net := Run(Start(5, {1, 2}), [OnChain(1, SEND), OnChain(2, DELIVER)]);
      && net.chains.Keys == {1, 2}
      && Key(1, 1) in net.chains[2].relayers
      && Try(EnvOf(net, 1), net.chains[1], ADD).Some?
  {
    hide Encode, Do, TrySend;
    var first, steps := [OnChain(1, SEND)], [OnChain(1, SEND), OnChain(2, DELIVER)];
    assert steps[..1] == first && first[..0] == [];
    assert Run(Start(5, {1, 2}), first) == Next(Start(5, {1, 2}), OnChain(1, SEND));
    AfterSend();
    AfterDelivery(Run(Start(5, {1, 2}), first));
  }
}
