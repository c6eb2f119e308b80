// What each call of TeleporterMessenger brings about, in terms of its arguments and of
// the storage before and after: when it commits, what it charges, pays and emits, and
// that what a receiver did either stays or is undone.
module TeleporterEffects {
  import opened Words
  import opened MessageCodec
  import opened Teleporter
  import opened TeleporterInvariants
  import opened TeleporterCalls
  import opened TeleporterBatches
  import opened TeleporterNetwork
  import opened TeleporterPool

  // ---------- sends ----------

  // There is no fee to take, or the fee token brings something that fits.
  predicate FeeCanBeTaken(balances: map<Address, Word>, fee: Fee, pull: Pull) {
    fee.amount == 0
    || (fee.token != 0 && pull.Received? && pull.amount > 0 && Lookup(balances, fee.token) + pull.amount <= MAX_WORD)
  }

  function Brought(fee: Fee, pull: Pull): Word {
    if fee.amount == 0 || pull.Refused? then 0 else pull.amount
  }

  // The message fits memory: its head, its relayers, its receipts and its payload.
  predicate Fits(input: MessageInput, receipts: nat) {
    384 + 32 * |input.allowedRelayerAddresses| + 64 * receipts + Padded(|input.message|) <= MAX_UINT64
  }

  // Balances in all tokens are as before, but for what came in of one.
  ghost predicate Grew(before: map<Address, Word>, after: map<Address, Word>, token: Address, amount: Word) {
    forall x :: Lookup(after, x) == Lookup(before, x) + (if x == token then amount else 0)
  }

  // One entry of sentMessageInfo has changed, to this.
  ghost predicate OneEntry(before: map<Key, SentInfo>, after: map<Key, SentInfo>, key: Key, info: SentInfo) {
    && key in after && after[key] == info
    && forall k :: k != key ==> (k in after <==> k in before) && (k in before ==> after[k] == before[k])
  }

  // Message m was sent for this fee: it is the one entry that is new, the balance grew by
  // what came in, and Warp was given its encoding.
  ghost predicate SentFor(s: State, t: State, m: Message, fee: Fee, pull: Pull) {
    var key := Key(m.destinationBlockchainID, m.messageID);
    && OneEntry(s.sent, t.sent, key, SentInfo(Keccak(Encode(m)), Fee(fee.token, Brought(fee, pull))))
    && Grew(s.balances, t.balances, fee.token, Brought(fee, pull))
    && t.warpLog == s.warpLog + [Encode(m)]
    && t.latest == s.latest[key.chain := key.id]
    && t.rewards == s.rewards && t.redeemed == s.redeemed && t.donated == s.donated
  }

  lemma ChargeIff(balances: map<Address, Word>, fee: Fee, pull: Pull)
    ensures var r := ChargeFee(balances, fee, pull);
      && (r.Some? <==> FeeCanBeTaken(balances, fee, pull))
      && (r.Some? ==> r.value.1 == Brought(fee, pull) && Grew(balances, r.value.0, fee.token, Brought(fee, pull)))
  {
  }

  lemma SendEffect(s: State, sender: Address, input: MessageInput, rs: seq<Receipt>, pull: Pull)
    ensures var r := Send(s, sender, input, rs, pull); var c := input.destinationBlockchainID;
      && (r.Some? <==>
            && Lookup(s.latest, c) < MAX_WORD && Fits(input, |rs|) && FeeCanBeTaken(s.balances, input.fee, pull))
      && (r.Some? ==>
            && Lookup(s.latest, c) < MAX_WORD
            && var key := Key(c, Lookup(s.latest, c) + 1);
            && key in r.value.messages && var m := r.value.messages[key];
            && AskedFor(m, key.id, sender, input) && m.receipts == rs && SentFor(s, r.value, m, input.fee, pull))
  {
    hide Encode, ChargeFee, FeeCanBeTaken, Brought, Grew;
    ChargeIff(s.balances, input.fee, pull);
  }

  // sendCrossChainMessage commits exactly if the sender's guard is free, an id is left, the
  // message fits and the fee can be taken; it then sends just the message asked for, and
  // the entry's fee and the balance are what was brought in.
  lemma SendCommitsIff(s: State, caller: Address, input: MessageInput, pull: Pull)
    ensures var r := TrySend(s, caller, input, pull); var c := input.destinationBlockchainID;
      && (r.Some? <==>
            && !s.sending && Lookup(s.latest, c) < MAX_WORD
            && Fits(input, BatchSize(|ListAt(s.queues, c)|)) && FeeCanBeTaken(s.balances, input.fee, pull))
      && (r.Some? ==>
            && Lookup(s.latest, c) < MAX_WORD
            && var key := Key(c, Lookup(s.latest, c) + 1);
            && key in r.value.messages && var m := r.value.messages[key];
            && AskedFor(m, key.id, caller, input) && SentFor(s, r.value, m, input.fee, pull))
  {
    hide Encode, Size, Send, Fits, FeeCanBeTaken, Brought, AskedFor, BatchSize;
    var (t, rs) := Drain(s, input.destinationBlockchainID);
    SendEffect(t, caller, input, rs, pull);
    DrainTakesOldest(s, input.destinationBlockchainID);
  }

  // sendSpecifiedReceipts, too, if every id was received.
  lemma SendReceiptsCommitsIff(s: State, caller: Address, origin: Word, ids: seq<Word>, fee: Fee,
                               allowed: seq<Address>, pull: Pull)
    ensures var r := TrySendReceipts(s, caller, origin, ids, fee, allowed, pull);
      var input := MessageInput(origin, 0, fee, 0, allowed, []);
      && (r.Some? <==>
            && !s.sending && (forall id :: id in ids ==> Key(origin, id) in s.relayers)
            && Lookup(s.latest, origin) < MAX_WORD && Fits(input, |ids|) && FeeCanBeTaken(s.balances, fee, pull))
      && (r.Some? ==>
            && Lookup(s.latest, origin) < MAX_WORD
            && var key := Key(origin, Lookup(s.latest, origin) + 1);
            && key in r.value.messages && var m := r.value.messages[key];
            && AskedFor(m, key.id, caller, input) && SentFor(s, r.value, m, fee, pull))
  {
    hide Encode, Size, Send, Fits, FeeCanBeTaken, Brought, AskedFor, SentFor;
    var rs := CollectReceipts(s.relayers, origin, ids);
    if rs.Some? {
      SendEffect(s, caller, MessageInput(origin, 0, fee, 0, allowed, []), rs.value, pull);
    }
  }

  lemma TransferInGrows(balances: map<Address, Word>, token: Address, pull: Pull)
    ensures var r := TransferIn(balances, token, pull); r.Some? ==>
      && pull.Received? && pull.amount > 0 && r.value.1 == pull.amount
      && Grew(balances, r.value.0, token, pull.amount)
  {
  }

  // What an addition of this much to the fee of a live entry leaves.
  ghost predicate FeeAdded(s: State, t: State, key: Key, amount: Word)
    requires key in s.sent
  {
    var fee := s.sent[key].fee;
    && fee.amount + amount <= MAX_WORD
    && OneEntry(s.sent, t.sent, key, SentInfo(s.sent[key].hash, Fee(fee.token, fee.amount + amount)))
    && t == s.(sent := t.sent, fees := t.fees)
  }

  lemma AddToFeeAdds(s: State, key: Key, received: Word)
    requires key in s.sent
    ensures var r := AddToFee(s, key, received); r.Some? ==> FeeAdded(s, r.value, key, received)
  {
    hide Size, Encode;
  }

  // A committed addFeeAmount moves what was brought in into the entry, and nothing else.
  lemma AddFeeMoves(s: State, key: Key, token: Address, amount: Word, pull: Pull)
    ensures var r := TryAddFee(s, key, token, amount, pull); r.Some? ==>
      && key in s.sent && s.sent[key].fee.token == token && pull.Received? && pull.amount > 0
      && FeeAdded(s.(balances := r.value.balances), r.value, key, pull.amount)
      && Grew(s.balances, r.value.balances, token, pull.amount)
  {
    hide Size, Encode, TransferIn, AddToFee, OneEntry, Grew;
    TransferInGrows(s.balances, token, pull);
    var r := TransferIn(s.balances, token, pull);
    if r.Some? && key in s.sent {
      AddToFeeAdds(s.(balances := r.value.0), key, r.value.1);
    }
  }

  // ---------- rewards ----------

  // What the redemption of a reward leaves: nothing of it in the account, and the balance
  // without it. No other account and no other token is touched.
  ghost predicate Redeemed(s: State, t: State, a: Account) {
    var reward := Lookup(s.rewards, a);
    && (forall b :: Lookup(t.rewards, b) == if b == a then 0 else Lookup(s.rewards, b))
    && (forall x :: Lookup(s.balances, x) == Lookup(t.balances, x) + if x == a.token then reward else 0)
    && (forall b :: TotalAt(t.redeemed, b) == TotalAt(s.redeemed, b) + if b == a then reward else 0)
    && t == s.(rewards := t.rewards, balances := t.balances, redeemed := t.redeemed)
  }

  lemma RedeemEffect(s: State, a: Account)
    ensures var r := TryRedeem(s, a); r.Some? ==> Redeemed(s, r.value, a) && TryRedeem(r.value, a) == None
  {
    hide Size;
  }

  lemma NothingRedeemed(s: State, a: Account)
    requires Lookup(s.rewards, a) == 0
    ensures Redeemed(s, s, a)
  {
    hide Size;
  }

  // A redemption pays the whole reward out of the balance, once.
  lemma RedemptionPays(net: Network, c: Word, a: Account)
    requires Reachable(net) && c in net.chains
    ensures var s := net.chains[c]; var call := Redeem(a.relayer, a.token); var t := Do(EnvOf(net, c), s, call);
      Redeemed(s, t, a) && Try(EnvOf(net, c), t, call) == None
  {
    hide Inv, Size, Quiet, Redeemed, TryRedeem, Lookup;
    RewardsArePayable(net, c, a);
    RedeemEffect(net.chains[c], a);
    if Lookup(net.chains[c].rewards, a) == 0 {
      NothingRedeemed(net.chains[c], a);
    }
  }

  // ---------- what a receiver did ----------

  // The calls of a receiver are made one after the other, each on what those before it left.
  lemma {:induction false} CallsInTurn(env: Env, s: State, calls: seq<Call>, more: seq<Call>)
    ensures RunCalls(env, s, calls + more) == RunCalls(env, RunCalls(env, s, calls), more)
    ensures forall call :: RunCalls(env, s, [call]) == Do(env, s, call)
    ensures RunCalls(env, s, []) == s
    decreases |calls|
  {
    hide Do, Size;
    if calls == [] {
      assert [] + more == more;
    } else {
      assert (calls + more)[1..] == calls[1..] + more;
      CallsInTurn(env, Do(env, s, calls[0]), calls[1..], more);
    }
    assert forall call: Call :: [call][1..] == [];
  }

  // The state that a delivery leaves for its receipts to be marked in: what the receiver
  // did stays if it succeeded, and otherwise nothing of it does.
  ghost function Outcome(env: Env, a: State, key: Key, m: Message, callee: Callee): State {
    if m.message == [] then a
    else if callee.Contract? && callee.succeeds then
      var ran := RunCalls(env, a, callee.calls);
      ran.(executed := ran.executed + [key])
    else a.(failed := a.failed[key := Keccak(Encode(m))])
  }

  // The parts of storage that marking receipts and queueing one leave alone.
  ghost predicate SameBooks(t: State, u: State) {
    && t.messages == u.messages && t.latest == u.latest && t.warpLog == u.warpLog && t.balances == u.balances
    && t.fees == u.fees && t.redeemed == u.redeemed && t.donated == u.donated
    && t.drained == u.drained && t.automatic == u.automatic
    && t.failed == u.failed && t.executed == u.executed && t.relayers == u.relayers
    && t.blockchainID == u.blockchainID
  }

  lemma OutcomeOf(env: Env, a: State, key: Key, m: Message, callee: Callee)
    requires key !in a.failed && key !in a.executed
    requires callee.Contract? ==>
      var ran := RunCalls(env, a, callee.calls); ran.failed == a.failed && ran.executed == a.executed
    ensures var t := Outcome(env, a, key, m, callee);
      && (key in t.failed <==> m.message != [] && (callee.NoCode? || !callee.succeeds))
      && (key in t.executed <==> m.message != [] && callee.Contract? && callee.succeeds)
      && (forall k :: k in t.executed ==> k == key || k in a.executed)
  {
    hide Size, Encode, RunCalls;
    AppendedKey(a.executed, a.executed + [key], key, key);
    forall k
      ensures k in a.executed + [key] <==> k == key || k in a.executed
    {
      AppendedKey(a.executed, a.executed + [key], key, k);
    }
  }

  lemma AcceptBooks(env: Env, s: State, deliverer: Address, warp: WarpMessage, reward: Address)
    requires Inv(env.chain, s)
    ensures var r := Accept(env, s, deliverer, warp, reward); r.Some? ==>
      && SameBooks(r.value.0.(relayers := s.relayers, blockchainID := s.blockchainID), s)
      && r.value.0.blockchainID == env.chain
  {
    hide Size, Encode, Decode, SendingInv, MoneyInv, ReturnInv, DeliveryInv, ExecInv;
  }

  lemma ExecuteOutcome(env: Env, a: State, origin: Word, m: Message, callee: Callee)
    ensures AfterExecution(env, a, origin, m, callee) == Outcome(env, a, Key(origin, m.messageID), m, callee)
  {
    hide Size, Encode, RunCalls;
  }

  lemma SettleBooks(chain: Word, s: State, origin: Word, m: Message, reward: Address)
    requires Inv(chain, s)
    ensures var r := Settle(s, origin, m, reward); r.Some? ==> SameBooks(r.value, s)
  {
    hide Inv, Size, MarkReceipts;
    MarkReceiptsKeepInv(chain, s, origin, m.receipts);
  }

  // A committed delivery with a payload has failed exactly if there is no receiver or it
  // reverts, and was executed exactly if it succeeds; then all that the receiver did stays,
  // and otherwise nothing of it. Without a payload nothing is run.
  lemma DeliveryOutcome(env: Env, s: State, call: Call)
    requires Inv(env.chain, s) && call.Receive? && Try(env, s, call).Some?
    ensures Accept(env, s, call.deliverer, call.warp, call.rewardAddress).Some?
    ensures var (a, m) := Accept(env, s, call.deliverer, call.warp, call.rewardAddress).value;
      var key, t := Key(call.warp.source, m.messageID), Try(env, s, call).value;
      && SameBooks(t, Outcome(env, a, key, m, call.callee))
      && SameBooks(a.(relayers := s.relayers, blockchainID := s.blockchainID), s)
      && a.blockchainID == env.chain
      && (key in t.failed <==> m.message != [] && (call.callee.NoCode? || !call.callee.succeeds))
      && (key in t.executed <==> m.message != [] && call.callee.Contract? && call.callee.succeeds)
      && (forall k :: k in t.executed ==> k == key || k in s.executed)
  {
    hide Inv, Size, Encode, Decode, Accept, Settle, Execute, Running, Extends, RanOnce, RunCalls, Outcome, Locked;
    var (a, m) := Accept(env, s, call.deliverer, call.warp, call.rewardAddress).value;
    var key := Key(call.warp.source, m.messageID);
    AcceptBooks(env, s, call.deliverer, call.warp, call.rewardAddress);
    AcceptRuns(env, s, call.deliverer, call.warp, call.rewardAddress);
    AfterExecutionKeeps(env, a, call.warp.source, m, call.callee);
    ExecuteOutcome(env, a, call.warp.source, m, call.callee);
    SettleBooks(env.chain, AfterExecution(env, a, call.warp.source, m, call.callee), call.warp.source, m,
                call.rewardAddress);
    RunningReceives(a, key, m);
    NothingRunYet(a, key, m);
    if call.callee.Contract? {
      NestedCallsKeep(env, a, call.callee.calls);
      LockedKeepsOutcomes(a, RunCalls(env, a, call.callee.calls));
    }
    OutcomeOf(env, a, key, m, call.callee);
  }

  lemma LockedKeepsOutcomes(s: State, t: State)
    requires Locked(s, t)
    ensures t.failed == s.failed && t.executed == s.executed
  {
  }

  lemma NothingRunYet(s: State, key: Key, m: Message)
    requires Running(s, key, m)
    ensures key !in s.failed && key !in s.executed
  {
  }

  // A committed retry keeps all that its receiver did.
  lemma RetryOutcome(env: Env, s: State, call: Call)
    requires call.RetryExecution? && Try(env, s, call).Some?
    ensures call.callee.Contract?
    ensures var key := Key(call.origin, call.message.messageID);
      var a := s.(receiving := true, failed := s.failed - {key}, executed := s.executed + [key]);
      Try(env, s, call).value == RunCalls(env, a, call.callee.calls).(receiving := false)
  {
    hide Size, Encode, RunCalls;
  }

  // ---------- execution is final ----------

  lemma {:induction false} RunsJoin(net: Network, steps: seq<Step>, more: seq<Step>)
    ensures Run(net, steps + more) == Run(Run(net, steps), more)
    decreases |more|
  {
    hide Next, Size;
    if more == [] {
      assert steps + more == steps;
    } else {
      assert (steps + more)[..|steps + more| - 1] == steps + more[..|more| - 1];
      RunsJoin(net, steps, more[..|more| - 1]);
    }
  }

  lemma StillReachable(net: Network, steps: seq<Step>)
    requires Reachable(net)
    ensures Reachable(Run(net, steps))
  {
    hide Run, Start, Size;
    var teleporter, ids, before :| net == Run(Start(teleporter, ids), before);
    RunsJoin(Start(teleporter, ids), before, steps);
  }

  lemma {:induction false} ExecutedStays(net: Network, c: Word, k: Key, steps: seq<Step>)
    requires Reachable(net) && c in net.chains && k in net.chains[c].executed
    ensures var later := Run(net, steps); c in later.chains && k in later.chains[c].executed
    decreases |steps|
  {
    hide Inv, Reachable, Do, Size, SubMap;
    if steps != [] {
      var before, step := steps[..|steps| - 1], steps[|steps| - 1];
      ExecutedStays(net, c, k, before);
      StillReachable(net, before);
      ReachableIsSafe(Run(net, before));
      if step.OnChain? && step.chain == c {
        ExtendsHistory(Run(net, before), c, step.call);
      }
    }
  }

  // Once a message was executed, it is never executed again: whatever happens, no retry of
  // it and no second delivery commits, whoever makes it and whatever the receiver does.
  lemma ExecutedForGood(net: Network, c: Word, k: Key, steps: seq<Step>, call: Call)
    requires Reachable(net) && c in net.chains && k in net.chains[c].executed
    requires var later := Run(net, steps); c in later.chains ==>
      || (call.RetryExecution? && Key(call.origin, call.message.messageID) == k)
      || (call.Receive? && call.warp.source == k.chain
          && Decode(call.warp.payload).Some? && Decode(call.warp.payload).value.messageID == k.id)
    ensures var later := Run(net, steps);
      c in later.chains && Try(EnvOf(later, c), later.chains[c], call) == None
  {
    hide Inv, Reachable, Run, Size, Encode, Decode, Execute, Settle;
    var later := Run(net, steps);
    ExecutedStays(net, c, k, steps);
    StillReachable(net, steps);
    ReachableIsSafe(later);
    ChainIsQuiet(later, c);
    OutcomesExclude(c, later.chains[c]);
    ExecutedWasDelivered(c, later.chains[c], k);
  }

  lemma ExecutedWasDelivered(chain: Word, s: State, k: Key)
    requires Inv(chain, s) && k in s.executed
    ensures k in s.relayers
  {
    hide Size, Encode, SendingInv, MoneyInv, ReturnInv;
  }
}
