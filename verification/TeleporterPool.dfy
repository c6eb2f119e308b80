// What applications see of Teleporter: a pool of messages under way, to which sends add
// and from which each execution takes one, whatever else happens.
module TeleporterPool {
  import opened Words
  import opened MessageCodec
  import opened Teleporter
  import opened TeleporterInvariants
  import opened TeleporterCalls
  import opened TeleporterBatches
  import opened TeleporterNetwork
  import opened MessagePool

  // Sent from `source` to chain c with something to execute, and not executed yet.
  ghost predicate UnderWay(chains: map<Word, State>, source: Word, c: Word, id: Word) {
    && source in chains && c in chains && Key(c, id) in chains[source].messages
    && chains[source].messages[Key(c, id)].message != []
    && Key(source, id) !in chains[c].executed
  }

  // The call on chain c took message k off the pool: it was executed by a delivery of
  // just this message, or by a retry of it.
  ghost predicate Took(net: Network, c: Word, call: Call, k: Key)
    requires c in net.chains
  {
    var s := net.chains[c];
    && Do(EnvOf(net, c), s, call).executed == s.executed + [k]
    && WasSent(net.chains, c, k, MessageOf(EnvOf(net, c), s, call))
  }

  // The message that a delivery or a retry is about.
  ghost function MessageOf(env: Env, s: State, call: Call): Message {
    match call
    case Receive(deliverer, warp, reward, _, _) =>
      var r := Accept(env, s, deliverer, warp, reward);
      if r.Some? then r.value.1 else SENT
    case RetryExecution(_, m, _) => m
    case _ => SENT
  }

  lemma AppendedKey(before: seq<Key>, after: seq<Key>, key: Key, k: Key)
    requires after == before + [key]
    ensures k in after <==> k in before || k == key
  {
  }

  // A call executes nothing, or exactly one message that was under way before.
  lemma ExecutesOne(net: Network, c: Word, call: Call, k: Key)
    requires NetInv(net) && c in net.chains
    requires k in Do(EnvOf(net, c), net.chains[c], call).executed && k !in net.chains[c].executed
    ensures UnderWay(net.chains, k.chain, c, k.id) && Took(net, c, call, k)
  {
    hide Inv, Quiet, Extends, Do, Delivered, Retried, Accept, DeliveriesSent, CreditsEarned, Size, Encode, Decode;
    ChainOf(net, c);
    var env, s := EnvOf(net, c), net.chains[c];
    var t := Do(env, s, call);
    CallProgresses(env, s, call);
    if call.RetryExecution? {
      RetryTakes(net, c, call, k);
    } else {
      DeliveryTakes(net, c, call, k);
    }
  }

  lemma RetryTakes(net: Network, c: Word, call: Call, k: Key)
    requires NetInv(net) && c in net.chains && call.RetryExecution?
    requires k in Do(EnvOf(net, c), net.chains[c], call).executed && k !in net.chains[c].executed
    ensures UnderWay(net.chains, k.chain, c, k.id) && Took(net, c, call, k)
  {
    hide Inv, Extends, Accept, CreditsEarned, AllPublished, Size, Encode, Decode, Try, NetInv;
    ChainOf(net, c);
    var env, s := EnvOf(net, c), net.chains[c];
    RetryEffect(env, s, call);
    var key := Key(call.origin, call.message.messageID);
    AppendedKey(s.executed, Do(env, s, call).executed, key, k);
    assert HasOutcome(s, key) && WasSent(net.chains, c, key, call.message);
  }

  lemma DeliveryTakes(net: Network, c: Word, call: Call, k: Key)
    requires NetInv(net) && c in net.chains && !call.RetryExecution?
    requires k in Do(EnvOf(net, c), net.chains[c], call).executed && k !in net.chains[c].executed
    ensures UnderWay(net.chains, k.chain, c, k.id) && Took(net, c, call, k)
  {
    hide Inv, Quiet, Extends, Do, Accept, DeliveriesSent, CreditsEarned, AllPublished, Size, Encode, Decode;
    ChainOf(net, c);
    var env, s := EnvOf(net, c), net.chains[c];
    CallProgresses(env, s, call);
    var m := MessageOf(env, s, call);
    var key := Key(call.warp.source, m.messageID);
    AcceptedIsSigned(env, s, call);
    SignedIsSent(net, call.warp, m);
    AppendedKey(s.executed, s.executed + [key], key, k);
  }

  lemma AcceptedIsSigned(env: Env, s: State, call: Call)
    requires Inv(env.chain, s) && call.Receive?
    requires Accept(env, s, call.deliverer, call.warp, call.rewardAddress).Some?
    ensures var m := MessageOf(env, s, call);
      && call.warp in env.signed && call.warp.sender == env.teleporter && Decode(call.warp.payload) == Some(m)
      && m.destinationBlockchainID == env.chain
  {
    hide Size, Encode, Decode, SendingInv, MoneyInv, ReturnInv, DeliveryInv, ExecInv;
  }

  // One step of the network, as the applications see it. A message comes into the pool by
  // being sent under a new id by the chain of the call; it leaves the pool only when the
  // chain it was sent to executes it, and then alone; nothing outside the pool is executed;
  // and its content never changes.
  lemma PoolChanges(net: Network, step: Step, source: Word, d: Word, id: Word)
    requires Reachable(net)
    ensures var next := Next(net, step);
      var before, after := UnderWay(net.chains, source, d, id), UnderWay(next.chains, source, d, id);
      && (after && !before ==>
            && step.OnChain? && step.chain == source && source in net.chains
            && Lookup(net.chains[source].latest, d) < id <= Lookup(next.chains[source].latest, d))
      && (before && !after ==> step.OnChain? && step.chain == d && Took(net, d, step.call, Key(source, id)))
      && (d in net.chains ==>
            Key(source, id) in next.chains[d].executed ==> before || Key(source, id) in net.chains[d].executed)
      && (before && after ==>
            next.chains[source].messages[Key(d, id)] == net.chains[source].messages[Key(d, id)])
  {
    hide Inv, Quiet, Extends, Do, DeliveriesSent, CreditsEarned, AllPublished, Size, Took, NetInv;
    ReachableIsSafe(net);
    if step.OnChain? && step.chain in net.chains {
      var c, key := step.chain, Key(source, id);
      var env, s := EnvOf(net, c), net.chains[c];
      var t := Do(env, s, step.call);
      if c == d && key in t.executed && key !in s.executed {
        ExecutesOne(net, c, step.call, key);
      }
      ExtendsHistory(net, c, step.call);
      if c == source {
        NewIdIsNew(net, c, step.call, Key(d, id));
      }
    }
  }

  lemma ExtendsHistory(net: Network, c: Word, call: Call)
    requires NetInv(net) && c in net.chains
    ensures var s := net.chains[c]; var t := Do(EnvOf(net, c), s, call);
      Inv(c, s) && Inv(c, t) && SubMap(s.messages, t.messages) && s.executed <= t.executed
  {
    hide Inv, Quiet, Do, SubMap, FeeGrows, Size, Progress;
    ChainOf(net, c);
    CallProgresses(EnvOf(net, c), net.chains[c], call);
  }

  lemma NewIdIsNew(net: Network, c: Word, call: Call, k: Key)
    requires NetInv(net) && c in net.chains
    ensures var s := net.chains[c]; var t := Do(EnvOf(net, c), s, call);
      k in t.messages && k !in s.messages ==> Lookup(s.latest, k.chain) < k.id <= Lookup(t.latest, k.chain)
  {
    hide Quiet, Do, Size, Encode, MoneyInv, ReceivingInv, ReturnInv, Entries, Logged, NetInv, SubMap;
    ExtendsHistory(net, c, call);
    var s := net.chains[c];
    var t := Do(EnvOf(net, c), s, call);
    assert k in s.messages <==> InRange(s.latest, k);
    assert k in t.messages <==> InRange(t.latest, k);
  }

  // ---------- who sent what ----------

  // A send in this call, or in what its receiver calls, asked for message m.
  ghost predicate AskedIn(call: Call, m: Message) {
    match call
    case SendMessage(caller, input, _) => AskedFor(m, m.messageID, caller, input)
    case SendReceipts(caller, origin, _, fee, allowed, _) =>
      AskedFor(m, m.messageID, caller, MessageInput(origin, 0, fee, 0, allowed, []))
    case Receive(_, _, _, _, callee) => callee.Contract? && AskedInOne(callee.calls, m)
    case RetryExecution(_, _, callee) => callee.Contract? && AskedInOne(callee.calls, m)
    case _ => false
  }

  ghost predicate AskedInOne(calls: seq<Call>, m: Message) {
    exists i :: 0 <= i < |calls| && AskedIn(calls[i], m)
  }

  // Each message that call has sent was asked for in it.
  ghost predicate NewAreAsked(s: State, t: State, call: Call) {
    forall k :: k in t.messages && k !in s.messages ==> AskedIn(call, t.messages[k])
  }

  ghost predicate NewAreAskedInOne(s: State, t: State, calls: seq<Call>) {
    forall k :: k in t.messages && k !in s.messages ==> AskedInOne(calls, t.messages[k])
  }

  lemma SendsAsAsked(s: State, sender: Address, input: MessageInput, rs: seq<Receipt>, pull: Pull)
    ensures var r := Send(s, sender, input, rs, pull); r.Some? ==>
      forall k :: k in r.value.messages && k !in s.messages ==>
        AskedFor(r.value.messages[k], r.value.messages[k].messageID, sender, input)
  {
    hide Size, Encode, Send, BuildMessage, AskedFor;
    SendUpdates(s, sender, input, rs, pull);
    if Send(s, sender, input, rs, pull).Some? {
      var id := Lookup(s.latest, input.destinationBlockchainID) + 1;
      BuiltAsAsked(id, sender, input, rs);
      AskedHasId(BuildMessage(id, sender, input, rs).value, id, sender, input);
    }
  }

  lemma AskedHasId(m: Message, id: Word, sender: Address, input: MessageInput)
    requires AskedFor(m, id, sender, input)
    ensures m.messageID == id
  {
  }

  lemma PlainCallIsAsked(env: Env, s: State, call: Call)
    requires s.receiving || !ReceiverCall(call)
    ensures NewAreAsked(s, Do(env, s, call), call)
  {
    hide Size, Encode, Decode, Send, AskedFor;
    match call
    case SendMessage(caller, input, pull) =>
      var (t, rs) := Drain(s, input.destinationBlockchainID);
      SendsAsAsked(t, caller, input, rs, pull);
    case SendReceipts(caller, origin, ids, fee, allowed, pull) =>
      var rs := CollectReceipts(s.relayers, origin, ids);
      if rs.Some? {
        SendsAsAsked(s, caller, MessageInput(origin, 0, fee, 0, allowed, []), rs.value, pull);
      }
    case _ =>
  }

  lemma {:induction false} NestedCallsAreAsked(env: Env, s: State, calls: seq<Call>)
    requires Inv(env.chain, s) && s.receiving
    ensures NewAreAskedInOne(s, RunCalls(env, s, calls), calls)
    decreases |calls|
  {
    hide Inv, Size, Do, Extends, AskedIn;
    if calls != [] {
      var t := Do(env, s, calls[0]);
      PlainCallIsAsked(env, s, calls[0]);
      PlainCallKeepsInv(env, s, calls[0]);
      PlainCallExtends(env, s, calls[0]);
      NestedCallsAreAsked(env, t, calls[1..]);
      NestedCallsKeep(env, t, calls[1..]);
      MessagesStay(t, RunCalls(env, t, calls[1..]));
      AskedInFirstOrRest(s, t, RunCalls(env, t, calls[1..]), calls);
    }
  }

  lemma MessagesStay(s: State, t: State)
    requires Extends(s, t)
    ensures SubMap(s.messages, t.messages)
  {
    hide Size, SubMap, FeeGrows;
  }

  lemma AskedInFirstOrRest(s: State, t: State, u: State, calls: seq<Call>)
    requires calls != [] && SubMap(t.messages, u.messages)
    requires NewAreAsked(s, t, calls[0]) && NewAreAskedInOne(t, u, calls[1..])
    ensures NewAreAskedInOne(s, u, calls)
  {
    hide Size, AskedIn;
    forall k | k in u.messages && k !in s.messages
      ensures AskedInOne(calls, u.messages[k])
    {
      if k in t.messages {
        assert AskedIn(calls[0], u.messages[k]);
      } else {
        var i :| 0 <= i < |calls[1..]| && AskedIn(calls[1..][i], u.messages[k]);
        assert AskedIn(calls[i + 1], u.messages[k]);
      }
    }
  }

  lemma ExecutionSends(env: Env, s: State, origin: Word, m: Message, callee: Callee)
    ensures var t := AfterExecution(env, s, origin, m, callee);
      t.messages == if m.message != [] && callee.Contract? && callee.succeeds
                    then RunCalls(env, s, callee.calls).messages else s.messages
  {
    hide Size, Encode, RunCalls;
  }

  lemma ExecutionIsAsked(env: Env, s: State, origin: Word, m: Message, callee: Callee)
    requires Inv(env.chain, s) && s.receiving
    ensures var t := AfterExecution(env, s, origin, m, callee);
      if callee.Contract? then NewAreAskedInOne(s, t, callee.calls) else t.messages == s.messages
  {
    hide Inv, Size, Encode, RunCalls, AskedInOne, AfterExecution;
    ExecutionSends(env, s, origin, m, callee);
    if callee.Contract? {
      NestedCallsAreAsked(env, s, callee.calls);
    }
  }

  lemma AcceptSendsNothing(env: Env, s: State, deliverer: Address, warp: WarpMessage, reward: Address)
    ensures var r := Accept(env, s, deliverer, warp, reward); r.Some? ==> r.value.0.messages == s.messages
  {
    hide Size, Decode;
  }

  lemma ReceiveIsAsked(env: Env, s: State, call: Call)
    requires Inv(env.chain, s) && call.Receive?
    ensures NewAreAsked(s, Do(env, s, call), call)
  {
    hide Inv, Size, Encode, Decode, Accept, Execute, Settle, Running, Extends, RanOnce, AskedInOne;
    var accepted := Accept(env, s, call.deliverer, call.warp, call.rewardAddress);
    if accepted.Some? {
      var (a, m) := accepted.value;
      AcceptSendsNothing(env, s, call.deliverer, call.warp, call.rewardAddress);
      AcceptRuns(env, s, call.deliverer, call.warp, call.rewardAddress);
      RunningReceives(a, Key(call.warp.source, m.messageID), m);
      var e := AfterExecution(env, a, call.warp.source, m, call.callee);
      AfterExecutionKeeps(env, a, call.warp.source, m, call.callee);
      ExecutionIsAsked(env, a, call.warp.source, m, call.callee);
      SettleSendsNothing(env.chain, e, call.warp.source, m, call.rewardAddress);
    }
  }

  lemma SettleSendsNothing(chain: Word, s: State, origin: Word, m: Message, reward: Address)
    requires Inv(chain, s)
    ensures var r := Settle(s, origin, m, reward); r.Some? ==> r.value.messages == s.messages
  {
    hide Inv, Size, MarkReceipts;
    MarkReceiptsKeepInv(chain, s, origin, m.receipts);
  }

  lemma RetryIsAsked(env: Env, s: State, call: Call)
    requires Inv(env.chain, s) && call.RetryExecution?
    ensures NewAreAsked(s, Do(env, s, call), call)
  {
    hide Inv, Size, Encode, RunCalls, Extends, Retried, AskedInOne;
    if Try(env, s, call).Some? {
      AcceptRetryKeeps(env.chain, s, call.origin, call.message);
      NestedCallsAreAsked(env, AcceptRetry(s, call.origin, call.message).value, call.callee.calls);
    }
  }

  // What a call sends, it was asked to: each new message has the sender, the destination
  // and the payload of a send in the call or in what its receiver calls.
  lemma CallSendsWhatIsAsked(env: Env, s: State, call: Call)
    requires Inv(env.chain, s)
    ensures NewAreAsked(s, Do(env, s, call), call)
  {
    hide Inv, Do, NewAreAsked;
    if call.Receive? {
      ReceiveIsAsked(env, s, call);
    } else if call.RetryExecution? {
      RetryIsAsked(env, s, call);
    } else {
      PlainCallIsAsked(env, s, call);
    }
  }

  // ---------- the network as a pool ----------

  datatype Item = Item(source: Word, destination: Word, id: Word)

  ghost function View(net: Network): Pool<Item, Message> {
    Pool(imap i: Item | UnderWay(net.chains, i.source, i.destination, i.id)
             :: net.chains[i.source].messages[Key(i.destination, i.id)],
         iset i: Item | Unsent(net, i))
  }

  ghost predicate Unsent(net: Network, i: Item) {
    i.source in net.chains ==> Lookup(net.chains[i.source].latest, i.destination) < i.id
  }

  // What a step executed: the last entry of a list of executions that has grown.
  ghost function TakenBy(net: Network, step: Step): Option<Item> {
    if step.OnChain? && step.chain in net.chains then
      var before, after := net.chains[step.chain].executed, Next(net, step).chains[step.chain].executed;
      if |after| > |before| then Some(Item(after[|after| - 1].chain, step.chain, after[|after| - 1].id)) else None
    else None
  }

  // Whatever comes into the pool was asked for in the call of the step, on its chain.
  ghost predicate PutAsAsked(net: Network, step: Step) {
    var p, q := View(net), View(Next(net, step));
    forall i :: i in q.underWay && i !in p.underWay ==>
      step.OnChain? && i.source == step.chain && AskedIn(step.call, q.underWay[i])
  }

  lemma UnusedShrinks(net: Network, step: Step, i: Item)
    requires Reachable(net) && Unsent(Next(net, step), i)
    ensures Unsent(net, i)
  {
    hide Inv, Quiet, Extends, Do, Size, NetInv;
    ReachableIsSafe(net);
    if step.OnChain? && step.chain in net.chains && step.chain == i.source {
      LatestGrows(net, step.chain, step.call, i.destination);
    }
  }

  lemma LatestGrows(net: Network, c: Word, call: Call, d: Word)
    requires NetInv(net) && c in net.chains
    ensures Lookup(net.chains[c].latest, d) <= Lookup(Do(EnvOf(net, c), net.chains[c], call).latest, d)
  {
    hide Quiet, Do, Size, Encode, MoneyInv, ReceivingInv, ReturnInv, Entries, Logged, NetInv;
    ExtendsHistory(net, c, call);
    var s := net.chains[c];
    var t := Do(EnvOf(net, c), s, call);
    var k := Key(d, Lookup(s.latest, d));
    if k.id > 0 {
      assert k in s.messages <==> InRange(s.latest, k);
      assert k in t.messages <==> InRange(t.latest, k);
    }
  }

  lemma TakenWasUnderWay(net: Network, step: Step)
    requires Reachable(net) && TakenBy(net, step).Some?
    ensures var i := TakenBy(net, step).value;
      && UnderWay(net.chains, i.source, i.destination, i.id)
      && !UnderWay(Next(net, step).chains, i.source, i.destination, i.id)
  {
    hide Inv, Quiet, Extends, Do, Size, NetInv, Took;
    ReachableIsSafe(net);
    var c := step.chain;
    var s, t := net.chains[c], Do(EnvOf(net, c), net.chains[c], step.call);
    ExtendsHistory(net, c, step.call);
    ExecutedOnce(c, t, |s.executed|);
    assert s.executed == t.executed[..|s.executed|];
    ExecutedOnce(c, t, |t.executed| - 1);
    var k := t.executed[|t.executed| - 1];
    ExecutesOne(net, c, step.call, k);
  }

  lemma ExecutedOnce(c: Word, t: State, i: nat)
    requires Inv(c, t) && i < |t.executed|
    ensures t.executed[i] !in t.executed[..i]
  {
    hide Size, Encode, SendingInv, MoneyInv, ReturnInv, DeliveryInv;
  }

  // The step that executes a message takes it and no other.
  lemma TookIsTaken(net: Network, step: Step, i: Item)
    requires step.OnChain? && step.chain in net.chains && step.chain == i.destination
    requires Took(net, step.chain, step.call, Key(i.source, i.id))
    ensures TakenBy(net, step) == Some(i)
  {
    hide Do, Size;
  }

  lemma ItemSteps(net: Network, step: Step, i: Item)
    requires Reachable(net)
    ensures var next := Next(net, step);
      var before, after := UnderWay(net.chains, i.source, i.destination, i.id),
                           UnderWay(next.chains, i.source, i.destination, i.id);
      var k := Key(i.destination, i.id);
      && (before && TakenBy(net, step) != Some(i) ==>
            after && next.chains[i.source].messages[k] == net.chains[i.source].messages[k])
      && (after && !before ==>
            && Unsent(net, i) && !Unsent(next, i) && step.OnChain? && i.source == step.chain
            && AskedIn(step.call, next.chains[i.source].messages[k]))
  {
    hide Inv, Size, Next, TakenBy, Took, Unsent, AskedIn;
    PoolChanges(net, step, i.source, i.destination, i.id);
    var before, after := UnderWay(net.chains, i.source, i.destination, i.id),
                         UnderWay(Next(net, step).chains, i.source, i.destination, i.id);
    if before && !after {
      TookIsTaken(net, step, i);
    }
    if after && !before {
      NewItem(net, step, i);
    }
  }

  // Every step of every reachable network is a step of the pool.
  lemma StepsAsPool(net: Network, step: Step)
    requires Reachable(net)
    ensures Steps(View(net), View(Next(net, step)), TakenBy(net, step)) && PutAsAsked(net, step)
  {
    hide Inv, Size, Next, TakenBy, Unsent, AskedIn, UnderWay, Reachable;
    var p, q, took := View(net), View(Next(net, step)), TakenBy(net, step);
    if took.Some? {
      TakenWasUnderWay(net, step);
    }
    forall i | i in q.unused
      ensures i in p.unused
    {
      UnusedShrinks(net, step, i);
    }
    forall i: Item {:trigger i in p.underWay} {:trigger i in q.underWay}
      ensures i in p.underWay && took != Some(i) ==> i in q.underWay && q.underWay[i] == p.underWay[i]
      ensures i in q.underWay && i !in p.underWay ==>
        && i in p.unused && i !in q.unused
        && step.OnChain? && i.source == step.chain && AskedIn(step.call, q.underWay[i])
    {
      ItemSteps(net, step, i);
    }
  }

  lemma NewItem(net: Network, step: Step, i: Item)
    requires Reachable(net)
    requires !UnderWay(net.chains, i.source, i.destination, i.id)
    requires UnderWay(Next(net, step).chains, i.source, i.destination, i.id)
    ensures Unsent(net, i) && !Unsent(Next(net, step), i) && step.OnChain? && i.source == step.chain
    ensures AskedIn(step.call, Next(net, step).chains[i.source].messages[Key(i.destination, i.id)])
  {
    hide Inv, Size, Do, AskedIn, Quiet, Took;
    PoolChanges(net, step, i.source, i.destination, i.id);
    ReachableIsSafe(net);
    ChainIsQuiet(net, step.chain);
    CallSendsWhatIsAsked(EnvOf(net, step.chain), net.chains[step.chain], step.call);
    KnownIds(net, step.chain, Key(i.destination, i.id));
  }

  lemma KnownIds(net: Network, c: Word, k: Key)
    requires NetInv(net) && c in net.chains
    ensures k in net.chains[c].messages ==> k.id <= Lookup(net.chains[c].latest, k.chain)
  {
    hide Quiet, Size, Encode, MoneyInv, ReceivingInv, ReturnInv, Entries, Logged;
    assert ChainInv(net, c);
    assert k in net.chains[c].messages <==> InRange(net.chains[c].latest, k);
  }

  ghost function Prefix(teleporter: Address, ids: set<Word>, steps: seq<Step>, k: nat): Network
    requires k <= |steps|
  {
    Run(Start(teleporter, ids), steps[..k])
  }

  // Every run of any number of chains, seen from the applications, is a run of one pool of
  // messages; so each is executed at most once, and with what its sender asked for.
  lemma RunIsPoolRun(teleporter: Address, ids: set<Word>, steps: seq<Step>)
    ensures IsRun(seq(|steps| + 1, k requires 0 <= k <= |steps| => View(Prefix(teleporter, ids, steps, k))),
                  seq(|steps|, k requires 0 <= k < |steps| => TakenBy(Prefix(teleporter, ids, steps, k), steps[k])))
    ensures forall k :: 0 <= k < |steps| ==> PutAsAsked(Prefix(teleporter, ids, steps, k), steps[k])
  {
    hide Steps, View, TakenBy, PutAsAsked, Next;
    forall k | 0 <= k < |steps|
      ensures Prefix(teleporter, ids, steps, k + 1) == Next(Prefix(teleporter, ids, steps, k), steps[k])
      ensures PutAsAsked(Prefix(teleporter, ids, steps, k), steps[k])
      ensures Steps(View(Prefix(teleporter, ids, steps, k)), View(Prefix(teleporter, ids, steps, k + 1)),
                    TakenBy(Prefix(teleporter, ids, steps, k), steps[k]))
    {
      assert steps[..k + 1][..k] == steps[..k];
      StepsAsPool(Prefix(teleporter, ids, steps, k), steps[k]);
    }
    EmptyAtFirst(teleporter, ids);
  }

  lemma EmptyAtFirst(teleporter: Address, ids: set<Word>)
    ensures Valid(View(Start(teleporter, ids)))
  {
  }
}
