// Exactly when the calls of the ERC-20 bridge commit, what they record and who pays for
// them.
module ERC20BridgeEffects {
  import opened Words
  import BridgeToken
  import opened ERC20Bridge
  import opened ERC20BridgeNetwork
  import opened ERC20BridgeTransfers

  // ---------- announcements ----------

  // A step in which instance n announces the token of this lane to its bridge.
  ghost predicate Announces(y: Network, step: Step, n: Id, lane: Lane) {
    && step.SubmitCreate? && step.me == n && n in y.bridges && lane == Lane(step.destination, step.token)
    && SubmitCreateBridgeToken(n, y.bridges[n], step.caller, y.teleporter, step.destination, step.token,
                               step.feeAsset, step.fee, step.received).Some?
  }

  lemma SubmitRecords(me: Id, b: Bridge, caller: Address, teleporter: Address, destination: Id, token: Address,
                      feeAsset: Address, fee: Word, received: Word)
    ensures var r := SubmitCreateBridgeToken(me, b, caller, teleporter, destination, token, feeAsset, fee, received);
      r.Some? ==>
        && r.value.1 == Message(me, destination, Create(token))
        && forall lane :: lane in r.value.0.submitted <==> lane in b.submitted || lane == Lane(destination, token)
  {
    hide PayWrappedFee, GrantAndTake;
  }

  lemma SendRecordsNothing(me: Id, b: Bridge, caller: Address, teleporter: Address, destination: Id, token: Address,
                           recipient: Address, total: Word, primaryFee: Word, secondaryFee: Word, received: Word)
    ensures var r := BridgeTokens(me, b, caller, teleporter, destination, token, recipient, total,
                                  primaryFee, secondaryFee, received);
      r.Some? ==> r.value.0.submitted == b.submitted
  {
    hide GrantAndTake, PayWrappedFee, BridgeToken.BurnFrom;
  }

  lemma ReceiveRecordsNothing(me: Id, b: Bridge, from: Id, a: Action, newAddress: Address)
    ensures var r := Receive(me, b, from, a, newAddress); r.Some? ==> r.value.0.submitted == b.submitted
  {
    hide GrantAndTake, FreshAddress, BridgeToken.Mint;
  }

  lemma NextRecords(y: Network, step: Step, n: Id, lane: Lane)
    requires n in y.bridges
    ensures n in Next(y, step).bridges
    ensures lane in Next(y, step).bridges[n].submitted
      <==> lane in y.bridges[n].submitted || Announces(y, step, n, lane)
  {
    hide BridgeTokens, SubmitCreateBridgeToken, Receive, BridgeToken.Apply;
    var b := y.bridges[n];
    match step
    case Send(me, caller, destination, token, recipient, total, primaryFee, secondaryFee, received) =>
      SendRecordsNothing(n, b, caller, y.teleporter, destination, token, recipient, total, primaryFee, secondaryFee,
                         received);
    case SubmitCreate(me, caller, destination, token, feeAsset, fee, received) =>
      SubmitRecords(n, b, caller, y.teleporter, destination, token, feeAsset, fee, received);
    case Execute(id, newAddress, accepted) =>
      if id in y.messages {
        ReceiveRecordsNothing(n, b, y.messages[id].from, y.messages[id].action, newAddress);
      }
    case UseToken(me, caller, token, call) =>
    case Donate(me, token, gift) =>
    case ForeignSend(message) =>
  }

  ghost predicate AnnouncedIn(teleporter: Address, ids: set<Id>, steps: seq<Step>, n: Id, lane: Lane) {
    exists k :: 0 <= k < |steps| && Announces(Run(Start(teleporter, ids), steps[..k]), steps[k], n, lane)
  }

  // In every run a token may go to another bridge exactly if it was announced to just this
  // bridge before.
  lemma {:induction false} SubmittedIffAnnounced(teleporter: Address, ids: set<Id>, steps: seq<Step>, n: Id, lane: Lane)
    requires n in ids
    ensures var y := Run(Start(teleporter, ids), steps);
      n in y.bridges && (lane in y.bridges[n].submitted <==> AnnouncedIn(teleporter, ids, steps, n, lane))
  {
    hide Next, Announces;
    if steps != [] {
      var last := |steps| - 1;
      var before := steps[..last];
      SubmittedIffAnnounced(teleporter, ids, before, n, lane);
      NextRecords(Run(Start(teleporter, ids), before), steps[last], n, lane);
      AnnouncedLast(teleporter, ids, steps, n, lane);
    }
  }

  lemma AnnouncedLast(teleporter: Address, ids: set<Id>, steps: seq<Step>, n: Id, lane: Lane)
    requires steps != []
    ensures var last := |steps| - 1; var before := steps[..last];
      AnnouncedIn(teleporter, ids, steps, n, lane) <==>
        || AnnouncedIn(teleporter, ids, before, n, lane)
        || Announces(Run(Start(teleporter, ids), before), steps[last], n, lane)
  {
    hide Run, Announces;
    var before := steps[..|steps| - 1];
    if AnnouncedIn(teleporter, ids, before, n, lane) {
      var k :| 0 <= k < |before| && Announces(Run(Start(teleporter, ids), before[..k]), before[k], n, lane);
      assert before[..k] == steps[..k] && before[k] == steps[k];
      assert Announces(Run(Start(teleporter, ids), steps[..k]), steps[k], n, lane);
    }
    if AnnouncedIn(teleporter, ids, steps, n, lane) {
      var k :| 0 <= k < |steps| && Announces(Run(Start(teleporter, ids), steps[..k]), steps[k], n, lane);
      if k < |before| {
        assert before[..k] == steps[..k] && before[k] == steps[k];
      }
    }
  }

  // ---------- sending native tokens ----------

  // In every reachable network a native token goes out exactly if it was announced, sender
  // and receiver differ and are valid, what comes in exceeds the fee and fits the balance,
  // and the fee can be granted. No lane ever overflows.
  lemma NativeSendIff(y: Network, me: Id, caller: Address, destination: Id, token: Address, recipient: Address,
                      total: Word, fee: Word, unused: Word, received: Word)
    requires Reachable(y) && me in y.bridges && token !in y.bridges[me].wrapped
    ensures var b := y.bridges[me];
      BridgeTokens(me, b, caller, y.teleporter, destination, token, recipient, total, fee, unused, received).Some? <==>
        && destination.chain != me.chain && destination.address != 0 && recipient != 0
        && Lane(destination, token) in b.submitted
        && fee < received && Lookup(b.custody, token) + received <= MAX_WORD
        && (fee == 0 || Lookup(b.granted, token) < MAX_WORD)
  {
    hide BridgeInv, Outstanding, BridgeTokens;
    ReachableInv(y);
    ReachableGrants(y);
    assert Grants(y.bridges[me].granted, token);
    SoundSendIff(me, y.bridges[me], caller, y.teleporter, destination, token, recipient, total, fee, unused, received);
  }

  lemma SoundSendIff(me: Id, b: Bridge, caller: Address, teleporter: Address, destination: Id, token: Address,
                     recipient: Address, total: Word, fee: Word, unused: Word, received: Word)
    requires BridgeInv(b) && Grants(b.granted, token) && token !in b.wrapped
    ensures BridgeTokens(me, b, caller, teleporter, destination, token, recipient, total, fee, unused, received).Some?
      <==>
        && destination.chain != me.chain && destination.address != 0 && recipient != 0
        && Lane(destination, token) in b.submitted
        && fee < received && Lookup(b.custody, token) + received <= MAX_WORD
        && (fee == 0 || Lookup(b.granted, token) < MAX_WORD)
  {
    hide BridgeInv, Registered, NoWrappedLanes, Covered, CoveredWith, ProcessNative;
    if Lookup(b.custody, token) + received <= MAX_WORD {
      var locked := b.(custody := b.custody[token := Lookup(b.custody, token) + received]);
      LockedCovers(b, locked, token, received);
      NativeKeepsInv(me, locked, destination, token, recipient, received, fee);
    }
  }

  lemma LockedCovers(b: Bridge, locked: Bridge, token: Address, received: Word)
    requires BridgeInv(b) && Lookup(b.custody, token) + received <= MAX_WORD
    requires locked == b.(custody := b.custody[token := Lookup(b.custody, token) + received])
    ensures Registered(locked) && NoWrappedLanes(locked) && CoveredWith(locked, token, received)
    ensures forall t :: t != token ==> Covered(locked, t)
  {
    hide Registered;
    SameLanes(b, locked);
    assert Covered(b, token);
    forall t | t != token
      ensures Covered(locked, t)
    {
      assert Covered(b, t);
    }
  }

  // ---------- sending wrapped tokens ----------

  function Allowance(l: BridgeToken.Ledger, owner: Address, spender: Address): Word {
    Lookup(l.allowances, BridgeToken.Grant(owner, spender))
  }

  // The owner lets the spender take this much.
  predicate Allows(l: BridgeToken.Ledger, owner: Address, spender: Address, amount: nat) {
    Allowance(l, owner, spender) == MAX_WORD || Allowance(l, owner, spender) >= amount
  }

  // After passing the fee, the caller has that much less, and has allowed that much less.
  lemma FeePaidIff(l: BridgeToken.Ledger, me: Id, caller: Address, teleporter: Address, fee: Word)
    requires BridgeToken.Inv(l) && me.address != 0 && teleporter != 0
    requires caller != me.address && caller != teleporter && me.address != teleporter
    ensures var r := PayWrappedFee(l, me, caller, teleporter, fee);
      && (r.Some? <==> fee == 0 || (&& caller != 0 && Lookup(l.balances, caller) >= fee
                                    && Allows(l, caller, me.address, fee)
                                    && Allowance(l, me.address, teleporter) + fee <= MAX_WORD))
      && (r.Some? ==> var allowed := Allowance(l, caller, me.address);
                      Allowance(r.value, caller, me.address) == if allowed == MAX_WORD then allowed else allowed - fee)
  {
    hide BridgeToken.Inv;
    if fee > 0 {
      TransferFromIsExact(l, me.address, caller, me.address, fee);
      var paid := BridgeToken.TransferFrom(l, me.address, caller, me.address, fee);
      if paid.Some? {
        AllowanceAlone(paid.value, me.address, teleporter, fee);
      }
    }
  }

  // A wrapped token goes back exactly if the fees fit and leave something, the route is
  // valid, and the caller has the total and has allowed the bridge to take it.
  lemma WrappedSendIff(me: Id, b: Bridge, caller: Address, teleporter: Address, destination: Id, token: Address,
                       recipient: Address, total: Word, primaryFee: Word, secondaryFee: Word, received: Word)
    requires BridgeInv(b) && token in b.wrapped && me.address != 0 && teleporter != 0
    requires caller != me.address && caller != teleporter && me.address != teleporter
    ensures var l, asset := b.wrapped[token].ledger, b.wrapped[token].asset;
      BridgeTokens(me, b, caller, teleporter, destination, token, recipient, total, primaryFee, secondaryFee,
                   received).Some? <==>
        && destination.chain != me.chain && destination.address != 0 && recipient != 0
        && (destination.chain == asset.bridge.chain ==> destination == asset.bridge)
        && primaryFee + secondaryFee < total
        && caller != 0 && Lookup(l.balances, caller) >= total && Allows(l, caller, me.address, total)
        && (primaryFee == 0 || Allowance(l, me.address, teleporter) + primaryFee <= MAX_WORD)
  {
    hide PayWrappedFee, BridgeToken.Inv, Covered;
    LedgerIsSound(b, token);
    var l := b.wrapped[token].ledger;
    FeePaidIff(l, me, caller, teleporter, primaryFee);
    FeeReachesTeleporter(l, me, caller, teleporter, primaryFee);
  }

  // ---------- what an announcement costs ----------

  // An announcement commits exactly if the other bridge has an address and the fee can be
  // paid; in a wrapped token the caller pays it and Teleporter has it, and otherwise no
  // balance of the instance is touched.
  lemma SubmitCommitsIff(me: Id, b: Bridge, caller: Address, teleporter: Address, destination: Id, token: Address,
                         feeAsset: Address, fee: Word, received: Word)
    requires BridgeInv(b) && me.address != 0 && teleporter != 0
    requires caller != me.address && caller != teleporter && me.address != teleporter
    ensures var r := SubmitCreateBridgeToken(me, b, caller, teleporter, destination, token, feeAsset, fee, received);
      && (r.Some? <==>
            && destination.address != 0
            && (fee > 0 && feeAsset in b.wrapped ==>
                  var l := b.wrapped[feeAsset].ledger;
                  && caller != 0 && Lookup(l.balances, caller) >= fee && Allows(l, caller, me.address, fee)
                  && Allowance(l, me.address, teleporter) + fee <= MAX_WORD)
            && (fee > 0 && feeAsset !in b.wrapped ==>
                  && feeAsset != 0 && received > 0 && Lookup(b.custody, feeAsset) + received <= MAX_WORD
                  && Lookup(b.granted, feeAsset) + received <= MAX_WORD))
      && (r.Some? ==> r.value.0.custody == b.custody && r.value.0.bridged == b.bridged
                      && r.value.0.wrapped.Keys == b.wrapped.Keys)
      && (r.Some? && fee > 0 && feeAsset in b.wrapped ==>
            forall a :: Lookup(r.value.0.wrapped[feeAsset].ledger.balances, a) ==
              Lookup(b.wrapped[feeAsset].ledger.balances, a)
                - (if a == caller then fee else 0) + (if a == teleporter then fee else 0))
  {
    hide PayWrappedFee, BridgeToken.Inv, Covered;
    if feeAsset in b.wrapped {
      LedgerIsSound(b, feeAsset);
      FeePaidIff(b.wrapped[feeAsset].ledger, me, caller, teleporter, fee);
      FeeReachesTeleporter(b.wrapped[feeAsset].ledger, me, caller, teleporter, fee);
    }
  }

  // ---------- creating wrapped tokens ----------

  // A token is created exactly if none wraps the asset yet and the asset is valid. It then
  // wraps just this asset, and nobody holds any of it.
  lemma CreationIff(me: Id, b: Bridge, from: Id, token: Address, newAddress: Address)
    requires FreshAddress(b, newAddress)
    ensures var r := Receive(me, b, from, Create(token), newAddress); var asset := Lane(from, token);
      && (r.Some? <==> asset !in b.wrappedOf && from.chain != 0 && from.address != 0 && token != 0)
      && (r.Some? ==>
            var c := r.value.0;
            && r.value.1 == None && c.bridged == b.bridged && c.custody == b.custody
            && (forall x :: x in c.wrappedOf <==> x in b.wrappedOf || x == asset)
            && asset in c.wrappedOf && c.wrappedOf[asset] == newAddress
            && (forall x :: x in b.wrappedOf ==> c.wrappedOf[x] == b.wrappedOf[x])
            && (forall t :: t in c.wrapped <==> t in b.wrapped || t == newAddress)
            && newAddress in c.wrapped && c.wrapped[newAddress].asset == asset
            && c.wrapped[newAddress].ledger.totalSupply == 0
            && forall a :: Lookup(c.wrapped[newAddress].ledger.balances, a) == 0)
  {
    hide FreshAddress;
  }

  // ---------- using wrapped tokens ----------

  // What holders do with a wrapped token changes its ledger as its own rules say, counts
  // what leaves the supply as burned, and touches nothing else of the instance.
  lemma UseChangesLedger(b: Bridge, token: Address, caller: Address, call: BridgeToken.Call)
    requires BridgeInv(b) && token in b.wrapped
    ensures var r, after := CallToken(b, token, caller, call), BridgeToken.Apply(b.wrapped[token].ledger, caller, call);
      && (r.Some? <==> after.Some?)
      && (r.Some? ==>
            var c, w := r.value, b.wrapped[token];
            && token in c.wrapped && c.wrapped[token].ledger == after.value && c.wrapped[token].asset == w.asset
            && c.wrapped[token].burned + after.value.totalSupply == w.burned + w.ledger.totalSupply
            && c == b.(wrapped := c.wrapped)
            && forall t :: t != token ==>
                 (t in c.wrapped <==> t in b.wrapped) && (t in b.wrapped ==> c.wrapped[t] == b.wrapped[t]))
  {
    hide BridgeToken.Apply, BridgeToken.Inv, Covered;
    LedgerIsSound(b, token);
    BridgeToken.ApplyKeepsInv(b.wrapped[token].ledger, caller, call);
  }
}
