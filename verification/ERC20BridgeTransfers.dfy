// Transfers from their first call to their last: what reaches the recipient, and who
// pays for it, when tokens are bridged out, back, or back and on to a third chain.
module ERC20BridgeTransfers {
  import opened Words
  import BridgeToken
  import opened ERC20Bridge
  import opened ERC20BridgeNetwork

  // The balance of an account in the token that wraps an asset.
  function WrappedBalance(b: Bridge, asset: Lane, account: Address): Word {
    if asset in b.wrappedOf && b.wrappedOf[asset] in b.wrapped
    then Lookup(b.wrapped[b.wrappedOf[asset]].ledger.balances, account) else 0
  }

  // The balance that an instance keeps for a lane.
  function LaneBalance(b: Bridge, destination: Id, token: Address): Word {
    Lookup(b.bridged, Lane(destination, token))
  }

  lemma FeeReachesTeleporter(l: BridgeToken.Ledger, me: Id, caller: Address, teleporter: Address, fee: Word)
    requires BridgeToken.Inv(l) && caller != me.address && caller != teleporter && me.address != teleporter
    ensures var r := PayWrappedFee(l, me, caller, teleporter, fee); r.Some? ==>
      && BridgeToken.Inv(r.value)
      && forall a :: Lookup(r.value.balances, a) ==
           Lookup(l.balances, a) - (if a == caller then fee else 0) + (if a == teleporter then fee else 0)
  {
    hide BridgeToken.Inv;
    if PayWrappedFee(l, me, caller, teleporter, fee).Some? && fee > 0 {
      TransferFromIsExact(l, me.address, caller, me.address, fee);
      var paid := BridgeToken.TransferFrom(l, me.address, caller, me.address, fee).value;
      AllowanceAlone(paid, me.address, teleporter, fee);
      var allowed := BridgeToken.IncreaseAllowance(paid, me.address, teleporter, fee).value;
      TransferFromIsExact(allowed, teleporter, me.address, teleporter, fee);
    }
  }

  lemma TransferFromIsExact(l: BridgeToken.Ledger, spender: Address, from: Address, to: Address, amount: Word)
    requires BridgeToken.Inv(l)
    ensures var r := BridgeToken.TransferFrom(l, spender, from, to, amount); r.Some? ==>
      && BridgeToken.Inv(r.value)
      && forall a :: Lookup(r.value.balances, a) ==
           Lookup(l.balances, a) - (if a == from then amount else 0) + (if a == to then amount else 0)
  {
    var k := BridgeToken.SpendAllowance(l, from, spender, amount);
    if k.Some? {
      BridgeToken.TransferIsExact(k.value, from, to, amount);
    }
  }

  lemma AllowanceAlone(l: BridgeToken.Ledger, owner: Address, spender: Address, added: Word)
    ensures var r := BridgeToken.IncreaseAllowance(l, owner, spender, added); r.Some? ==>
      r.value.balances == l.balances && r.value.totalSupply == l.totalSupply
  {
  }

  // A caller pays exactly the total in wrapped tokens: the primary fee to Teleporter, the
  // rest burned; and the message that goes to the native chain carries what is left.
  lemma WrappedLeaves(me: Id, b: Bridge, caller: Address, teleporter: Address, destination: Id, token: Address,
                      recipient: Address, total: Word, primaryFee: Word, secondaryFee: Word, received: Word)
    requires BridgeInv(b) && token in b.wrapped
    requires caller != me.address && caller != teleporter && me.address != teleporter
    ensures var r := BridgeTokens(me, b, caller, teleporter, destination, token, recipient, total,
                                  primaryFee, secondaryFee, received);
      r.Some? ==> var (c, m) := r.value; var asset := b.wrapped[token].asset;
        && primaryFee + secondaryFee < total && destination.chain != me.chain
        && m == Message(me, asset.bridge, TransferTokens(destination, asset.token, recipient,
                                                          total - primaryFee, secondaryFee))
        && forall a :: WrappedBalance(c, asset, a) ==
             WrappedBalance(b, asset, a) - (if a == caller then total else 0)
               + (if a == teleporter then primaryFee else 0)
  {
    hide PayWrappedFee, BridgeToken.Inv, BridgeToken.BurnFrom, Covered;
    var r := BridgeTokens(me, b, caller, teleporter, destination, token, recipient, total,
                          primaryFee, secondaryFee, received);
    if r.Some? {
      var l := b.wrapped[token].ledger;
      FeeReachesTeleporter(l, me, caller, teleporter, primaryFee);
      var paid := PayWrappedFee(l, me, caller, teleporter, primaryFee).value;
      BurnFromIsExact(paid, me.address, caller, total - primaryFee);
    }
  }

  lemma BurnFromIsExact(l: BridgeToken.Ledger, spender: Address, account: Address, amount: Word)
    requires BridgeToken.Inv(l)
    ensures var r := BridgeToken.BurnFrom(l, spender, account, amount); r.Some? ==>
      forall a :: Lookup(r.value.balances, a) == Lookup(l.balances, a) - (if a == account then amount else 0)
  {
    var k := BridgeToken.SpendAllowance(l, account, spender, amount);
    if k.Some? {
      BridgeToken.BurnIsExact(k.value, account, amount);
    }
  }

  // Minting adds exactly the amount to the recipient's balance in the right token.
  lemma MintArrives(me: Id, b: Bridge, from: Id, token: Address, recipient: Address, amount: Word, newAddress: Address)
    requires BridgeInv(b)
    ensures var r := Receive(me, b, from, MintTokens(token, recipient, amount), newAddress); r.Some? ==>
      forall asset, a :: WrappedBalance(r.value.0, asset, a) ==
        WrappedBalance(b, asset, a) + (if asset == Lane(from, token) && a == recipient then amount else 0)
  {
    hide BridgeToken.Inv, Covered, BridgeToken.Mint;
    var asset := Lane(from, token);
    if Receive(me, b, from, MintTokens(token, recipient, amount), newAddress).Some? {
      BridgeToken.MintIsExact(b.wrapped[b.wrappedOf[asset]].ledger, recipient, amount);
    }
  }

  // Bridging out: the recipient gets what the bridge received, less the fee.
  lemma BridgedArrives(me: Id, b: Bridge, caller: Address, teleporter: Address, destination: Id, token: Address,
                       recipient: Address, total: Word, fee: Word, unused: Word, received: Word,
                       d: Bridge, newAddress: Address)
    requires token !in b.wrapped && BridgeInv(d)
    requires BridgeTokens(me, b, caller, teleporter, destination, token, recipient, total, fee, unused, received).Some?
    ensures var (c, m) := BridgeTokens(me, b, caller, teleporter, destination, token, recipient, total, fee,
                                       unused, received).value;
      && m.to == destination && m.from == me && fee < received
      && Lookup(c.custody, token) == Lookup(b.custody, token) + received - fee
      && LaneBalance(c, destination, token) == LaneBalance(b, destination, token) + received - fee
      && var r := Receive(destination, d, me, m.action, newAddress);
         (r.Some? ==>
            && r.value.1 == None
            && (forall a :: WrappedBalance(r.value.0, Lane(me, token), a) ==
                  WrappedBalance(d, Lane(me, token), a) + (if a == recipient then received - fee else 0)))
  {
    hide BridgeInv, MintBridgeTokens, PayWrappedFee;
    MintArrives(destination, d, me, token, recipient, received - fee, newAddress);
  }

  // Bridging back and on: a transfer that commits on all three chains costs the caller the
  // total, leaves each lane with what its chain holds, and brings the recipient the total
  // less both fees. The fee on the native chain comes out of its custody.
  lemma HopArrives(me: Id, b: Bridge, caller: Address, teleporter: Address, destination: Id, token: Address,
                   recipient: Address, total: Word, primaryFee: Word, secondaryFee: Word, received: Word,
                   n: Bridge, d: Bridge, newAddress: Address)
    requires BridgeInv(b) && token in b.wrapped && BridgeInv(d)
    requires caller != me.address && caller != teleporter && me.address != teleporter
    requires destination != b.wrapped[token].asset.bridge
    requires BridgeTokens(me, b, caller, teleporter, destination, token, recipient, total,
                          primaryFee, secondaryFee, received).Some?
    ensures var m := BridgeTokens(me, b, caller, teleporter, destination, token, recipient, total,
                                  primaryFee, secondaryFee, received).value.1;
      var asset := b.wrapped[token].asset;
      var hop := Receive(asset.bridge, n, me, m.action, newAddress);
      && m.to == asset.bridge
      && (hop.Some? ==>
            var (k, next) := hop.value; var native := asset.token;
            && next.Some? && next.value.to == destination && next.value.from == asset.bridge
            && LaneBalance(k, me, native) == LaneBalance(n, me, native) - (total - primaryFee)
            && LaneBalance(k, destination, native)
                 == LaneBalance(n, destination, native) + (total - primaryFee - secondaryFee)
            && Lookup(k.custody, native) == Lookup(n.custody, native) - secondaryFee
            && var last := Receive(destination, d, asset.bridge, next.value.action, newAddress);
               (last.Some? ==>
                  forall a :: WrappedBalance(last.value.0, asset, a) ==
                    WrappedBalance(d, asset, a)
                      + (if a == recipient then total - primaryFee - secondaryFee else 0)))
  {
    hide BridgeInv, MintBridgeTokens, BridgeTokens, WrappedBalance;
    var asset := b.wrapped[token].asset;
    WrappedLeaves(me, b, caller, teleporter, destination, token, recipient, total, primaryFee, secondaryFee, received);
    HopGoesOn(me, n, asset, destination, recipient, total - primaryFee, secondaryFee, newAddress);
    MintArrives(destination, d, asset.bridge, asset.token, recipient, total - primaryFee - secondaryFee, newAddress);
  }

  lemma HopGoesOn(me: Id, n: Bridge, asset: Lane, destination: Id, recipient: Address, amount: Word,
                  fee: Word, newAddress: Address)
    requires destination != asset.bridge && destination != me && fee < amount
    ensures var native := asset.token;
      var hop := Receive(asset.bridge, n, me, TransferTokens(destination, native, recipient, amount, fee), newAddress);
      hop.Some? ==>
        && hop.value.1 == Some(Message(asset.bridge, destination, MintTokens(native, recipient, amount - fee)))
        && LaneBalance(hop.value.0, me, native) == LaneBalance(n, me, native) - amount
        && LaneBalance(hop.value.0, destination, native) == LaneBalance(n, destination, native) + (amount - fee)
        && Lookup(hop.value.0.custody, native) == Lookup(n.custody, native) - fee
  {
  }

  // Bridging back to the native chain: the recipient, and nobody else, is paid out of
  // custody the total less the primary fee, and the lane shrinks by as much. Custody stays
  // as it is where the recipient is the instance itself.
  lemma ReturnArrives(me: Id, b: Bridge, caller: Address, teleporter: Address, token: Address, recipient: Address,
                      total: Word, primaryFee: Word, secondaryFee: Word, received: Word, n: Bridge, newAddress: Address)
    requires BridgeInv(b) && token in b.wrapped
    requires caller != me.address && caller != teleporter && me.address != teleporter
    requires BridgeTokens(me, b, caller, teleporter, b.wrapped[token].asset.bridge, token, recipient, total,
                          primaryFee, secondaryFee, received).Some?
    ensures var asset := b.wrapped[token].asset;
      var m := BridgeTokens(me, b, caller, teleporter, asset.bridge, token, recipient, total,
                            primaryFee, secondaryFee, received).value.1;
      var r := Receive(asset.bridge, n, me, m.action, newAddress);
      && m.to == asset.bridge
      && (r.Some? ==>
            && r.value.1 == None
            && LaneBalance(r.value.0, me, asset.token) == LaneBalance(n, me, asset.token) - (total - primaryFee)
            && Lookup(r.value.0.custody, asset.token) == Lookup(n.custody, asset.token)
                 - (if recipient == asset.bridge.address then 0 else total - primaryFee)
            && forall a :: PaidTo(r.value.0, a) ==
                 PaidTo(n, a) + (if a == Account(asset.token, recipient) then total - primaryFee else 0))
  {
    hide BridgeInv, MintBridgeTokens, BridgeTokens, WrappedBalance;
    WrappedLeaves(me, b, caller, teleporter, b.wrapped[token].asset.bridge, token, recipient, total,
                  primaryFee, secondaryFee, received);
  }
}
