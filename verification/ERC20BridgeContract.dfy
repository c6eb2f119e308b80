// The contract ERC20Bridge, updating its mappings step by step; its functions are
// proved to do what module ERC20Bridge specifies. The wrapped tokens that it deployed
// are kept as ledgers.
module ERC20BridgeContract {
  import opened Words
  import BridgeToken
  import opened ERC20Bridge

  class Contract {
    const me: Id
    const teleporter: Address
    var submittedBridgeTokenCreations: set<Lane>
    var bridgedBalances: map<Lane, Word>
    var nativeToWrappedTokens: map<Lane, Address>
    var wrappedTokens: map<Address, Wrapped>

    // The contract's balance in each native token, what Teleporter may take of it, and what
    // was paid to whom.
    var custody: map<Address, Word>
    var granted: map<Address, Word>
    var paid: map<Account, nat>

    ghost function Current(): Bridge
      reads this
    {
      Bridge(submittedBridgeTokenCreations, bridgedBalances, nativeToWrappedTokens, wrappedTokens, custody, granted,
             paid)
    }

    constructor (id: Id, messenger: Address)
      ensures me == id && teleporter == messenger && Current() == NEW
    {
      me, teleporter := id, messenger;
      submittedBridgeTokenCreations, bridgedBalances := {}, map[];
      nativeToWrappedTokens, wrappedTokens, custody, granted, paid := map[], map[], map[], map[], map[];
    }

    // safeIncreaseAllowance, whose sum is checked.
    method IncreaseAllowance(token: Address, amount: Word) returns (ok: bool)
      modifies `granted
      ensures ok <==> Lookup(old(granted), token) + amount <= MAX_WORD
      ensures granted == if ok then old(granted)[token := Lookup(old(granted), token) + amount] else old(granted)
    {
      if Lookup(granted, token) + amount > MAX_WORD {
        return false;
      }
      granted := granted[token := Lookup(granted, token) + amount];
      return true;
    }

    // Teleporter takes a fee that was granted; an unlimited allowance stays.
    method UseAllowance(token: Address, amount: Word)
      requires amount <= Lookup(granted, token)
      modifies `granted
      ensures granted == if Lookup(old(granted), token) == MAX_WORD then old(granted)
                         else old(granted)[token := Lookup(old(granted), token) - amount]
    {
      if Lookup(granted, token) != MAX_WORD {
        granted := granted[token := Lookup(granted, token) - amount];
      }
    }

    // Where a message is returned the call may have changed the state; where none is, the
    // call reverts and its caller restores what it saved.
    method ProcessNativeTokenTransfer(destination: Id, token: Address, recipient: Address, total: Word, fee: Word)
      returns (m: Option<Message>)
      modifies `bridgedBalances, `custody, `granted
      ensures m.Some? <==> ProcessNative(me, old(Current()), destination, token, recipient, total, fee).Some?
      ensures m.Some? ==>
        (Current(), m.value) == ProcessNative(me, old(Current()), destination, token, recipient, total, fee).value
    {
      if token in wrappedTokens || destination.chain == me.chain || total < fee {
        return None;
      }
      if fee > 0 {
        var increased := IncreaseAllowance(token, fee);
        if !increased {
          return None;
        }
      }
      var bridgeAmount, lane := total - fee, Lane(destination, token);
      if Lookup(bridgedBalances, lane) + bridgeAmount > MAX_WORD {
        return None;
      }
      bridgedBalances := bridgedBalances[lane := Lookup(bridgedBalances, lane) + bridgeAmount];
      if Lookup(custody, token) < fee {
        return None;
      }
      custody := custody[token := Lookup(custody, token) - fee];
      if fee > 0 {
        UseAllowance(token, fee);
        assert granted == GrantAndTake(old(granted), token, fee).value;
      }
      return Some(Message(me, destination, MintTokens(token, recipient, bridgeAmount)));
    }

    method ProcessWrappedTokenTransfer(caller: Address, destination: Id, token: Address, recipient: Address,
                                       total: Word, primaryFee: Word, secondaryFee: Word)
      returns (m: Option<Message>)
      requires token in wrappedTokens
      modifies `wrappedTokens
      ensures var r := ProcessWrapped(me, old(Current()), caller, teleporter, destination, token, recipient,
                                      total, primaryFee, secondaryFee);
        (m.Some? <==> r.Some?) && (m.Some? ==> (Current(), m.value) == r.value)
    {
      var w := wrappedTokens[token];
      var ledger := w.ledger;
      if primaryFee > 0 {
        var paid := PassFee(ledger, caller, primaryFee);
        if paid.None? {
          return None;
        }
        ledger := paid.value;
      }
      if total < primaryFee {
        return None;
      }
      var bridgeAmount := total - primaryFee;
      var rest := BridgeToken.BurnFrom(ledger, me.address, caller, bridgeAmount);
      if rest.None? {
        return None;
      }
      wrappedTokens := wrappedTokens[token := w.(ledger := rest.value)];
      var native := w.asset.bridge;
      if destination.chain == native.chain && destination.address != native.address {
        return None;
      }
      return Some(Message(me, native,
        TransferTokens(destination, w.asset.token, recipient, bridgeAmount, secondaryFee)));
    }

    method SendTokens(caller: Address, destination: Id, token: Address, recipient: Address, total: Word,
                      primaryFee: Word, secondaryFee: Word, received: Word) returns (m: Option<Message>)
      modifies this
      ensures var r := BridgeTokens(me, old(Current()), caller, teleporter, destination, token, recipient, total,
                                    primaryFee, secondaryFee, received);
        (m.Some? <==> r.Some?) && (m.Some? ==> (Current(), m.value) == r.value)
    {
      hide ProcessNative, ProcessWrapped;
      if destination.chain == me.chain || recipient == 0 || destination.address == 0 {
        return None;
      }
      if token in wrappedTokens {
        if primaryFee + secondaryFee > MAX_WORD || total <= primaryFee + secondaryFee {
          return None;
        }
        m := ProcessWrappedTokenTransfer(caller, destination, token, recipient, total, primaryFee, secondaryFee);
        return;
      }
      if Lane(destination, token) !in submittedBridgeTokenCreations {
        return None;
      }
      if received == 0 || Lookup(custody, token) + received > MAX_WORD {
        return None;
      }
      custody := custody[token := Lookup(custody, token) + received];
      if received <= primaryFee {
        return None;
      }
      m := ProcessNativeTokenTransfer(destination, token, recipient, received, primaryFee);
    }

    method SubmitCreate(caller: Address, destination: Id, token: Address, feeAsset: Address, fee: Word,
                        received: Word) returns (m: Option<Message>)
      modifies this
      ensures var r := SubmitCreateBridgeToken(me, old(Current()), caller, teleporter, destination, token,
                                               feeAsset, fee, received);
        && (m.Some? <==> r.Some?) && (m.Some? ==> (Current(), m.value) == r.value)
        && (m.None? ==> Current() == old(Current()))
    {
      if destination.address == 0 {
        return None;
      }
      if fee > 0 {
        if feeAsset in wrappedTokens {
          var w := wrappedTokens[feeAsset];
          var ledger := PassFee(w.ledger, caller, fee);
          if ledger.None? {
            return None;
          }
          wrappedTokens := wrappedTokens[feeAsset := w.(ledger := ledger.value)];
        } else {
          if feeAsset == 0 || received == 0 || Lookup(custody, feeAsset) + received > MAX_WORD {
            return None;
          }
          var increased := IncreaseAllowance(feeAsset, received);
          if !increased {
            return None;
          }
          UseAllowance(feeAsset, received);
          assert granted == GrantAndTake(old(granted), feeAsset, received).value;
        }
      }
      submittedBridgeTokenCreations := submittedBridgeTokenCreations + {Lane(destination, token)};
      return Some(Message(me, destination, Create(token)));
    }

    // A fee in a wrapped token goes from the caller to this contract, and Teleporter,
    // allowed to, takes it from there.
    method PassFee(ledger: BridgeToken.Ledger, caller: Address, fee: Word) returns (r: Option<BridgeToken.Ledger>)
      requires fee > 0
      ensures r == PayWrappedFee(ledger, me, caller, teleporter, fee)
    {
      var paid := BridgeToken.TransferFrom(ledger, me.address, caller, me.address, fee);
      if paid.None? {
        return None;
      }
      var allowed := BridgeToken.IncreaseAllowance(paid.value, me.address, teleporter, fee);
      if allowed.None? {
        return None;
      }
      r := BridgeToken.TransferFrom(allowed.value, teleporter, me.address, teleporter, fee);
    }

    // bridgeTokens as users call it; where it reverts, all storage is restored.
    method InvokeBridgeTokens(caller: Address, destination: Id, token: Address, recipient: Address, total: Word,
                              primaryFee: Word, secondaryFee: Word, received: Word) returns (m: Option<Message>)
      modifies this
      ensures var r := BridgeTokens(me, old(Current()), caller, teleporter, destination, token, recipient, total,
                                    primaryFee, secondaryFee, received);
        && (m.Some? <==> r.Some?) && (m.Some? ==> (Current(), m.value) == r.value)
        && (m.None? ==> Current() == old(Current()))
    {
      hide BridgeTokens;
      var submitted, bridged, assets := submittedBridgeTokenCreations, bridgedBalances, nativeToWrappedTokens;
      var wrapped, balances, allowed, payments := wrappedTokens, custody, granted, paid;
      m := SendTokens(caller, destination, token, recipient, total, primaryFee, secondaryFee, received);
      if m.None? {
        submittedBridgeTokenCreations, bridgedBalances, nativeToWrappedTokens := submitted, bridged, assets;
        wrappedTokens, custody, granted, paid := wrapped, balances, allowed, payments;
      }
    }

    // `newAddress` is where the new token contract is deployed.
    method CreateToken(asset: Lane, newAddress: Address) returns (ok: bool)
      requires FreshAddress(Current(), newAddress)
      modifies `nativeToWrappedTokens, `wrappedTokens
      ensures var r := CreateBridgeToken(old(Current()), asset, newAddress);
        (ok <==> r.Some?) && (ok ==> Current() == r.value)
    {
      if asset in nativeToWrappedTokens || asset.bridge.chain == 0 || asset.bridge.address == 0 || asset.token == 0 {
        return false;
      }
      wrappedTokens := wrappedTokens[newAddress := Wrapped(asset, BridgeToken.EMPTY, 0)];
      nativeToWrappedTokens := nativeToWrappedTokens[asset := newAddress];
      return true;
    }

    method MintBridged(asset: Lane, recipient: Address, amount: Word) returns (ok: bool)
      modifies `wrappedTokens
      ensures var r := MintBridgeTokens(old(Current()), asset, recipient, amount);
        (ok <==> r.Some?) && (ok ==> Current() == r.value)
    {
      if recipient == 0 || asset !in nativeToWrappedTokens || nativeToWrappedTokens[asset] !in wrappedTokens {
        return false;
      }
      var token := nativeToWrappedTokens[asset];
      var minted := BridgeToken.Mint(wrappedTokens[token].ledger, recipient, amount);
      if minted.None? {
        return false;
      }
      wrappedTokens := wrappedTokens[token := wrappedTokens[token].(ledger := minted.value)];
      return true;
    }

    method TransferBridged(lane: Lane, destination: Id, recipient: Address, total: Word, secondaryFee: Word)
      returns (ok: bool, m: Option<Message>)
      modifies `bridgedBalances, `custody, `granted, `paid
      ensures var r := TransferBridgeTokens(me, old(Current()), lane, destination, recipient, total, secondaryFee);
        (ok <==> r.Some?) && (ok ==> (Current(), m) == r.value)
    {
      hide ProcessNative;
      m := None;
      if recipient == 0 || destination.address == 0 {
        return false, None;
      }
      var currentBalance := Lookup(bridgedBalances, lane);
      if currentBalance < total {
        return false, None;
      }
      bridgedBalances := bridgedBalances[lane := currentBalance - total];
      if destination.chain == me.chain {
        if destination.address != me.address || Lookup(custody, lane.token) < total {
          return false, None;
        }
        if recipient != me.address {
          custody := custody[lane.token := Lookup(custody, lane.token) - total];
        }
        var account := Account(lane.token, recipient);
        paid := paid[account := (if account in paid then paid[account] else 0) + total];
        return true, None;
      }
      m := ProcessNativeTokenTransfer(destination, lane.token, recipient, total, secondaryFee);
      ok := m.Some?;
    }

    // A message that Teleporter delivers; where it reverts, all storage is restored.
    method ReceiveTeleporterMessage(from: Id, action: Action, newAddress: Address)
      returns (ok: bool, m: Option<Message>)
      requires action.Create? ==> FreshAddress(Current(), newAddress)
      modifies this
      ensures var r := Receive(me, old(Current()), from, action, newAddress);
        && (ok <==> r.Some?) && (ok ==> (Current(), m) == r.value)
        && (!ok ==> Current() == old(Current()))
    {
      hide CreateBridgeToken, MintBridgeTokens, TransferBridgeTokens;
      var bridged, assets, wrapped := bridgedBalances, nativeToWrappedTokens, wrappedTokens;
      var balances, allowed, payments := custody, granted, paid;
      m := None;
      match action {
        case Create(token) =>
          ok := CreateToken(Lane(from, token), newAddress);
        case MintTokens(token, recipient, amount) =>
          ok := MintBridged(Lane(from, token), recipient, amount);
        case TransferTokens(destination, token, recipient, total, secondaryFee) =>
          ok, m := TransferBridged(Lane(from, token), destination, recipient, total, secondaryFee);
      }
      if !ok {
        bridgedBalances, nativeToWrappedTokens, wrappedTokens := bridged, assets, wrapped;
        custody, granted, paid := balances, allowed, payments;
      }
    }
  }
}
