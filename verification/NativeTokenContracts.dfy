// The contracts of the native token bridge, updating their storage and the balances
// they move step by step, each proved to do what module NativeTokenBridge specifies.
// A failing call returns without a trace. `sent` says whether Teleporter, once it has its
// fee, takes the message that a call sends; `accepted`, whether a payment goes through.
module NativeTokenContracts {
  import opened Words
  import opened NativeTokenBridge
  import opened NativeTokenFees

  class NativeTokenDestination {
    const teleporterMessenger: Address
    const sourceBlockchainID: Word
    const nativeTokenSourceAddress: Address
    const initialReserveImbalance: Word
    var currentReserveImbalance: Word
    var totalMinted: Word

    // Balances on the contract's chain: of the two burn addresses, and of all others.
    var burnedTxFees: nat
    var burnedForTransfer: nat
    var circulating: nat

    // What the contract has of the tokens that fees are paid in.
    var purses: map<Address, Purse>

    ghost function Current(): Destination
      reads this
    {
      Destination(initialReserveImbalance, currentReserveImbalance, totalMinted,
                  burnedTxFees, burnedForTransfer, circulating)
    }

    constructor (messenger: Address, blockchainID: Word, sourceID: Word, source: Address, initial: Word)
      requires messenger != 0 && sourceID != 0 && sourceID != blockchainID && source != 0 && initial != 0
      ensures Current() == Start(initial).destination && purses == map[]
      ensures teleporterMessenger == messenger && sourceBlockchainID == sourceID
      ensures nativeTokenSourceAddress == source
    {
      teleporterMessenger, sourceBlockchainID, nativeTokenSourceAddress := messenger, sourceID, source;
      initialReserveImbalance, currentReserveImbalance, totalMinted := initial, initial, 0;
      burnedTxFees, burnedForTransfer, circulating, purses := 0, 0, initial, map[];
    }

    predicate FromSource(caller: Address, chain: Word, sender: Address) {
      caller == teleporterMessenger && chain == sourceBlockchainID && sender == nativeTokenSourceAddress
    }

    method ReceiveTeleporterMessage(caller: Address, chain: Word, sender: Address, t: Transfer)
      returns (ok: bool)
      modifies `currentReserveImbalance, `totalMinted, `circulating
      ensures ok <==> FromSource(caller, chain, sender) && Collect(old(Current()), t).Some?
      ensures Current() == if ok then Collect(old(Current()), t).value else old(Current())
    {
      if !FromSource(caller, chain, sender) || t.recipient == 0 || t.amount == 0 {
        return false;
      }
      var adjustedAmount, imbalance := t.amount, currentReserveImbalance;
      if imbalance > 0 {
        if t.amount > imbalance {
          adjustedAmount := t.amount - imbalance;
          currentReserveImbalance := 0;
        } else {
          currentReserveImbalance := imbalance - t.amount;
          return true;
        }
      }
      if totalMinted + adjustedAmount > MAX_WORD {
        currentReserveImbalance := imbalance;
        return false;
      }
      totalMinted := totalMinted + adjustedAmount;
      circulating := circulating + adjustedAmount;
      return true;
    }

    // `received` is what comes in when the caller is asked for the fee.
    method TransferToSource(recipient: Address, value: Word, feeToken: Address, feeAmount: Word, received: Word,
                            sent: bool) returns (m: Option<SourceMessage>)
      modifies this
      ensures m == if && sent && BurnForTransfer(old(Current()), recipient, value).Some?
                      && PayForTransfer(old(purses), feeToken, feeAmount, received).Some?
                   then Some(Unlock(recipient, value)) else None
      ensures Current() == if m.Some? then BurnForTransfer(old(Current()), recipient, value).value
                           else old(Current())
      ensures purses == if m.Some? then PayForTransfer(old(purses), feeToken, feeAmount, received).value
                        else old(purses)
    {
      if recipient == 0 || currentReserveImbalance != 0 || circulating < value {
        return None;
      }
      var before := purses;
      if feeAmount > 0 {
        var collected := CollectFee(purses, feeToken, received);
        if collected.None? {
          return None;
        }
        purses := collected.value;
      }
      var taken := TakeFee(purses, feeToken, feeAmount);
      if taken.None? || !sent {
        purses := before;
        return None;
      }
      purses := taken.value;
      circulating := circulating - value;
      burnedForTransfer := burnedForTransfer + value;
      return Some(Unlock(recipient, value));
    }

    // The fee is passed on to Teleporter without being collected. The report names all
    // fees burned, whether the bridge is collateralized or not.
    method ReportTotalBurnedTxFees(feeToken: Address, feeAmount: Word, sent: bool) returns (m: Option<SourceMessage>)
      modifies `purses
      ensures m.Some? <==> sent && burnedTxFees <= MAX_WORD && TakeFee(old(purses), feeToken, feeAmount).Some?
      ensures m.Some? ==> m.value == Burn(burnedTxFees)
      ensures purses == if m.Some? then TakeFee(old(purses), feeToken, feeAmount).value else old(purses)
    {
      if burnedTxFees > MAX_WORD {
        return None;
      }
      var taken := TakeFee(purses, feeToken, feeAmount);
      if taken.None? || !sent {
        return None;
      }
      purses := taken.value;
      return Some(Burn(burnedTxFees));
    }

    method IsCollateralized() returns (r: bool)
      ensures r <==> Current().currentReserveImbalance == 0
    {
      return currentReserveImbalance == 0;
    }

    // None where the checked arithmetic fails.
    method GetTotalSupply() returns (r: Option<Word>)
      ensures r == TotalSupply(Current())
    {
      var burned := burnedTxFees + burnedForTransfer;
      var created := totalMinted + initialReserveImbalance;
      if burned > MAX_WORD || created > MAX_WORD || burned > created {
        return None;
      }
      return Some(created - burned);
    }
  }

  class ERC20TokenSource {
    const teleporterMessenger: Address
    const destinationBlockchainID: Word
    const nativeTokenDestinationAddress: Address
    var destinationBurnedTotal: Word

    // Balances in the locked ERC-20 token: of this contract and of the burn address.
    var balance: nat
    var burned: nat

    ghost function Current(): Source
      reads this
    {
      Source(balance, destinationBurnedTotal, burned)
    }

    constructor (messenger: Address, blockchainID: Word, destinationID: Word, destination: Address)
      requires messenger != 0 && destinationID != 0 && destinationID != blockchainID && destination != 0
      ensures Current() == Start(0).source
    {
      teleporterMessenger, destinationBlockchainID := messenger, destinationID;
      nativeTokenDestinationAddress := destination;
      destinationBurnedTotal, balance, burned := 0, 0, 0;
    }

    predicate FromDestination(caller: Address, chain: Word, sender: Address) {
      caller == teleporterMessenger && chain == destinationBlockchainID && sender == nativeTokenDestinationAddress
    }

    // `received` is by how much the balance grows when the token is asked for the total
    // amount. Teleporter takes the fee out of it; the rest is locked and announced.
    method TransferToDestination(recipient: Address, received: Word, feeAmount: Word, sent: bool)
      returns (t: Option<Transfer>)
      modifies this
      ensures t == if recipient != 0 && received > feeAmount && sent
                   then Some(Transfer(recipient, received - feeAmount)) else None
      ensures Current() == if t.Some? then old(Current()).(collateral := old(balance) + t.value.amount)
                           else old(Current())
    {
      if recipient == 0 || received == 0 || received <= feeAmount {
        return None;
      }
      balance := balance + received;
      if !sent {
        balance := balance - received;
        return None;
      }
      balance := balance - feeAmount;
      return Some(Transfer(recipient, received - feeAmount));
    }

    method ReceiveTeleporterMessage(caller: Address, chain: Word, sender: Address, m: SourceMessage)
      returns (ok: bool)
      modifies this
      ensures ok <==> FromDestination(caller, chain, sender) && Handle(old(Current()), m).Some?
      ensures Current() == if ok then Handle(old(Current()), m).value else old(Current())
    {
      if !FromDestination(caller, chain, sender) {
        return false;
      }
      match m
      case Unlock(recipient, amount) =>
        ok := UnlockTokens(recipient, amount);
      case Burn(total) =>
        ok := HandleBurnTokens(total);
    }

    method UnlockTokens(recipient: Address, amount: Word) returns (ok: bool)
      modifies `balance
      ensures ok <==> recipient != 0 && amount <= old(balance)
      ensures balance == if ok then old(balance) - amount else old(balance)
    {
      if recipient == 0 || balance < amount {
        return false;
      }
      balance := balance - amount;
      return true;
    }

    method HandleBurnTokens(newBurnTotal: Word) returns (ok: bool)
      modifies this
      ensures ok <==> Handle(old(Current()), Burn(newBurnTotal)).Some?
      ensures Current() == if ok then Handle(old(Current()), Burn(newBurnTotal)).value else old(Current())
    {
      if newBurnTotal > destinationBurnedTotal {
        var difference := newBurnTotal - destinationBurnedTotal;
        if balance < difference {
          return false;
        }
        balance, burned := balance - difference, burned + difference;
        destinationBurnedTotal := newBurnTotal;
      }
      return true;
    }
  }

  class NativeTokenSource {
    const teleporterMessenger: Address
    const destinationBlockchainID: Word
    const nativeTokenDestinationAddress: Address
    var destinationBurnedTotal: Word

    // Native balances: of this contract and of the burn address.
    var balance: nat
    var burned: nat

    // What the contract has of the tokens that fees are paid in.
    var purses: map<Address, Purse>

    ghost function Current(): Source
      reads this
    {
      Source(balance, destinationBurnedTotal, burned)
    }

    constructor (messenger: Address, blockchainID: Word, destinationID: Word, destination: Address)
      requires messenger != 0 && destinationID != 0 && destinationID != blockchainID && destination != 0
      ensures Current() == Start(0).source && purses == map[]
    {
      teleporterMessenger, destinationBlockchainID := messenger, destinationID;
      nativeTokenDestinationAddress := destination;
      destinationBurnedTotal, balance, burned, purses := 0, 0, 0, map[];
    }

    predicate FromDestination(caller: Address, chain: Word, sender: Address) {
      caller == teleporterMessenger && chain == destinationBlockchainID && sender == nativeTokenDestinationAddress
    }

    // The whole value paid with the call is locked, even if it is zero; the fee is paid in
    // another token, of which `received` comes in when the caller is asked for it.
    method TransferToDestination(recipient: Address, value: Word, feeToken: Address, feeAmount: Word, received: Word,
                                 sent: bool) returns (t: Option<Transfer>)
      modifies this
      ensures t == if recipient != 0 && sent && PayForTransfer(old(purses), feeToken, feeAmount, received).Some?
                   then Some(Transfer(recipient, value)) else None
      ensures Current() == if t.Some? then old(Current()).(collateral := old(balance) + value) else old(Current())
      ensures purses == if t.Some? then PayForTransfer(old(purses), feeToken, feeAmount, received).value
                        else old(purses)
    {
      if recipient == 0 {
        return None;
      }
      var before := purses;
      if feeAmount > 0 {
        var collected := CollectFee(purses, feeToken, received);
        if collected.None? {
          return None;
        }
        purses := collected.value;
      }
      var taken := TakeFee(purses, feeToken, feeAmount);
      if taken.None? || !sent {
        purses := before;
        return None;
      }
      purses := taken.value;
      balance := balance + value;
      return Some(Transfer(recipient, value));
    }

    method ReceiveTeleporterMessage(caller: Address, chain: Word, sender: Address, m: SourceMessage, accepted: bool)
      returns (ok: bool)
      modifies `destinationBurnedTotal, `balance, `burned
      ensures ok <==> FromDestination(caller, chain, sender) && Handle(old(Current()), m).Some?
                      && (m.Unlock? ==> accepted)
      ensures Current() == if ok then Handle(old(Current()), m).value else old(Current())
    {
      if !FromDestination(caller, chain, sender) {
        return false;
      }
      match m
      case Unlock(recipient, amount) =>
        if recipient == 0 || balance < amount || !accepted {
          return false;
        }
        balance := balance - amount;
        return true;
      case Burn(newBurnTotal) =>
        if newBurnTotal > destinationBurnedTotal {
          var difference := newBurnTotal - destinationBurnedTotal;
          if balance < difference {
            return false;
          }
          balance, burned := balance - difference, burned + difference;
          destinationBurnedTotal := newBurnTotal;
        }
        return true;
    }
  }
}
