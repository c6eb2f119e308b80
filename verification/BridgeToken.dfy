// The ledger of a BridgeToken: an ERC-20 token whose balance updates are unchecked,
// so they wrap around unless the ledger's own invariant prevents it.
module BridgeToken {
  import opened Words
  import opened Sums

  datatype Grant = Grant(owner: Address, spender: Address)

  datatype Ledger = Ledger(
    balances: map<Address, Word>,
    allowances: map<Grant, Word>,
    totalSupply: Word)

  const EMPTY: Ledger := Ledger(map[], map[], 0)

  function WrappingAdd(a: Word, b: Word): Word {
    if a + b < WORD_LIMIT then a + b else a + b - WORD_LIMIT
  }

  function WrappingSub(a: Word, b: Word): Word {
    if a >= b then a - b else a - b + WORD_LIMIT
  }

  function Transfer(l: Ledger, from: Address, to: Address, amount: Word): Option<Ledger> {
    if from == 0 || to == 0 || Lookup(l.balances, from) < amount then None
    else
      var debited := l.balances[from := WrappingSub(Lookup(l.balances, from), amount)];
      Some(l.(balances := debited[to := WrappingAdd(Lookup(debited, to), amount)]))
  }

  function Approve(l: Ledger, owner: Address, spender: Address, amount: Word): Option<Ledger> {
    if owner == 0 || spender == 0 then None
    else Some(l.(allowances := l.allowances[Grant(owner, spender) := amount]))
  }

  function IncreaseAllowance(l: Ledger, owner: Address, spender: Address, added: Word): Option<Ledger> {
    var allowed := Lookup(l.allowances, Grant(owner, spender));
    if allowed + added > MAX_WORD then None else Approve(l, owner, spender, allowed + added)
  }

  function DecreaseAllowance(l: Ledger, owner: Address, spender: Address, subtracted: Word): Option<Ledger> {
    var allowed := Lookup(l.allowances, Grant(owner, spender));
    if allowed < subtracted then None else Approve(l, owner, spender, allowed - subtracted)
  }

  // The largest allowance is unlimited: spending does not reduce it.
  function SpendAllowance(l: Ledger, owner: Address, spender: Address, amount: Word): Option<Ledger> {
    var allowed := Lookup(l.allowances, Grant(owner, spender));
    if allowed == MAX_WORD then Some(l)
    else if allowed < amount then None
    else Approve(l, owner, spender, allowed - amount)
  }

  function TransferFrom(l: Ledger, spender: Address, from: Address, to: Address, amount: Word): Option<Ledger> {
    match SpendAllowance(l, from, spender, amount)
    case None => None
    case Some(k) => Transfer(k, from, to, amount)
  }

  // Only the supply is added up with a check.
  function Mint(l: Ledger, account: Address, amount: Word): Option<Ledger> {
    if account == 0 || l.totalSupply + amount > MAX_WORD then None
    else Some(l.(totalSupply := l.totalSupply + amount,
                 balances := l.balances[account := WrappingAdd(Lookup(l.balances, account), amount)]))
  }

  function Burn(l: Ledger, account: Address, amount: Word): Option<Ledger> {
    if account == 0 || Lookup(l.balances, account) < amount then None
    else Some(l.(balances := l.balances[account := WrappingSub(Lookup(l.balances, account), amount)],
                 totalSupply := WrappingSub(l.totalSupply, amount)))
  }

  function BurnFrom(l: Ledger, spender: Address, account: Address, amount: Word): Option<Ledger> {
    match SpendAllowance(l, account, spender, amount)
    case None => None
    case Some(k) => Burn(k, account, amount)
  }

  // What anyone may call; minting is for the bridge that created the token.
  datatype Call =
    | DoTransfer(to: Address, amount: Word)
    | DoTransferFrom(from: Address, to: Address, amount: Word)
    | DoApprove(spender: Address, amount: Word)
    | DoIncreaseAllowance(spender: Address, amount: Word)
    | DoDecreaseAllowance(spender: Address, amount: Word)
    | DoBurn(amount: Word)
    | DoBurnFrom(from: Address, amount: Word)

  function Apply(l: Ledger, caller: Address, call: Call): Option<Ledger> {
    match call
    case DoTransfer(to, amount) => Transfer(l, caller, to, amount)
    case DoTransferFrom(from, to, amount) => TransferFrom(l, caller, from, to, amount)
    case DoApprove(spender, amount) => Approve(l, caller, spender, amount)
    case DoIncreaseAllowance(spender, amount) => IncreaseAllowance(l, caller, spender, amount)
    case DoDecreaseAllowance(spender, amount) => DecreaseAllowance(l, caller, spender, amount)
    case DoBurn(amount) => Burn(l, caller, amount)
    case DoBurnFrom(from, amount) => BurnFrom(l, caller, from, amount)
  }

  // ---------- the invariant ----------

  ghost function AsNats(balances: map<Address, Word>): map<Address, nat> {
    map a | a in balances :: balances[a] as nat
  }

  // All balances together are the supply, which fits a word.
  ghost predicate Inv(l: Ledger) {
    Sum(AsNats(l.balances)) == l.totalSupply
  }

  lemma BalanceUpdate(balances: map<Address, Word>, a: Address, v: Word)
    ensures Sum(AsNats(balances[a := v])) + Lookup(balances, a) == Sum(AsNats(balances)) + v
    ensures Lookup(balances, a) <= Sum(AsNats(balances))
  {
    assert AsNats(balances[a := v]) == AsNats(balances)[a := v];
    SumUpdate(AsNats(balances), a, v);
  }

  // A transfer moves exactly the amount, nothing if sender and receiver are the same,
  // and no balance wraps around.
  lemma TransferIsExact(l: Ledger, from: Address, to: Address, amount: Word)
    requires Inv(l)
    ensures var r := Transfer(l, from, to, amount); r.Some? ==>
      && Inv(r.value) && r.value.totalSupply == l.totalSupply && r.value.allowances == l.allowances
      && (forall a :: Lookup(r.value.balances, a) ==
            Lookup(l.balances, a) - (if a == from then amount else 0) + (if a == to then amount else 0))
  {
    var r := Transfer(l, from, to, amount);
    if r.Some? {
      var debited := l.balances[from := Lookup(l.balances, from) - amount];
      BalanceUpdate(l.balances, from, Lookup(l.balances, from) - amount);
      BalanceUpdate(debited, to, WrappingAdd(Lookup(debited, to), amount));
    }
  }

  lemma MintIsExact(l: Ledger, account: Address, amount: Word)
    requires Inv(l)
    ensures var r := Mint(l, account, amount); r.Some? ==>
      && Inv(r.value) && r.value.totalSupply == l.totalSupply + amount && r.value.allowances == l.allowances
      && (forall a :: Lookup(r.value.balances, a) == Lookup(l.balances, a) + (if a == account then amount else 0))
  {
    BalanceUpdate(l.balances, account, WrappingAdd(Lookup(l.balances, account), amount));
  }

  lemma BurnIsExact(l: Ledger, account: Address, amount: Word)
    requires Inv(l)
    ensures var r := Burn(l, account, amount); r.Some? ==>
      && Inv(r.value) && r.value.totalSupply == l.totalSupply - amount && r.value.allowances == l.allowances
      && (forall a :: Lookup(r.value.balances, a) == Lookup(l.balances, a) - (if a == account then amount else 0))
  {
    BalanceUpdate(l.balances, account, WrappingSub(Lookup(l.balances, account), amount));
  }

  // The tokens that a call takes out of the supply.
  function BurnedBy(call: Call): Word {
    match call
    case DoBurn(amount) => amount
    case DoBurnFrom(_, amount) => amount
    case _ => 0
  }

  lemma ApplyKeepsInv(l: Ledger, caller: Address, call: Call)
    requires Inv(l)
    ensures var r := Apply(l, caller, call); r.Some? ==>
      Inv(r.value) && l.totalSupply == r.value.totalSupply + BurnedBy(call)
  {
    match call
    case DoTransfer(to, amount) => TransferIsExact(l, caller, to, amount);
    case DoTransferFrom(from, to, amount) =>
      var k := SpendAllowance(l, from, caller, amount);
      if k.Some? { TransferIsExact(k.value, from, to, amount); }
    case DoApprove(_, _) =>
    case DoIncreaseAllowance(_, _) =>
    case DoDecreaseAllowance(_, _) =>
    case DoBurn(amount) => BurnIsExact(l, caller, amount);
    case DoBurnFrom(from, amount) =>
      var k := SpendAllowance(l, from, caller, amount);
      if k.Some? { BurnIsExact(k.value, from, amount); }
  }

  // Whoever pays with this call, whoever is paid, and how much.
  function PayerOf(caller: Address, call: Call): Address {
    match call
    case DoTransferFrom(from, _, _) => from
    case DoBurnFrom(from, _) => from
    case _ => caller
  }

  function PaidOf(call: Call): Word {
    match call
    case DoTransfer(_, amount) => amount
    case DoTransferFrom(_, _, amount) => amount
    case _ => BurnedBy(call)
  }

  predicate IsPayee(call: Call, a: Address) {
    (call.DoTransfer? || call.DoTransferFrom?) && call.to == a
  }

  // What the allowance from `owner` to `spender` is after the call.
  function AllowanceAfter(l: Ledger, caller: Address, call: Call, owner: Address, spender: Address): int {
    var before := Lookup(l.allowances, Grant(owner, spender));
    match call
    case DoApprove(to, amount) => if caller == owner && to == spender then amount else before
    case DoIncreaseAllowance(to, amount) => if caller == owner && to == spender then before + amount else before
    case DoDecreaseAllowance(to, amount) => if caller == owner && to == spender then before - amount else before
    case DoTransferFrom(from, _, amount) =>
      if from == owner && caller == spender && before != MAX_WORD then before - amount else before
    case DoBurnFrom(from, amount) =>
      if from == owner && caller == spender && before != MAX_WORD then before - amount else before
    case _ => before
  }

  ghost predicate Moved(l: Ledger, k: Ledger, caller: Address, call: Call) {
    forall a :: Lookup(k.balances, a) == Lookup(l.balances, a)
      - (if a == PayerOf(caller, call) then PaidOf(call) else 0) + (if IsPayee(call, a) then PaidOf(call) else 0)
  }

  lemma BalancesMove(l: Ledger, caller: Address, call: Call)
    requires Inv(l)
    ensures var r := Apply(l, caller, call); r.Some? ==> Moved(l, r.value, caller, call)
  {
    match call
    case DoTransfer(to, amount) => TransferIsExact(l, caller, to, amount);
    case DoTransferFrom(from, to, amount) =>
      var k := SpendAllowance(l, from, caller, amount);
      if k.Some? { TransferIsExact(k.value, from, to, amount); }
    case DoApprove(_, _) =>
    case DoIncreaseAllowance(_, _) =>
    case DoDecreaseAllowance(_, _) =>
    case DoBurn(amount) => BurnIsExact(l, caller, amount);
    case DoBurnFrom(from, amount) =>
      var k := SpendAllowance(l, from, caller, amount);
      if k.Some? { BurnIsExact(k.value, from, amount); }
  }

  lemma AllowancesChange(l: Ledger, caller: Address, call: Call, owner: Address, spender: Address)
    ensures var r := Apply(l, caller, call); r.Some? ==>
      Lookup(r.value.allowances, Grant(owner, spender)) == AllowanceAfter(l, caller, call, owner, spender)
  {
  }

  // Every call moves exactly what it says from payer to payee and changes exactly the
  // allowance it is about, and nobody else's.
  lemma CallEffect(l: Ledger, caller: Address, call: Call)
    requires Inv(l)
    ensures var r := Apply(l, caller, call); r.Some? ==>
      && Moved(l, r.value, caller, call)
      && (forall owner, spender ::
            Lookup(r.value.allowances, Grant(owner, spender)) == AllowanceAfter(l, caller, call, owner, spender))
  {
    hide Inv, Apply, Moved, AllowanceAfter, Lookup;
    BalancesMove(l, caller, call);
    var r := Apply(l, caller, call);
    if r.Some? {
      forall owner, spender
        ensures Lookup(r.value.allowances, Grant(owner, spender)) == AllowanceAfter(l, caller, call, owner, spender)
      {
        AllowancesChange(l, caller, call, owner, spender);
      }
    }
  }

  // A call commits exactly if no address in it is zero, the payer has what is paid, someone
  // else's payment was allowed, and an allowance stays within a word.
  lemma CallCommitsIff(l: Ledger, caller: Address, call: Call)
    requires caller != 0
    ensures Apply(l, caller, call).Some? <==>
      && PayerOf(caller, call) != 0 && Lookup(l.balances, PayerOf(caller, call)) >= PaidOf(call)
      && (call.DoTransfer? || call.DoTransferFrom? ==> call.to != 0)
      && (call.DoTransferFrom? || call.DoBurnFrom? ==>
            var allowed := Lookup(l.allowances, Grant(call.from, caller));
            allowed == MAX_WORD || allowed >= call.amount)
      && (call.DoApprove? || call.DoIncreaseAllowance? || call.DoDecreaseAllowance? ==>
            && call.spender != 0
            && 0 <= AllowanceAfter(l, caller, call, caller, call.spender) <= MAX_WORD)
  {
  }

  // Nobody's balance falls by a call of someone else beyond the allowance given to the
  // caller, which falls by the same amount unless it is unlimited.
  lemma BalanceFallsByConsent(l: Ledger, caller: Address, call: Call, owner: Address)
    requires Inv(l) && owner != caller
    ensures var r := Apply(l, caller, call); r.Some? ==>
      var before, after := Lookup(l.balances, owner), Lookup(r.value.balances, owner);
      var allowed := Lookup(l.allowances, Grant(owner, caller));
      after < before ==>
        && before - after <= allowed
        && Lookup(r.value.allowances, Grant(owner, caller))
             == if allowed == MAX_WORD then allowed else allowed - (before - after)
  {
    match call
    case DoTransfer(to, amount) => TransferIsExact(l, caller, to, amount);
    case DoTransferFrom(from, to, amount) =>
      var k := SpendAllowance(l, from, caller, amount);
      if k.Some? { TransferIsExact(k.value, from, to, amount); }
    case DoApprove(_, _) =>
    case DoIncreaseAllowance(_, _) =>
    case DoDecreaseAllowance(_, _) =>
    case DoBurn(amount) => BurnIsExact(l, caller, amount);
    case DoBurnFrom(from, amount) =>
      var k := SpendAllowance(l, from, caller, amount);
      if k.Some? { BurnIsExact(k.value, from, amount); }
  }

  // ---------- the contract ----------

  class Token {
    const bridgeContract: Address
    const nativeBlockchainID: Word
    const nativeBridge: Address
    const nativeAsset: Address
    var balances: map<Address, Word>
    var allowances: map<Grant, Word>
    var totalSupply: Word

    ghost function Current(): Ledger
      reads this
    {
      Ledger(balances, allowances, totalSupply)
    }

    constructor (deployer: Address, sourceBlockchainID: Word, sourceBridge: Address, sourceAsset: Address)
      requires sourceBlockchainID != 0 && sourceBridge != 0 && sourceAsset != 0
      ensures Current() == EMPTY && bridgeContract == deployer && nativeBlockchainID == sourceBlockchainID
      ensures nativeBridge == sourceBridge && nativeAsset == sourceAsset
    {
      bridgeContract, nativeBlockchainID := deployer, sourceBlockchainID;
      nativeBridge, nativeAsset := sourceBridge, sourceAsset;
      balances, allowances, totalSupply := map[], map[], 0;
    }

    method MoveBalance(from: Address, to: Address, amount: Word) returns (ok: bool)
      modifies `balances
      ensures ok <==> Transfer(old(Current()), from, to, amount).Some?
      ensures Current() == if ok then Transfer(old(Current()), from, to, amount).value else old(Current())
    {
      if from == 0 || to == 0 || Lookup(balances, from) < amount {
        return false;
      }
      balances := balances[from := WrappingSub(Lookup(balances, from), amount)];
      balances := balances[to := WrappingAdd(Lookup(balances, to), amount)];
      return true;
    }

    method ApproveSpender(owner: Address, spender: Address, amount: Word) returns (ok: bool)
      modifies `allowances
      ensures ok <==> Approve(old(Current()), owner, spender, amount).Some?
      ensures Current() == if ok then Approve(old(Current()), owner, spender, amount).value else old(Current())
    {
      if owner == 0 || spender == 0 {
        return false;
      }
      allowances := allowances[Grant(owner, spender) := amount];
      return true;
    }

    method RaiseAllowance(owner: Address, spender: Address, added: Word) returns (ok: bool)
      modifies `allowances
      ensures ok <==> IncreaseAllowance(old(Current()), owner, spender, added).Some?
      ensures Current() == if ok then IncreaseAllowance(old(Current()), owner, spender, added).value else old(Current())
    {
      var allowed := Lookup(allowances, Grant(owner, spender));
      if allowed + added > MAX_WORD {
        return false;
      }
      ok := ApproveSpender(owner, spender, allowed + added);
    }

    method LowerAllowance(owner: Address, spender: Address, taken: Word) returns (ok: bool)
      modifies `allowances
      ensures ok <==> DecreaseAllowance(old(Current()), owner, spender, taken).Some?
      ensures Current() == if ok then DecreaseAllowance(old(Current()), owner, spender, taken).value else old(Current())
    {
      var allowed := Lookup(allowances, Grant(owner, spender));
      if allowed < taken {
        return false;
      }
      ok := ApproveSpender(owner, spender, allowed - taken);
    }

    method Spend(owner: Address, spender: Address, amount: Word) returns (ok: bool)
      modifies `allowances
      ensures ok <==> SpendAllowance(old(Current()), owner, spender, amount).Some?
      ensures Current() == if ok then SpendAllowance(old(Current()), owner, spender, amount).value else old(Current())
    {
      var currentAllowance := Lookup(allowances, Grant(owner, spender));
      if currentAllowance != MAX_WORD {
        if currentAllowance < amount || owner == 0 || spender == 0 {
          return false;
        }
        allowances := allowances[Grant(owner, spender) := currentAllowance - amount];
      }
      return true;
    }

    method TransferTokensFrom(spender: Address, from: Address, to: Address, amount: Word) returns (ok: bool)
      modifies this
      ensures ok <==> TransferFrom(old(Current()), spender, from, to, amount).Some?
      ensures Current() == if ok then TransferFrom(old(Current()), spender, from, to, amount).value else old(Current())
    {
      var allowed := allowances;
      ok := Spend(from, spender, amount);
      if ok {
        ok := MoveBalance(from, to, amount);
        if !ok {
          allowances := allowed;
        }
      }
    }

    method MintTokens(caller: Address, account: Address, amount: Word) returns (ok: bool)
      modifies this
      ensures ok <==> caller == bridgeContract && Mint(old(Current()), account, amount).Some?
      ensures Current() == if ok then Mint(old(Current()), account, amount).value else old(Current())
    {
      if caller != bridgeContract || account == 0 || totalSupply + amount > MAX_WORD {
        return false;
      }
      totalSupply := totalSupply + amount;
      balances := balances[account := WrappingAdd(Lookup(balances, account), amount)];
      return true;
    }

    method BurnTokens(account: Address, amount: Word) returns (ok: bool)
      modifies `balances, `totalSupply
      ensures ok <==> Burn(old(Current()), account, amount).Some?
      ensures Current() == if ok then Burn(old(Current()), account, amount).value else old(Current())
    {
      if account == 0 || Lookup(balances, account) < amount {
        return false;
      }
      balances := balances[account := WrappingSub(Lookup(balances, account), amount)];
      totalSupply := WrappingSub(totalSupply, amount);
      return true;
    }

    method BurnTokensFrom(spender: Address, account: Address, amount: Word) returns (ok: bool)
      modifies this
      ensures ok <==> BurnFrom(old(Current()), spender, account, amount).Some?
      ensures Current() == if ok then BurnFrom(old(Current()), spender, account, amount).value else old(Current())
    {
      var allowed := allowances;
      ok := Spend(account, spender, amount);
      if ok {
        ok := BurnTokens(account, amount);
        if !ok {
          allowances := allowed;
        }
      }
    }
  }
}
