// How the contracts of the native token bridge pay Teleporter in fee tokens: a transfer
// collects its fee from the caller and grants Teleporter as much as it received; a burn
// report collects nothing, and can only pay with what earlier transfers left over.
module NativeTokenFees {
  import opened Words

  // What a contract holds of a fee token, and how much of it Teleporter may take.
  datatype Purse = Purse(balance: Word, allowance: Word)

  const NOTHING: Purse := Purse(0, 0)

  function PurseOf(purses: map<Address, Purse>, token: Address): Purse {
    if token in purses then purses[token] else NOTHING
  }

  // `received` is by how much the balance grows when the caller is asked for the fee.
  function CollectFee(purses: map<Address, Purse>, token: Address, received: Word): Option<map<Address, Purse>> {
    var p := PurseOf(purses, token);
    if token == 0 || received == 0 || p.balance + received > MAX_WORD || p.allowance + received > MAX_WORD then None
    else Some(purses[token := Purse(p.balance + received, p.allowance + received)])
  }

  // Teleporter takes the fee of a message. An unlimited allowance is not used up.
  function TakeFee(purses: map<Address, Purse>, token: Address, fee: Word): Option<map<Address, Purse>> {
    var p := PurseOf(purses, token);
    if fee == 0 then Some(purses)
    else if token == 0 || p.balance < fee || p.allowance < fee then None
    else Some(purses[token := Purse(p.balance - fee, if p.allowance == MAX_WORD then MAX_WORD else p.allowance - fee)])
  }

  function PayForTransfer(purses: map<Address, Purse>, token: Address, fee: Word, received: Word)
    : Option<map<Address, Purse>>
  {
    if fee == 0 then Some(purses)
    else
      match CollectFee(purses, token, received)
      case None => None
      case Some(collected) => TakeFee(collected, token, fee)
  }

  // ---------- runs ----------

  datatype Step =
    | TransferWithFee(token: Address, fee: Word, received: Word)
    | ReportWithFee(token: Address, fee: Word)
    // tokens that someone else sends to the contract
    | Gift(token: Address, amount: Word)

  // The purses, and what was ever collected, paid and given in each token.
  datatype Books = Books(
    purses: map<Address, Purse>,
    collected: map<Address, nat>,
    paid: map<Address, nat>,
    given: map<Address, nat>)

  const NEW: Books := Books(map[], map[], map[], map[])

  function TotalAt(m: map<Address, nat>, token: Address): nat {
    if token in m then m[token] else 0
  }

  function Add(m: map<Address, nat>, token: Address, amount: nat): map<Address, nat> {
    m[token := TotalAt(m, token) + amount]
  }

  // A call that fails changes nothing.
  function Next(b: Books, step: Step): Books {
    match step
    case TransferWithFee(token, fee, received) =>
      (match PayForTransfer(b.purses, token, fee, received)
       case None => b
       case Some(purses) =>
         if fee == 0 then b
         else Books(purses, Add(b.collected, token, received), Add(b.paid, token, fee), b.given))
    case ReportWithFee(token, fee) =>
      (match TakeFee(b.purses, token, fee)
       case None => b
       case Some(purses) => Books(purses, b.collected, Add(b.paid, token, fee), b.given))
    case Gift(token, amount) =>
      var p := PurseOf(b.purses, token);
      if p.balance + amount > MAX_WORD then b
      else b.(purses := b.purses[token := Purse(p.balance + amount, p.allowance)],
              given := Add(b.given, token, amount))
  }

  function Run(b: Books, steps: seq<Step>): Books {
    if steps == [] then b else Next(Run(b, steps[..|steps| - 1]), steps[|steps| - 1])
  }

  // The balance is what was collected and given and not paid. The allowance is what was
  // collected and not paid, and the balance covers it, unless the allowance is unlimited.
  ghost predicate Sound(b: Books, token: Address) {
    var p := PurseOf(b.purses, token);
    && p.balance + TotalAt(b.paid, token) == TotalAt(b.collected, token) + TotalAt(b.given, token)
    && (p.allowance < MAX_WORD ==>
          p.allowance + TotalAt(b.paid, token) == TotalAt(b.collected, token) && p.allowance <= p.balance)
  }

  lemma OtherIsSound(b: Books, token: Address, step: Step)
    requires Sound(b, token) && step.token != token
    ensures Sound(Next(b, step), token)
  {
  }

  lemma TransferIsSound(b: Books, step: Step)
    requires Sound(b, step.token) && step.TransferWithFee?
    ensures Sound(Next(b, step), step.token)
  {
  }

  lemma ReportIsSound(b: Books, step: Step)
    requires Sound(b, step.token) && step.ReportWithFee?
    ensures Sound(Next(b, step), step.token)
  {
  }

  lemma {:induction false} RunIsSound(steps: seq<Step>, token: Address)
    ensures Sound(Run(NEW, steps), token)
  {
    if steps != [] {
      var b, step := Run(NEW, steps[..|steps| - 1]), steps[|steps| - 1];
      RunIsSound(steps[..|steps| - 1], token);
      if step.token != token {
        OtherIsSound(b, token, step);
      } else if step.TransferWithFee? {
        TransferIsSound(b, step);
      } else if step.ReportWithFee? {
        ReportIsSound(b, step);
      }
    }
  }

  // In every run a report can pay exactly what transfers have collected beyond their own
  // fees and no report has paid yet; an unlimited allowance lets it pay all there is.
  lemma ReportPaysFromExcess(steps: seq<Step>, token: Address, fee: Word)
    ensures var b := Run(NEW, steps); var p := PurseOf(b.purses, token);
      TakeFee(b.purses, token, fee).Some? <==>
        fee == 0 || (token != 0 && if p.allowance == MAX_WORD then fee <= p.balance
                                   else fee <= TotalAt(b.collected, token) - TotalAt(b.paid, token))
  {
    RunIsSound(steps, token);
  }

  // A transfer whose fee token takes a cut can pay its fee exactly if earlier transfers
  // have left over what the cut is short of. To an unlimited allowance nothing can be added.
  lemma TransferPaysIff(steps: seq<Step>, token: Address, fee: Word, received: Word)
    ensures var b := Run(NEW, steps); var p := PurseOf(b.purses, token);
      PayForTransfer(b.purses, token, fee, received).Some? <==>
        fee == 0 || (&& token != 0 && received > 0
                     && p.allowance < MAX_WORD && p.balance + received <= MAX_WORD
                     && fee <= TotalAt(b.collected, token) - TotalAt(b.paid, token) + received)
  {
    RunIsSound(steps, token);
  }

  // The fee token delivers exactly what it is asked for.
  predicate Exact(step: Step) {
    step.TransferWithFee? ==> step.received == step.fee && step.fee < MAX_WORD
  }

  lemma {:induction false} ExactFeesLeaveNothing(steps: seq<Step>, token: Address)
    requires forall i :: 0 <= i < |steps| ==> Exact(steps[i])
    ensures PurseOf(Run(NEW, steps).purses, token).allowance == 0
  {
    if steps != [] {
      assert Exact(steps[|steps| - 1]);
      ExactFeesLeaveNothing(steps[..|steps| - 1], token);
      RunIsSound(steps[..|steps| - 1], token);
      if !steps[|steps| - 1].Gift? {
        ExactFeesLeaveNothing(steps[..|steps| - 1], steps[|steps| - 1].token);
      }
    }
  }

  // So with plain fee tokens no report with a fee ever commits, though the function takes
  // one, and every transfer does whose fee the caller can bring.
  lemma ExactFeesRefuseReports(steps: seq<Step>, token: Address, fee: Word)
    requires forall i :: 0 <= i < |steps| ==> Exact(steps[i])
    ensures TakeFee(Run(NEW, steps).purses, token, fee).Some? <==> fee == 0
  {
    ExactFeesLeaveNothing(steps, token);
  }

  // ---------- inputs ----------

  lemma OneStep(step: Step)
    ensures Run(NEW, [step]) == Next(NEW, step)
  {
    assert [step][..0] == [];
  }

  lemma FeeReportFails()
    ensures TakeFee(Run(NEW, [TransferWithFee(3, 5, 5)]).purses, 3, 1) == None
  {
    OneStep(TransferWithFee(3, 5, 5));
  }

  // A token that delivers more than it is asked for leaves an allowance.
  lemma ExcessPaysReport()
    ensures var purses := Run(NEW, [TransferWithFee(3, 5, 8)]).purses;
      TakeFee(purses, 3, 3).Some? && TakeFee(purses, 3, 4) == None
  {
    OneStep(TransferWithFee(3, 5, 8));
  }

  // So does a fee of the largest amount, which makes the allowance unlimited.
  lemma LargestFeePaysReport()
    ensures TakeFee(Run(NEW, [TransferWithFee(3, MAX_WORD, MAX_WORD), Gift(3, 5)]).purses, 3, 5).Some?
  {
    var first := TransferWithFee(3, MAX_WORD, MAX_WORD);
    OneStep(first);
    assert [first, Gift(3, 5)][..1] == [first];
  }
}
