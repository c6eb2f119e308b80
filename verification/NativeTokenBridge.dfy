// The bridge that backs the native token of a destination chain by collateral that a
// contract on the source chain holds: what each contract does with a message, and the
// books of both sides over every run.
module NativeTokenBridge {
  import opened Words
  import opened Sums

  datatype Transfer = Transfer(recipient: Address, amount: Word)
  datatype SourceMessage = Unlock(recipient: Address, amount: Word) | Burn(total: Word)

  // The destination contract, and where the native tokens of its chain are: in the two
  // burn addresses or anywhere else.
  datatype Destination = Destination(
    initialReserveImbalance: Word,
    currentReserveImbalance: Word,
    totalMinted: Word,
    burnedTxFees: nat,
    burnedForTransfer: nat,
    circulating: nat)

  // The source contract: the collateral it holds and what it sent to the burn address.
  datatype Source = Source(collateral: nat, destinationBurnedTotal: Word, burned: nat)

  // ---------- what the contracts do ----------

  // A transfer that arrives pays down the reserve imbalance first and mints the rest.
  function Collect(d: Destination, t: Transfer): Option<Destination> {
    if t.recipient == 0 || t.amount == 0 then None
    else if t.amount <= d.currentReserveImbalance then
      Some(d.(currentReserveImbalance := d.currentReserveImbalance - t.amount))
    else
      var minted := t.amount - d.currentReserveImbalance;
      if d.totalMinted + minted > MAX_WORD then None
      else Some(d.(currentReserveImbalance := 0,
                   totalMinted := d.totalMinted + minted,
                   circulating := d.circulating + minted))
  }

  // `value` comes from the caller, so it is in circulation before the call.
  function BurnForTransfer(d: Destination, recipient: Address, value: Word): Option<Destination> {
    if recipient == 0 || d.currentReserveImbalance != 0 || d.circulating < value then None
    else Some(d.(circulating := d.circulating - value, burnedForTransfer := d.burnedForTransfer + value))
  }

  function TotalSupply(d: Destination): Option<Word> {
    var burned := d.burnedTxFees + d.burnedForTransfer;
    var created := d.totalMinted + d.initialReserveImbalance;
    if burned > MAX_WORD || created > MAX_WORD || burned > created then None
    else Some(created - burned)
  }

  // None where the collateral does not cover what is asked for.
  function Handle(s: Source, m: SourceMessage): Option<Source> {
    match m
    case Unlock(recipient, amount) =>
      if recipient == 0 || s.collateral < amount then None
      else Some(s.(collateral := s.collateral - amount))
    case Burn(total) =>
      if total <= s.destinationBurnedTotal then Some(s)
      else
        var difference := total - s.destinationBurnedTotal;
        if s.collateral < difference then None
        else Some(Source(s.collateral - difference, total, s.burned + difference))
  }

  // ---------- the two chains ----------

  // Messages under way are those sent and not yet executed; Teleporter executes each
  // at most once, in any order.
  datatype System = System(
    source: Source,
    destination: Destination,
    toDestination: map<nat, Transfer>,
    toSource: map<nat, SourceMessage>,
    nextID: nat,
    // history
    locked: nat,
    arrived: nat,
    unlocked: nat,
    unlocking: nat,
    donated: nat,
    sentToBurn: nat)

  datatype Step =
    // collateral is locked and a message for the destination is sent
    | Lock(recipient: Address, amount: Word)
    // message `id` is executed on the destination, or tried in vain
    | Arrive(id: nat)
    | TransferToSource(recipient: Address, value: Word)
    | ReportTotalBurnedTxFees
    // message `id` is executed on the source; its recipient may refuse payment
    | Settle(id: nat, accepted: bool)
    // what others do: fees are burned, or tokens are sent to an address of the bridge
    | PayTxFees(fees: nat)
    | SendToBurnAddress(tokens: nat)
    | Donate(gift: nat)

  function Start(initial: Word): System {
    System(Source(0, 0, 0), Destination(initial, initial, 0, 0, 0, initial), map[], map[], 0, 0, 0, 0, 0, 0, 0)
  }

  function Next(y: System, step: Step): System {
    match step
    case Lock(recipient, amount) =>
      if recipient == 0 then y
      else y.(source := y.source.(collateral := y.source.collateral + amount),
              toDestination := y.toDestination[y.nextID := Transfer(recipient, amount)],
              nextID := y.nextID + 1, locked := y.locked + amount)
    case Arrive(id) =>
      if id !in y.toDestination then y
      else
        (match Collect(y.destination, y.toDestination[id])
         case None => y
         case Some(d) => y.(destination := d, toDestination := y.toDestination - {id},
                            arrived := y.arrived + y.toDestination[id].amount))
    case TransferToSource(recipient, value) =>
      (match BurnForTransfer(y.destination, recipient, value)
       case None => y
       case Some(d) => y.(destination := d,
                          toSource := y.toSource[y.nextID := Unlock(recipient, value)],
                          nextID := y.nextID + 1, unlocking := y.unlocking + value))
    case ReportTotalBurnedTxFees =>
      if y.destination.burnedTxFees > MAX_WORD then y
      else y.(toSource := y.toSource[y.nextID := Burn(y.destination.burnedTxFees)], nextID := y.nextID + 1)
    case Settle(id, accepted) =>
      if id !in y.toSource || !accepted then y
      else
        (match Handle(y.source, y.toSource[id])
         case None => y
         case Some(s) => y.(source := s, toSource := y.toSource - {id},
                            unlocked := y.unlocked + UnlockedBy(y.toSource[id])))
    case PayTxFees(amount) =>
      if y.destination.circulating < amount then y
      else y.(destination := y.destination.(circulating := y.destination.circulating - amount,
                                            burnedTxFees := y.destination.burnedTxFees + amount))
    case SendToBurnAddress(amount) =>
      if y.destination.circulating < amount then y
      else y.(destination := y.destination.(circulating := y.destination.circulating - amount,
                                            burnedForTransfer := y.destination.burnedForTransfer + amount),
              sentToBurn := y.sentToBurn + amount)
    case Donate(amount) =>
      y.(source := y.source.(collateral := y.source.collateral + amount), donated := y.donated + amount)
  }

  function UnlockedBy(m: SourceMessage): nat {
    match m
    case Unlock(_, amount) => amount
    case Burn(_) => 0
  }

  function Run(y: System, steps: seq<Step>): System {
    if steps == [] then y else Next(Run(y, steps[..|steps| - 1]), steps[|steps| - 1])
  }

  // ---------- the books ----------

  ghost function Amounts(ts: map<nat, Transfer>): map<nat, nat> {
    map i | i in ts :: ts[i].amount as nat
  }

  ghost function Unlocks(ms: map<nat, SourceMessage>): map<nat, nat> {
    map i | i in ms :: UnlockedBy(ms[i])
  }

  // A report names no more than the fees burned by now.
  ghost predicate ReportsCovered(ms: map<nat, SourceMessage>, burnedTxFees: nat) {
    forall i :: i in ms && ms[i].Burn? ==> ms[i].total <= burnedTxFees
  }

  // An unlock is sent to someone, and only by a collateralized bridge.
  ghost predicate UnlocksAllowed(ms: map<nat, SourceMessage>, imbalance: Word) {
    forall i :: i in ms && ms[i].Unlock? ==> ms[i].recipient != 0 && imbalance == 0
  }

  ghost predicate MessagesSent(y: System) {
    && (forall i :: i in y.toDestination ==> i < y.nextID && y.toDestination[i].recipient != 0)
    && (forall i :: i in y.toSource ==> i < y.nextID)
  }

  ghost predicate Inv(y: System) {
    var s, d := y.source, y.destination;
    && MessagesSent(y)
    // what was locked is still held, was paid out, or was burned
    && s.burned == s.destinationBurnedTotal
    && s.collateral + y.unlocked + s.burned == y.locked + y.donated
    // what was locked has arrived or is under way
    && y.locked == y.arrived + Sum(Amounts(y.toDestination))
    && Reserve(d, y.arrived)
    // the chain's tokens are those of genesis and those minted
    && d.circulating + d.burnedTxFees + d.burnedForTransfer == d.initialReserveImbalance + d.totalMinted
    // what is being unlocked was burned on the destination before
    && y.unlocking == y.unlocked + Sum(Unlocks(y.toSource))
    && d.burnedForTransfer == y.unlocking + y.sentToBurn
    && s.destinationBurnedTotal <= d.burnedTxFees && ReportsCovered(y.toSource, d.burnedTxFees)
    && UnlocksAllowed(y.toSource, d.currentReserveImbalance)
  }

  // The reserve imbalance and the minted total in closed form, from the sum of all
  // transfers that have arrived.
  ghost predicate Reserve(d: Destination, arrived: nat) {
    && d.currentReserveImbalance
         == (if arrived < d.initialReserveImbalance then d.initialReserveImbalance - arrived else 0)
    && d.totalMinted
         == (if arrived < d.initialReserveImbalance then 0 else arrived - d.initialReserveImbalance)
  }

  lemma StartInv(initial: Word)
    ensures Inv(Start(initial))
  {
  }

  lemma LockKeepsInv(y: System, recipient: Address, amount: Word)
    requires Inv(y)
    ensures Inv(Next(y, Lock(recipient, amount)))
  {
    assert Amounts(y.toDestination[y.nextID := Transfer(recipient, amount)])
        == Amounts(y.toDestination)[y.nextID := amount];
    SumUpdate(Amounts(y.toDestination), y.nextID, amount);
  }

  lemma ArriveKeepsInv(y: System, id: nat)
    requires Inv(y)
    ensures Inv(Next(y, Arrive(id)))
  {
    if id in y.toDestination {
      assert Amounts(y.toDestination - {id}) == Amounts(y.toDestination) - {id};
      SumWithout(Amounts(y.toDestination), id);
    }
  }

  lemma SendKeepsInv(y: System, step: Step)
    requires Inv(y) && (step.TransferToSource? || step.ReportTotalBurnedTxFees?)
    ensures Inv(Next(y, step))
  {
    var z := Next(y, step);
    if z != y {
      var m := z.toSource[y.nextID];
      assert Unlocks(y.toSource[y.nextID := m]) == Unlocks(y.toSource)[y.nextID := UnlockedBy(m)];
      SumUpdate(Unlocks(y.toSource), y.nextID, UnlockedBy(m));
    }
  }

  lemma SettleKeepsInv(y: System, id: nat, accepted: bool)
    requires Inv(y)
    ensures Inv(Next(y, Settle(id, accepted)))
  {
    if id in y.toSource {
      assert Unlocks(y.toSource - {id}) == Unlocks(y.toSource) - {id};
      SumWithout(Unlocks(y.toSource), id);
    }
  }

  lemma NextKeepsInv(y: System, step: Step)
    requires Inv(y)
    ensures Inv(Next(y, step))
  {
    match step
    case Lock(recipient, amount) => LockKeepsInv(y, recipient, amount);
    case Arrive(id) => ArriveKeepsInv(y, id);
    case TransferToSource(_, _) => SendKeepsInv(y, step);
    case ReportTotalBurnedTxFees => SendKeepsInv(y, step);
    case Settle(id, accepted) => SettleKeepsInv(y, id, accepted);
    case PayTxFees(_) =>
    case SendToBurnAddress(_) =>
    case Donate(_) =>
  }

  lemma {:induction false} RunInv(initial: Word, steps: seq<Step>)
    ensures Inv(Run(Start(initial), steps))
  {
    if steps == [] {
      StartInv(initial);
    } else {
      RunInv(initial, steps[..|steps| - 1]);
      NextKeepsInv(Run(Start(initial), steps[..|steps| - 1]), steps[|steps| - 1]);
    }
  }

  // ---------- what users can rely on ----------

  // Once the bridge is collateralized, the source covers every unlock under way and
  // the highest burn total that can still be reported, all together.
  lemma CollateralCoversAll(initial: Word, steps: seq<Step>)
    ensures var y := Run(Start(initial), steps);
      y.destination.currentReserveImbalance == 0 ==>
        y.source.collateral + y.source.destinationBurnedTotal
          >= Sum(Unlocks(y.toSource)) + y.destination.burnedTxFees
  {
    RunInv(initial, steps);
  }

  // A message to the source fails exactly if it is a report of more fees than the
  // collateral can make up for, and none does once the bridge is collateralized. An
  // unlock never fails.
  lemma FailsIffReportExceeds(initial: Word, steps: seq<Step>, id: nat)
    requires id in Run(Start(initial), steps).toSource
    ensures var y := Run(Start(initial), steps); var m := y.toSource[id];
      && (Handle(y.source, m) == None <==>
            m.Burn? && m.total > y.source.destinationBurnedTotal + y.source.collateral)
      && (y.destination.currentReserveImbalance == 0 ==> Handle(y.source, m).Some?)
  {
    var y := Run(Start(initial), steps);
    RunInv(initial, steps);
    CollateralCoversAll(initial, steps);
    SumBound(Unlocks(y.toSource), id);
  }

  // Before it is collateralized, a report can come too early: fees may be burned on the destination
  // while nothing is locked yet. The message stays under way and can be tried again.
  lemma EarlyReportFails()
    ensures var y := Run(Start(10), [PayTxFees(5), ReportTotalBurnedTxFees]);
      y.toSource == map[0 := Burn(5)] && Handle(y.source, Burn(5)) == None && Next(y, Settle(0, true)) == y
  {
    var first := [PayTxFees(5)];
    assert [PayTxFees(5), ReportTotalBurnedTxFees][..1] == first && first[..0] == [];
    assert Run(Start(10), first) == Next(Start(10), PayTxFees(5));
  }

  // A transfer that reaches the destination fails exactly if it is of nothing at all,
  // which only the source of native tokens sends, or if the minted total would overflow.
  lemma ArrivalFailsIff(initial: Word, steps: seq<Step>, id: nat)
    requires id in Run(Start(initial), steps).toDestination
    ensures var y := Run(Start(initial), steps); var amount := y.toDestination[id].amount;
      Collect(y.destination, y.toDestination[id]) == None <==>
        amount == 0 || y.arrived + amount > y.destination.initialReserveImbalance + MAX_WORD
  {
    RunInv(initial, steps);
  }

  // A transfer of nothing stays under way for good: no run ever executes it.
  lemma {:induction false} ZeroTransferStays(y: System, id: nat, steps: seq<Step>)
    requires id in y.toDestination && y.toDestination[id].amount == 0 && id < y.nextID
    ensures var z := Run(y, steps);
      id in z.toDestination && z.toDestination[id] == y.toDestination[id] && id < z.nextID
  {
    if steps != [] {
      ZeroTransferStays(y, id, steps[..|steps| - 1]);
    }
  }

  // A caller of the source of native tokens can send such a transfer.
  lemma ZeroLockIsNeverPaid(initial: Word, recipient: Address, steps: seq<Step>)
    requires recipient != 0
    ensures var z := Run(Next(Start(initial), Lock(recipient, 0)), steps);
      0 in z.toDestination && z.toDestination[0] == Transfer(recipient, 0)
  {
    ZeroTransferStays(Next(Start(initial), Lock(recipient, 0)), 0, steps);
  }

  // The imbalance never grows, whatever happens; so once collateralized, the bridge is so
  // for good.
  lemma {:induction false} CollateralizedForGood(y: System, steps: seq<Step>)
    ensures Run(y, steps).destination.currentReserveImbalance <= y.destination.currentReserveImbalance
  {
    if steps != [] {
      CollateralizedForGood(y, steps[..|steps| - 1]);
    }
  }

  // totalSupply() never reverts and returns exactly the tokens in circulation, as long
  // as the tokens of genesis and those minted fit a word.
  lemma SupplyIsCirculation(initial: Word, steps: seq<Step>)
    ensures var d := Run(Start(initial), steps).destination;
      if d.totalMinted + d.initialReserveImbalance <= MAX_WORD
      then TotalSupply(d) == Some(d.circulating) else TotalSupply(d) == None
  {
    RunInv(initial, steps);
  }

  // ---------- what single calls do ----------

  // A transfer to the source commits exactly if it has a recipient, the bridge is
  // collateralized and the value circulates. The caller loses just that value, which is
  // just what the message unlocks, for the same recipient.
  lemma TransferToSourceIff(y: System, recipient: Address, value: Word)
    ensures var z, d := Next(y, TransferToSource(recipient, value)), y.destination;
      if recipient != 0 && d.currentReserveImbalance == 0 && value <= d.circulating then
        && z.destination.circulating + value == d.circulating
        && z.destination.burnedForTransfer == d.burnedForTransfer + value
        && z.destination.totalMinted == d.totalMinted && z.destination.burnedTxFees == d.burnedTxFees
        && z.destination.currentReserveImbalance == 0
        && z.toSource == y.toSource[y.nextID := Unlock(recipient, value)]
        && z.source == y.source && z.toDestination == y.toDestination
      else z == y
  {
  }

  // A report names just what is burned, and changes nothing on the destination.
  lemma ReportNamesAllBurned(y: System)
    ensures var z := Next(y, ReportTotalBurnedTxFees); var burned := y.destination.burnedTxFees;
      && z.destination == y.destination && z.source == y.source && z.toDestination == y.toDestination
      && (burned <= MAX_WORD ==> z.toSource == y.toSource[y.nextID := Burn(burned)])
      && (burned > MAX_WORD ==> z == y)
  {
  }

  // What is locked is just what is announced, for the same recipient.
  lemma LockAnnounces(y: System, recipient: Address, amount: Word)
    ensures var z := Next(y, Lock(recipient, amount));
      if recipient != 0 then
        && z.source == y.source.(collateral := y.source.collateral + amount)
        && z.toDestination == y.toDestination[y.nextID := Transfer(recipient, amount)]
        && z.destination == y.destination && z.toSource == y.toSource
      else z == y
  {
  }

  // Whatever message comes, the destination takes it exactly if it has a recipient and an
  // amount, and what is left of it after the imbalance can be minted.
  lemma CollectIff(d: Destination, t: Transfer)
    ensures Collect(d, t).Some? <==>
      && t.recipient != 0 && t.amount != 0
      && (t.amount > d.currentReserveImbalance ==> d.totalMinted + (t.amount - d.currentReserveImbalance) <= MAX_WORD)
  {
  }

  // The source pays exactly what has a recipient and is covered, and burns exactly what is
  // covered of the increase, if there is one.
  lemma HandleIff(s: Source, m: SourceMessage)
    ensures Handle(s, m).Some? <==>
      && (m.Unlock? ==> m.recipient != 0 && m.amount <= s.collateral)
      && (m.Burn? ==> m.total <= s.destinationBurnedTotal + s.collateral)
  {
  }

  // An executed message leaves the pool, and the source pays just what it says.
  lemma SettlePays(y: System, id: nat, accepted: bool)
    requires id in y.toSource
    ensures var z, m := Next(y, Settle(id, accepted)), y.toSource[id];
      id !in z.toSource ==>
        && accepted && z.toSource == y.toSource - {id} && z.destination == y.destination
        && (m.Unlock? ==> z.source == y.source.(collateral := y.source.collateral - m.amount))
        && (m.Burn? ==> var more := Max(m.total, y.source.destinationBurnedTotal) - y.source.destinationBurnedTotal;
                        z.source == Source(y.source.collateral - more, y.source.destinationBurnedTotal + more,
                                           y.source.burned + more))
  {
  }

  function Total(ts: seq<Transfer>): nat {
    if ts == [] then 0 else Total(ts[..|ts| - 1]) + ts[|ts| - 1].amount
  }

  // None as soon as one transfer of the list is refused.
  function CollectAll(d: Destination, ts: seq<Transfer>): Option<Destination> {
    if ts == [] then Some(d)
    else
      match CollectAll(d, ts[..|ts| - 1])
      case None => None
      case Some(e) => Collect(e, ts[|ts| - 1])
  }

  // Only the sum of the accepted transfers counts, not their order or their sizes.
  lemma {:induction false} CollectClosedForm(d: Destination, ts: seq<Transfer>)
    requires d.currentReserveImbalance == d.initialReserveImbalance && d.totalMinted == 0
    ensures var r := CollectAll(d, ts); r.Some? ==>
      && Reserve(r.value, Total(ts))
      && r.value.initialReserveImbalance == d.initialReserveImbalance
      && r.value.circulating == d.circulating + r.value.totalMinted
  {
    if ts != [] {
      CollectClosedForm(d, ts[..|ts| - 1]);
    }
  }

  function Max(a: Word, b: Word): Word {
    if a > b then a else b
  }

  function Highest(totals: seq<Word>): Word {
    if totals == [] then 0
    else Max(Highest(totals[..|totals| - 1]), totals[|totals| - 1])
  }

  function HandleReports(s: Source, totals: seq<Word>): Option<Source> {
    if totals == [] then Some(s)
    else
      match HandleReports(s, totals[..|totals| - 1])
      case None => None
      case Some(t) => Handle(t, Burn(totals[|totals| - 1]))
  }

  // Reports are cumulative, so they may be executed in any order and repeatedly, by a source
  // in any state: none fails exactly if what was burned and what is held cover the highest
  // one, and then just what the highest one adds is burned.
  lemma {:induction false} ReportsAreConfluent(s: Source, totals: seq<Word>)
    ensures HandleReports(s, totals).Some? <==> Highest(totals) <= s.destinationBurnedTotal + s.collateral
    ensures HandleReports(s, totals).Some? ==>
      var total := Max(Highest(totals), s.destinationBurnedTotal);
      HandleReports(s, totals).value ==
        Source(s.collateral - (total - s.destinationBurnedTotal), total, s.burned + (total - s.destinationBurnedTotal))
  {
    if totals != [] {
      ReportsAreConfluent(s, totals[..|totals| - 1]);
    }
  }
}
