// A transfer that goes on to a third chain is not checked for having been announced
// there: its mint waits until the token is created, and a run in which it has to.
module ERC20BridgeHops {
  import opened Words
  import BridgeToken
  import opened ERC20Bridge
  import opened ERC20BridgeNetwork

  // ---------- mints that wait ----------

  // A mint whose wrapped token its bridge does not know.
  ghost predicate Unannounced(y: Network, id: nat) {
    && id in y.messages && id < y.nextID && y.messages[id].to in y.bridges && y.messages[id].action.MintTokens?
    && AssetOf(y.messages[id]) !in y.bridges[y.messages[id].to].wrappedOf
  }

  ghost function AssetOf(m: Message): Lane
    requires m.action.MintTokens?
  {
    Lane(m.from, m.action.token)
  }

  // Wrapped tokens never disappear.
  lemma SendRegisters(me: Id, b: Bridge, caller: Address, teleporter: Address, destination: Id, token: Address,
                      recipient: Address, total: Word, primaryFee: Word, secondaryFee: Word, received: Word)
    ensures var r := BridgeTokens(me, b, caller, teleporter, destination, token, recipient, total,
                                  primaryFee, secondaryFee, received);
      r.Some? ==> r.value.0.wrappedOf == b.wrappedOf
  {
    hide GrantAndTake, PayWrappedFee, BridgeToken.BurnFrom;
  }

  lemma ReceiveRegisters(me: Id, b: Bridge, from: Id, a: Action, newAddress: Address, asset: Lane)
    requires asset in b.wrappedOf
    ensures var r := Receive(me, b, from, a, newAddress); r.Some? ==> asset in r.value.0.wrappedOf
  {
    hide GrantAndTake, FreshAddress, BridgeToken.Mint;
  }

  lemma RegisteredStays(y: Network, step: Step, me: Id, asset: Lane)
    requires me in y.bridges && asset in y.bridges[me].wrappedOf
    ensures me in Next(y, step).bridges && asset in Next(y, step).bridges[me].wrappedOf
  {
    hide BridgeTokens, Receive, PaySubmitFee, BridgeToken.Apply;
    var b := y.bridges[me];
    match step
    case Send(_, caller, destination, token, recipient, total, primaryFee, secondaryFee, received) =>
      SendRegisters(me, b, caller, y.teleporter, destination, token, recipient, total, primaryFee, secondaryFee,
                    received);
    case SubmitCreate(_, caller, destination, token, feeAsset, fee, received) =>
      FeeRegisters(me, b, caller, y.teleporter, feeAsset, fee, received);
    case Execute(id, newAddress, _) =>
      if id in y.messages {
        ReceiveRegisters(me, b, y.messages[id].from, y.messages[id].action, newAddress, asset);
      }
    case UseToken(_, _, _, _) =>
    case Donate(_, _, _) =>
    case ForeignSend(_) =>
  }

  lemma FeeRegisters(me: Id, b: Bridge, caller: Address, teleporter: Address, asset: Address, fee: Word, received: Word)
    ensures var r := PaySubmitFee(me, b, caller, teleporter, asset, fee, received);
      r.Some? ==> r.value.wrappedOf == b.wrappedOf
  {
    hide PayWrappedFee, GrantAndTake;
  }

  lemma OneStepWaits(y: Network, step: Step, id: nat)
    requires Unannounced(y, id)
    ensures var z := Next(y, step); var to := y.messages[id].to;
      && to in z.bridges
      && (AssetOf(y.messages[id]) !in z.bridges[to].wrappedOf ==>
            Unannounced(z, id) && z.messages[id] == y.messages[id])
  {
    hide BridgeTokens, PaySubmitFee, TransferBridgeTokens, CreateBridgeToken, BridgeToken.Apply;
  }

  // The mint stays under way, however often it is tried, through every run that leaves
  // its token uncreated.
  lemma {:induction false} UnannouncedMintWaits(y: Network, id: nat, steps: seq<Step>)
    requires Unannounced(y, id)
    ensures var z := Run(y, steps); var to := y.messages[id].to;
      && to in z.bridges
      && (AssetOf(y.messages[id]) !in z.bridges[to].wrappedOf ==>
            Unannounced(z, id) && z.messages[id] == y.messages[id])
  {
    hide Next;
    if steps != [] {
      var before, step := Run(y, steps[..|steps| - 1]), steps[|steps| - 1];
      var to, asset := y.messages[id].to, AssetOf(y.messages[id]);
      UnannouncedMintWaits(y, id, steps[..|steps| - 1]);
      if asset in before.bridges[to].wrappedOf {
        RegisteredStays(before, step, to, asset);
      } else {
        OneStepWaits(before, step, id);
      }
    }
  }

  // ---------- a run ----------

  // The bridges of three chains; a token native to the first, 10 of which go to the second
  // and from there, by way of the first, to the third. The first announcement pays a fee in
  // this token, the hop another one.
  const N: Id := Id(1, 11)
  const A: Id := Id(2, 12)
  const C: Id := Id(3, 13)
  const ASSET: Lane := Lane(N, 21)

  function N1(g: map<Address, Word>): Bridge {
    NEW.(submitted := {Lane(A, 21)}, granted := g)
  }

  function N2(g: map<Address, Word>): Bridge {
    N1(g).(bridged := map[Lane(A, 21) := 10], custody := map[21 := 10])
  }

  const N3: Bridge := N2(map[]).(bridged := map[Lane(A, 21) := 0, Lane(C, 21) := 10])
  const A1: Bridge := NEW.(wrappedOf := map[ASSET := 31], wrapped := map[31 := Wrapped(ASSET, BridgeToken.EMPTY, 0)])
  const A2: Bridge := Holding(BridgeToken.Ledger(map[41 := 10], map[], 10))
  const A3: Bridge := Holding(BridgeToken.Ledger(map[41 := 10], map[BridgeToken.Grant(41, 12) := 10], 10))
  const A4: Bridge := Holding(BridgeToken.Ledger(map[41 := 0], map[BridgeToken.Grant(41, 12) := 0], 0))

  function Holding(l: BridgeToken.Ledger): Bridge {
    A1.(wrapped := map[31 := Wrapped(ASSET, l, 0)])
  }

  function Nets(n: Bridge, a: Bridge, messages: map<nat, Message>, nextID: nat): Network {
    Network(5, map[N := n, A := a, C := NEW], messages, nextID)
  }

  const HOP: Message := Message(N, C, MintTokens(21, 42, 10))

  // What the fee of the announcement leaves granted.
  function GrantedAfter(fee: Word): map<Address, Word> {
    if fee == 0 then map[] else map[21 := if fee == MAX_WORD then MAX_WORD else 0]
  }

  lemma Announced(fee: Word)
    ensures Next(Nets(NEW, NEW, map[], 0), SubmitCreate(N, 41, A, 21, 21, fee, fee))
         == Nets(N1(GrantedAfter(fee)), NEW, map[0 := Message(N, A, Create(21))], 1)
  {
    assert GrantAndTake(map[], 21, fee) == Some(GrantedAfter(fee));
    assert NEW.submitted + {Lane(A, 21)} == {Lane(A, 21)};
  }

  lemma Created(g: map<Address, Word>)
    ensures Next(Nets(N1(g), NEW, map[0 := Message(N, A, Create(21))], 1), Execute(0, 31, true))
         == Nets(N1(g), A1, map[], 1)
  {
    var messages := map[0 := Message(N, A, Create(21))];
    assert messages - {0} == map[];
  }

  lemma Locked(g: map<Address, Word>)
    ensures Next(Nets(N1(g), A1, map[], 1), Send(N, 41, A, 21, 41, 10, 0, 0, 10))
         == Nets(N2(g), A1, map[1 := Message(N, A, MintTokens(21, 41, 10))], 2)
  {
    var received: map<Address, Word> := map[21 := 10];
    assert N1(g).custody[21 := 10] == received && received[21 := 10] == received;
    assert N1(g).bridged[Lane(A, 21) := 10] == N2(g).bridged;
    assert BridgeTokens(N, N1(g), 41, 5, A, 21, 41, 10, 0, 0, 10)
        == Some((N2(g), Message(N, A, MintTokens(21, 41, 10))));
  }

  lemma Minted(g: map<Address, Word>)
    ensures Next(Nets(N2(g), A1, map[1 := Message(N, A, MintTokens(21, 41, 10))], 2), Execute(1, 0, true))
         == Nets(N2(g), A2, map[], 2)
  {
    var l := BridgeToken.EMPTY;
    var balances: map<Address, Word> := map[41 := 10];
    assert l.balances[41 := 10] == balances;
    assert BridgeToken.Mint(l, 41, 10) == Some(A2.wrapped[31].ledger);
    assert A1.wrapped[31 := A2.wrapped[31]] == A2.wrapped;
    assert Receive(A, A1, N, MintTokens(21, 41, 10), 0) == Some((A2, None));
    var messages := map[1 := Message(N, A, MintTokens(21, 41, 10))];
    assert messages - {1} == map[];
  }

  lemma Approved(g: map<Address, Word>)
    ensures Next(Nets(N2(g), A2, map[], 2), UseToken(A, 41, 31, BridgeToken.DoApprove(12, 10)))
         == Nets(N2(g), A3, map[], 2)
  {
    var l := A2.wrapped[31].ledger;
    assert l.allowances[BridgeToken.Grant(41, 12) := 10] == A3.wrapped[31].ledger.allowances;
    assert BridgeToken.Apply(l, 41, BridgeToken.DoApprove(12, 10)) == Some(A3.wrapped[31].ledger);
    assert A2.wrapped[31 := A3.wrapped[31]] == A3.wrapped;
    assert CallToken(A2, 31, 41, BridgeToken.DoApprove(12, 10)) == Some(A3);
  }

  lemma Burned(g: map<Address, Word>, fee: Word)
    requires fee < 10
    ensures Next(Nets(N2(g), A3, map[], 2), Send(A, 41, C, 31, 42, 10, 0, fee, 0))
         == Nets(N2(g), A4, map[2 := Message(A, N, TransferTokens(C, 21, 42, 10, fee))], 3)
  {
    var l, rest := A3.wrapped[31].ledger, A4.wrapped[31].ledger;
    assert l.allowances[BridgeToken.Grant(41, 12) := 0] == rest.allowances && l.balances[41 := 0] == rest.balances;
    assert BridgeToken.SpendAllowance(l, 41, 12, 10) == Some(l.(allowances := rest.allowances));
    assert BridgeToken.BurnFrom(l, 12, 41, 10) == Some(rest);
    assert A3.wrapped[31 := A4.wrapped[31]] == A4.wrapped;
    assert BridgeTokens(A, A3, 41, 5, C, 31, 42, 10, 0, fee, 0)
        == Some((A4, Message(A, N, TransferTokens(C, 21, 42, 10, fee))));
  }

  lemma Hopped()
    ensures Next(Nets(N2(map[]), A4, map[2 := Message(A, N, TransferTokens(C, 21, 42, 10, 0))], 3), Execute(2, 0, true))
         == Nets(N3, A4, map[3 := HOP], 4)
  {
    var debited := N2(map[]).bridged[Lane(A, 21) := 0];
    assert debited[Lane(C, 21) := 10] == N3.bridged && N2(map[]).custody[21 := 10] == N3.custody;
    assert Receive(N, N2(map[]), A, TransferTokens(C, 21, 42, 10, 0), 0) == Some((N3, Some(HOP)));
    var messages := map[2 := Message(A, N, TransferTokens(C, 21, 42, 10, 0))];
    assert messages - {2} == map[];
  }

  // Six steps up to the message that goes back to the first chain.
  function Steps(fee: Word, hopFee: Word): seq<Step> {
    [SubmitCreate(N, 41, A, 21, 21, fee, fee), Execute(0, 31, true), Send(N, 41, A, 21, 41, 10, 0, 0, 10),
     Execute(1, 0, true), UseToken(A, 41, 31, BridgeToken.DoApprove(12, 10)),
     Send(A, 41, C, 31, 42, 10, 0, hopFee, 0)]
  }

  function Back(g: map<Address, Word>, hopFee: Word): Network {
    Nets(N2(g), A4, map[2 := Message(A, N, TransferTokens(C, 21, 42, 10, hopFee))], 3)
  }

  const STEPS: seq<Step> := Steps(0, 0) + [Execute(2, 0, true)]

  lemma RunTo(y: Network, steps: seq<Step>, k: nat)
    requires 0 < k <= |steps|
    ensures Run(y, steps[..k]) == Next(Run(y, steps[..k - 1]), steps[k - 1])
  {
    hide Next;
    assert steps[..k][..k - 1] == steps[..k - 1];
  }

  lemma BackIsReachable(fee: Word, hopFee: Word)
    requires hopFee < 10
    ensures Run(Start(5, {N, A, C}), Steps(fee, hopFee)) == Back(GrantedAfter(fee), hopFee)
  {
    hide Next, GrantedAfter;
    var y, steps, g := Start(5, {N, A, C}), Steps(fee, hopFee), GrantedAfter(fee);
    assert y == Nets(NEW, NEW, map[], 0);
    assert steps[..0] == [] && steps[..6] == steps;
    RunTo(y, steps, 1); Announced(fee);
    RunTo(y, steps, 2); Created(g);
    RunTo(y, steps, 3); Locked(g);
    RunTo(y, steps, 4); Minted(g);
    RunTo(y, steps, 5); Approved(g);
    RunTo(y, steps, 6); Burned(g, hopFee);
  }

  lemma HopIsReachable()
    ensures Run(Start(5, {N, A, C}), STEPS) == Nets(N3, A4, map[3 := HOP], 4)
  {
    hide Next, Steps;
    BackIsReachable(0, 0);
    assert STEPS[..7] == STEPS && STEPS[..6] == Steps(0, 0) by { StepCount(0, 0); }
    StepCount(0, 0);
    RunTo(Start(5, {N, A, C}), STEPS, 7);
    Hopped();
  }

  lemma StepCount(fee: Word, hopFee: Word)
    ensures |Steps(fee, hopFee)| == 6
  {
  }

  // The mint of this run cannot be executed in any continuation without the token being
  // created on the third chain; it can as soon as it is.
  lemma UnannouncedHopWaits(steps: seq<Step>, newAddress: Address)
    ensures var z := Run(Run(Start(5, {N, A, C}), STEPS), steps);
      && C in z.bridges
      && (ASSET !in z.bridges[C].wrappedOf ==>
            3 in z.messages && z.messages[3] == HOP && Receive(C, z.bridges[C], N, HOP.action, newAddress) == None)
  {
    hide Next;
    HopIsReachable();
    UnannouncedMintWaits(Nets(N3, A4, map[3 := HOP], 4), 3, steps);
  }

  const C1: Bridge := NEW.(wrappedOf := map[ASSET := 32], wrapped := map[32 := Wrapped(ASSET, BridgeToken.EMPTY, 0)])
  const LATE: Message := Message(N, C, Create(21))

  lemma AnnouncedLate()
    ensures var z := Next(Nets(N3, A4, map[3 := HOP], 4), SubmitCreate(N, 41, C, 21, 0, 0, 0));
      C in z.bridges && z.bridges[C] == NEW && z.messages == map[3 := HOP, 4 := LATE]
  {
  }

  lemma CreatedLate(y: Network)
    requires C in y.bridges && y.bridges[C] == NEW && y.messages == map[3 := HOP, 4 := LATE]
    ensures var z := Next(y, Execute(4, 32, true)); C in z.bridges && z.bridges[C] == C1 && z.messages == map[3 := HOP]
  {
    assert y.messages - {4} == map[3 := HOP];
    assert Receive(C, NEW, N, Create(21), 32) == Some((C1, None));
  }

  lemma MintedLate(y: Network)
    requires C in y.bridges && y.bridges[C] == C1 && y.messages == map[3 := HOP]
    ensures var z := Next(y, Execute(3, 0, true));
      && z.messages == map[] && C in z.bridges && 32 in z.bridges[C].wrapped
      && z.bridges[C].wrapped[32].ledger.balances == map[42 := 10]
  {
    assert y.messages - {3} == map[];
    var balances: map<Address, Word> := map[42 := 10];
    assert BridgeToken.EMPTY.balances[42 := 10] == balances;
  }

  // Announced late, the token arrives after all.
  lemma HopArrivesOnceAnnounced()
    ensures var y := Run(Start(5, {N, A, C}), STEPS);
      var z := Next(Next(Next(y, SubmitCreate(N, 41, C, 21, 0, 0, 0)), Execute(4, 32, true)), Execute(3, 0, true));
      && z.messages == map[] && C in z.bridges && 32 in z.bridges[C].wrapped
      && z.bridges[C].wrapped[32].ledger.balances == map[42 := 10]
  {
    hide Next;
    HopIsReachable();
    var y := Nets(N3, A4, map[3 := HOP], 4);
    AnnouncedLate();
    CreatedLate(Next(y, SubmitCreate(N, 41, C, 21, 0, 0, 0)));
    MintedLate(Next(Next(y, SubmitCreate(N, 41, C, 21, 0, 0, 0)), Execute(4, 32, true)));
  }

  // ---------- returns that cannot be executed ----------

  // Once unlimited, Teleporter's allowance stays so.
  lemma UnlimitedStays(y: Network, step: Step, n: Id, token: Address)
    requires n in y.bridges && Lookup(y.bridges[n].granted, token) == MAX_WORD
    ensures n in Next(y, step).bridges && Lookup(Next(y, step).bridges[n].granted, token) == MAX_WORD
  {
    hide Next;
    NextGrantsOne(y, step, n);
  }

  // A return that goes on with a fee from an instance with an unlimited allowance.
  ghost predicate Stuck(y: Network, id: nat) {
    && id in y.messages && id < y.nextID && y.messages[id].action.TransferTokens?
    && y.messages[id].to in y.bridges && y.messages[id].action.destination.chain != y.messages[id].to.chain
    && y.messages[id].action.secondaryFee > 0
    && Lookup(y.bridges[y.messages[id].to].granted, y.messages[id].action.returned) == MAX_WORD
  }

  lemma StuckStepStays(y: Network, step: Step, id: nat)
    requires Stuck(y, id)
    ensures Stuck(Next(y, step), id) && Next(y, step).messages[id] == y.messages[id]
  {
    hide BridgeTokens, PaySubmitFee, MintBridgeTokens, CreateBridgeToken, BridgeToken.Apply;
    UnlimitedStays(y, step, y.messages[id].to, y.messages[id].action.returned);
  }

  // It can never be executed again, whatever happens.
  lemma {:induction false} StuckReturnStays(y: Network, id: nat, steps: seq<Step>)
    requires Stuck(y, id)
    ensures Stuck(Run(y, steps), id) && Run(y, steps).messages[id] == y.messages[id]
  {
    hide Next;
    if steps != [] {
      StuckReturnStays(y, id, steps[..|steps| - 1]);
      StuckStepStays(Run(y, steps[..|steps| - 1]), steps[|steps| - 1], id);
    }
  }

  // The run with the largest fee for the announcement: the hop that pays a fee is lost.
  lemma LargestFeeStopsHops(steps: seq<Step>, newAddress: Address)
    ensures var z := Run(Run(Start(5, {N, A, C}), Steps(MAX_WORD, 1)), steps);
      && N in z.bridges && 2 in z.messages
      && z.messages[2] == Message(A, N, TransferTokens(C, 21, 42, 10, 1))
      && Receive(N, z.bridges[N], A, z.messages[2].action, newAddress) == None
  {
    hide Next;
    BackIsReachable(MAX_WORD, 1);
    StuckReturnStays(Back(GrantedAfter(MAX_WORD), 1), 2, steps);
  }
}
