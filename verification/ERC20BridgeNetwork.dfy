// Any number of ERC20Bridge instances, and any other senders, that exchange messages
// through Teleporter: each message is executed at most once, in any order.
module ERC20BridgeNetwork {
  import opened Words
  import opened Sums
  import BridgeToken
  import opened ERC20Bridge

  datatype Network = Network(
    teleporter: Address,
    bridges: map<Id, Bridge>,
    messages: map<nat, Message>,
    nextID: nat)

  datatype Step =
    | Send(me: Id, caller: Address, destination: Id, token: Address, recipient: Address, total: Word,
           primaryFee: Word, secondaryFee: Word, received: Word)
    | SubmitCreate(me: Id, caller: Address, destination: Id, token: Address, feeAsset: Address, fee: Word,
                   received: Word)
    // message `id` is executed, or tried in vain; `accepted` is false when Teleporter
    // refuses a message that the execution sends
    | Execute(id: nat, newAddress: Address, accepted: bool)
    // what others do: use wrapped tokens, give native tokens to an instance, send messages
    | UseToken(me: Id, caller: Address, token: Address, call: BridgeToken.Call)
    | Donate(me: Id, token: Address, gift: Word)
    | ForeignSend(message: Message)

  ghost function Start(teleporter: Address, ids: set<Id>): Network {
    Network(teleporter, map i | i in ids :: NEW, map[], 0)
  }

  // The network after instance `me` has changed to b and has sent m, if anything.
  function After(y: Network, me: Id, b: Bridge, m: Option<Message>): Network {
    match m
    case None => y.(bridges := y.bridges[me := b])
    case Some(message) =>
      y.(bridges := y.bridges[me := b], messages := y.messages[y.nextID := message], nextID := y.nextID + 1)
  }

  function Next(y: Network, step: Step): Network {
    match step
    case Send(me, caller, destination, token, recipient, total, primaryFee, secondaryFee, received) =>
      if me !in y.bridges then y
      else
        (match BridgeTokens(me, y.bridges[me], caller, y.teleporter, destination, token, recipient, total,
                            primaryFee, secondaryFee, received)
         case None => y
         case Some((b, m)) => After(y, me, b, Some(m)))
    case SubmitCreate(me, caller, destination, token, feeAsset, fee, received) =>
      if me !in y.bridges then y
      else
        (match SubmitCreateBridgeToken(me, y.bridges[me], caller, y.teleporter, destination, token, feeAsset, fee,
                                       received)
         case None => y
         case Some((b, m)) => After(y, me, b, Some(m)))
    case Execute(id, newAddress, accepted) =>
      if id !in y.messages || y.messages[id].to !in y.bridges then y
      else
        var m := y.messages[id];
        (match Receive(m.to, y.bridges[m.to], m.from, m.action, newAddress)
         case None => y
         case Some((b, sent)) =>
           if sent.Some? && !accepted then y
           else After(y.(messages := y.messages - {id}), m.to, b, sent))
    case UseToken(me, caller, token, call) =>
      if me !in y.bridges then y
      else
        (match CallToken(y.bridges[me], token, caller, call)
         case None => y
         case Some(b) => After(y, me, b, None))
    case Donate(me, token, gift) =>
      if me !in y.bridges || Lookup(y.bridges[me].custody, token) + gift > MAX_WORD then y
      else
        var b := y.bridges[me];
        After(y, me, b.(custody := b.custody[token := Lookup(b.custody, token) + gift]), None)
    case ForeignSend(message) =>
      if message.from in y.bridges then y
      else y.(messages := y.messages[y.nextID := message], nextID := y.nextID + 1)
  }

  function Run(y: Network, steps: seq<Step>): Network {
    if steps == [] then y else Next(Run(y, steps[..|steps| - 1]), steps[|steps| - 1])
  }

  // ---------- one instance ----------

  // Each wrapped token is registered under its asset, and its ledger is sound.
  ghost predicate Registered(b: Bridge) {
    && (forall a :: a in b.wrappedOf ==> b.wrappedOf[a] in b.wrapped && b.wrapped[b.wrappedOf[a]].asset == a)
    && (forall t :: t in b.wrapped ==>
          b.wrapped[t].asset in b.wrappedOf && b.wrappedOf[b.wrapped[t].asset] == t)
    && (forall t :: t in b.wrapped ==> BridgeToken.Inv(b.wrapped[t].ledger))
  }

  ghost function LanesOf(bridged: map<Lane, Word>, token: Address): map<Lane, nat> {
    map l | l in bridged :: if l.token == token then bridged[l] as nat else 0
  }

  // The instance holds at least what all other bridges may send back, in every token.
  ghost predicate Covered(b: Bridge, token: Address) {
    Sum(LanesOf(b.bridged, token)) <= Lookup(b.custody, token)
  }

  ghost predicate BridgeInv(b: Bridge) {
    && Registered(b)
    && (forall token :: Covered(b, token))
    && (forall l :: l in b.bridged && b.bridged[l] > 0 ==> l.token !in b.wrapped)
  }

  // ---------- one lane ----------

  // What exists of an asset on the bridge it was wrapped by, or was burned there by holders.
  ghost function Outstanding(b: Bridge, asset: Lane): nat {
    if asset in b.wrappedOf && b.wrappedOf[asset] in b.wrapped
    then b.wrapped[b.wrappedOf[asset]].ledger.totalSupply + b.wrapped[b.wrappedOf[asset]].burned
    else 0
  }

  // What message m carries of native token `token` of instance n: to be minted on d, or
  // coming back from d.
  ghost function ToMint(m: Message, n: Id, d: Id, token: Address): nat {
    if m.action.MintTokens? && m.from == n && m.to == d && m.action.token == token then m.action.amount else 0
  }

  ghost function ToReturn(m: Message, n: Id, d: Id, token: Address): nat {
    if m.action.TransferTokens? && m.from == d && m.to == n && m.action.returned == token
    then m.action.total else 0
  }

  ghost function Carried(messages: map<nat, Message>, n: Id, d: Id, token: Address): map<nat, nat> {
    map i | i in messages :: ToMint(messages[i], n, d, token) + ToReturn(messages[i], n, d, token)
  }

  // Lane conservation between two instances.
  ghost predicate Conserved(y: Network, n: Id, d: Id, token: Address)
    requires n in y.bridges && d in y.bridges
  {
    Lookup(y.bridges[n].bridged, Lane(d, token))
      == Outstanding(y.bridges[d], Lane(n, token)) + Sum(Carried(y.messages, n, d, token))
  }

  // ---------- messages ----------

  // What an instance sends is well-formed: valid recipients, and a hop's fee is less
  // than the amount it is taken from.
  ghost predicate GoodMessage(m: Message) {
    match m.action
    case Create(_) => true
    case MintTokens(_, recipient, amount) => recipient != 0
    case TransferTokens(destination, _, recipient, total, fee) =>
      && recipient != 0 && destination.address != 0 && fee < total
      && (destination.chain == m.to.chain ==> destination == m.to)
  }

  ghost predicate MessagesGood(y: Network) {
    && (forall i :: i in y.messages ==> i < y.nextID)
    && (forall i :: i in y.messages && y.messages[i].from in y.bridges ==> GoodMessage(y.messages[i]))
  }

  ghost predicate Inv(y: Network) {
    && MessagesGood(y)
    && (forall i :: i in y.bridges ==> BridgeInv(y.bridges[i]))
    && (forall n, d, token :: n in y.bridges && d in y.bridges ==> Conserved(y, n, d, token))
  }

  // ---------- what one call does to the lanes ----------

  ghost function Minting(m: Option<Message>, n: Id, d: Id, token: Address): nat {
    if m.Some? then ToMint(m.value, n, d, token) else 0
  }

  ghost function Returning(m: Option<Message>, n: Id, d: Id, token: Address): nat {
    if m.Some? then ToReturn(m.value, n, d, token) else 0
  }

  ghost predicate LaneMoves(me: Id, b: Bridge, c: Bridge, got: Option<Message>, sent: Option<Message>,
                            d: Id, token: Address)
  {
    Lookup(c.bridged, Lane(d, token)) + Returning(got, me, d, token)
      == Lookup(b.bridged, Lane(d, token)) + Minting(sent, me, d, token)
  }

  ghost predicate AssetMoves(me: Id, b: Bridge, c: Bridge, got: Option<Message>, sent: Option<Message>,
                             n: Id, token: Address)
  {
    Outstanding(c, Lane(n, token)) + Returning(sent, n, me, token)
      == Outstanding(b, Lane(n, token)) + Minting(got, n, me, token)
  }

  // Instance `me` went from b to c, having executed message `got` and sent message
  // `sent`: a lane grows by what is sent to be minted and shrinks by what came back; an
  // asset grows by what was to be minted and shrinks by what is sent back.
  ghost predicate Moves(me: Id, b: Bridge, c: Bridge, got: Option<Message>, sent: Option<Message>) {
    && (got.Some? ==> got.value.to == me) && (sent.Some? ==> sent.value.from == me)
    && (forall d, token :: LaneMoves(me, b, c, got, sent, d, token))
    && (forall n, token :: AssetMoves(me, b, c, got, sent, n, token))
  }

  lemma NativeMoves(me: Id, b: Bridge, destination: Id, token: Address, recipient: Address, total: Word, fee: Word)
    ensures var r := ProcessNative(me, b, destination, token, recipient, total, fee);
      r.Some? ==> Moves(me, b, r.value.0, None, Some(r.value.1))
  {
  }

  lemma FeeKeepsSupply(l: BridgeToken.Ledger, me: Id, caller: Address, teleporter: Address, fee: Word)
    requires BridgeToken.Inv(l)
    ensures var r := PayWrappedFee(l, me, caller, teleporter, fee);
      r.Some? ==> BridgeToken.Inv(r.value) && r.value.totalSupply == l.totalSupply
  {
    if PayWrappedFee(l, me, caller, teleporter, fee).Some? && fee > 0 {
      BridgeToken.ApplyKeepsInv(l, me.address, BridgeToken.DoTransferFrom(caller, me.address, fee));
      var paid := BridgeToken.TransferFrom(l, me.address, caller, me.address, fee).value;
      BridgeToken.ApplyKeepsInv(paid, me.address, BridgeToken.DoIncreaseAllowance(teleporter, fee));
      var allowed := BridgeToken.IncreaseAllowance(paid, me.address, teleporter, fee).value;
      BridgeToken.ApplyKeepsInv(allowed, teleporter, BridgeToken.DoTransferFrom(me.address, teleporter, fee));
    }
  }

  // A wrapped token's ledger was replaced: only its own asset's outstanding amount changes.
  lemma LedgerChanges(b: Bridge, token: Address, w: Wrapped, asset: Lane)
    requires Registered(b) && token in b.wrapped && w.asset == b.wrapped[token].asset
    requires BridgeToken.Inv(w.ledger)
    ensures var c := b.(wrapped := b.wrapped[token := w]);
      && Registered(c)
      && Outstanding(c, asset) == if asset == w.asset then w.ledger.totalSupply + w.burned else Outstanding(b, asset)
  {
  }

  lemma WrappedMoves(me: Id, b: Bridge, caller: Address, teleporter: Address, destination: Id, token: Address,
                     recipient: Address, total: Word, primaryFee: Word, secondaryFee: Word)
    requires Registered(b) && token in b.wrapped
    ensures var r := ProcessWrapped(me, b, caller, teleporter, destination, token, recipient, total,
                                    primaryFee, secondaryFee);
      r.Some? ==> Registered(r.value.0) && Moves(me, b, r.value.0, None, Some(r.value.1))
  {
    hide Registered, Outstanding, PayWrappedFee;
    var r := ProcessWrapped(me, b, caller, teleporter, destination, token, recipient, total, primaryFee, secondaryFee);
    if r.Some? {
      var w, c, m := b.wrapped[token], r.value.0, Some(r.value.1);
      LedgerIsSound(b, token);
      FeeKeepsSupply(w.ledger, me, caller, teleporter, primaryFee);
      var paid := PayWrappedFee(w.ledger, me, caller, teleporter, primaryFee).value;
      BridgeToken.ApplyKeepsInv(paid, me.address, BridgeToken.DoBurnFrom(caller, total - primaryFee));
      var w' := c.wrapped[token];
      forall n, t
        ensures AssetMoves(me, b, c, None, m, n, t)
      {
        LedgerChanges(b, token, w', Lane(n, t));
        LedgerChanges(b, token, w, Lane(n, t));
        assert b.wrapped[token := w] == b.wrapped;
      }
      LedgerChanges(b, token, w', w.asset);
    }
  }

  lemma LedgerIsSound(b: Bridge, token: Address)
    requires Registered(b) && token in b.wrapped
    ensures BridgeToken.Inv(b.wrapped[token].ledger)
  {
  }

  // ---------- what one call does to the custody ----------

  lemma LaneUpdate(bridged: map<Lane, Word>, l: Lane, v: Word, token: Address)
    ensures var before := Sum(LanesOf(bridged, token));
      && Sum(LanesOf(bridged[l := v], token)) + (if l.token == token then Lookup(bridged, l) else 0)
           == before + (if l.token == token then v else 0)
      && (l.token == token ==> Lookup(bridged, l) <= before)
  {
    var amount: nat := if l.token == token then v else 0;
    assert LanesOf(bridged[l := v], token) == LanesOf(bridged, token)[l := amount];
    SumUpdate(LanesOf(bridged, token), l, amount);
  }

  // The lanes and `extra` tokens more are in custody.
  ghost predicate CoveredWith(b: Bridge, token: Address, extra: nat) {
    Sum(LanesOf(b.bridged, token)) + extra <= Lookup(b.custody, token)
  }

  ghost predicate NoWrappedLanes(b: Bridge) {
    forall l :: l in b.bridged && b.bridged[l] > 0 ==> l.token !in b.wrapped
  }

  // With the tokens in custody, a native transfer that Teleporter accepts commits for any
  // fee that it can contain and that can be granted: the lane cannot overflow, for all
  // lanes fit the balance.
  lemma NativeKeepsInv(me: Id, b: Bridge, destination: Id, token: Address, recipient: Address, total: Word, fee: Word)
    requires Registered(b) && NoWrappedLanes(b) && CoveredWith(b, token, total)
    requires forall t :: t != token ==> Covered(b, t)
    ensures var r := ProcessNative(me, b, destination, token, recipient, total, fee);
      && (r.Some? <==> token !in b.wrapped && destination.chain != me.chain && fee <= total
                       && GrantAndTake(b.granted, token, fee).Some?)
      && (r.Some? ==> BridgeInv(r.value.0))
  {
    hide Registered, Covered, GrantAndTake;
    var lane := Lane(destination, token);
    LaneUpdate(b.bridged, lane, 0, token);
    var r := ProcessNative(me, b, destination, token, recipient, total, fee);
    if r.Some? {
      var c := r.value.0;
      SameRegistered(b, c);
      forall t
        ensures Covered(c, t)
      {
        LaneStaysCovered(b, c, lane, total, fee, t);
      }
    }
  }

  lemma SameRegistered(b: Bridge, c: Bridge)
    requires Registered(b) && c.wrappedOf == b.wrappedOf && c.wrapped == b.wrapped
    ensures Registered(c)
  {
  }

  lemma LaneStaysCovered(b: Bridge, c: Bridge, lane: Lane, total: Word, fee: Word, t: Address)
    requires CoveredWith(b, lane.token, total) && (t != lane.token ==> Covered(b, t))
    requires fee <= total && fee <= Lookup(b.custody, lane.token)
    requires Lookup(b.bridged, lane) + total - fee <= MAX_WORD
    requires c.bridged == b.bridged[lane := Lookup(b.bridged, lane) + (total - fee)]
    requires c.custody == b.custody[lane.token := Lookup(b.custody, lane.token) - fee]
    ensures Covered(c, t)
  {
    LaneUpdate(b.bridged, lane, c.bridged[lane], t);
  }

  lemma SendKeepsInv(me: Id, b: Bridge, caller: Address, teleporter: Address, destination: Id, token: Address,
                     recipient: Address, total: Word, primaryFee: Word, secondaryFee: Word, received: Word)
    requires BridgeInv(b)
    ensures var r := BridgeTokens(me, b, caller, teleporter, destination, token, recipient, total,
                                  primaryFee, secondaryFee, received);
      r.Some? ==> BridgeInv(r.value.0) && Moves(me, b, r.value.0, None, Some(r.value.1)) && GoodMessage(r.value.1)
  {
    hide Registered, Moves, ProcessNative, PayWrappedFee, BridgeToken.BurnFrom;
    var r := BridgeTokens(me, b, caller, teleporter, destination, token, recipient, total,
                          primaryFee, secondaryFee, received);
    if r.Some? {
      if token in b.wrapped {
        WrappedMoves(me, b, caller, teleporter, destination, token, recipient, total, primaryFee, secondaryFee);
        WrappedKeepsLanes(b, r.value.0);
      } else {
        var locked := b.(custody := b.custody[token := Lookup(b.custody, token) + received]);
        SameLanes(b, locked);
        assert Covered(b, token) && forall t :: t != token ==> Covered(b, t) == Covered(locked, t);
        NativeKeepsInv(me, locked, destination, token, recipient, received, primaryFee);
        NativeMoves(me, locked, destination, token, recipient, received, primaryFee);
        NativeSends(me, locked, destination, token, recipient, received, primaryFee);
        MovesFrom(me, b, locked, r.value.0, None, Some(r.value.1));
      }
    }
  }

  lemma SameLanes(b: Bridge, c: Bridge)
    requires Registered(b) && c == b.(custody := c.custody, granted := c.granted, paid := c.paid)
    ensures Registered(c)
  {
  }

  lemma NativeSends(me: Id, b: Bridge, destination: Id, token: Address, recipient: Address, total: Word, fee: Word)
    ensures var r := ProcessNative(me, b, destination, token, recipient, total, fee);
      r.Some? ==> r.value.1 == Message(me, destination, MintTokens(token, recipient, total - fee))
  {
  }

  lemma WrappedKeepsLanes(b: Bridge, c: Bridge)
    requires BridgeInv(b) && Registered(c)
    requires c == b.(wrapped := c.wrapped) && c.wrapped.Keys == b.wrapped.Keys
    ensures BridgeInv(c)
  {
    hide Registered;
    assert forall t :: Covered(b, t) == Covered(c, t);
  }

  // A change of custody alone is no move.
  lemma MovesFrom(me: Id, b: Bridge, locked: Bridge, c: Bridge, got: Option<Message>, sent: Option<Message>)
    requires locked == b.(custody := locked.custody) && Moves(me, locked, c, got, sent)
    ensures Moves(me, b, c, got, sent)
  {
    forall d, token
      ensures LaneMoves(me, b, c, got, sent, d, token)
    {
      assert LaneMoves(me, locked, c, got, sent, d, token);
    }
    forall n, token
      ensures AssetMoves(me, b, c, got, sent, n, token)
    {
      assert AssetMoves(me, locked, c, got, sent, n, token);
    }
  }

  lemma CreateKeepsInv(me: Id, b: Bridge, from: Id, token: Address, newAddress: Address)
    requires BridgeInv(b)
    ensures var r := CreateBridgeToken(b, Lane(from, token), newAddress); r.Some? ==>
      BridgeInv(r.value) && Moves(me, b, r.value, Some(Message(from, me, Create(token))), None)
  {
    hide Registered, Moves;
    var asset := Lane(from, token);
    var r := CreateBridgeToken(b, asset, newAddress);
    if r.Some? {
      var c := r.value;
      assert forall t :: Covered(b, t) == Covered(c, t);
      NewTokenRegistered(b, asset, newAddress);
      NewTokenMoves(me, b, c, from, token);
    }
  }

  lemma NewTokenRegistered(b: Bridge, asset: Lane, newAddress: Address)
    requires Registered(b)
    ensures var r := CreateBridgeToken(b, asset, newAddress); r.Some? ==>
      Registered(r.value) && forall a :: Outstanding(r.value, a) == Outstanding(b, a)
  {
    var r := CreateBridgeToken(b, asset, newAddress);
    if r.Some? {
      assert Sums.Sum(BridgeToken.AsNats(BridgeToken.EMPTY.balances)) == 0;
      forall a
        ensures Outstanding(r.value, a) == Outstanding(b, a)
      {
        assert a in b.wrappedOf ==> b.wrappedOf[a] in b.wrapped;
      }
    }
  }

  lemma NewTokenMoves(me: Id, b: Bridge, c: Bridge, from: Id, token: Address)
    requires c.bridged == b.bridged && forall a :: Outstanding(c, a) == Outstanding(b, a)
    ensures Moves(me, b, c, Some(Message(from, me, Create(token))), None)
  {
    hide Outstanding;
  }

  lemma MintKeepsInv(me: Id, b: Bridge, from: Id, token: Address, recipient: Address, amount: Word)
    requires BridgeInv(b)
    ensures var r := MintBridgeTokens(b, Lane(from, token), recipient, amount); r.Some? ==>
      BridgeInv(r.value) && Moves(me, b, r.value, Some(Message(from, me, MintTokens(token, recipient, amount))), None)
  {
    hide Registered, Outstanding, BridgeToken.Mint;
    var asset := Lane(from, token);
    var r := MintBridgeTokens(b, asset, recipient, amount);
    if r.Some? {
      var address, c := b.wrappedOf[asset], r.value;
      var w := b.wrapped[address];
      LedgerIsSound(b, address);
      AssetOfWrapped(b, asset);
      MintAccepted(w.ledger, recipient, amount);
      var w' := c.wrapped[address];
      assert b.wrapped[address := w] == b.wrapped;
      forall n, t
        ensures AssetMoves(me, b, c, Some(Message(from, me, MintTokens(token, recipient, amount))), None, n, t)
      {
        LedgerChanges(b, address, w', Lane(n, t));
        LedgerChanges(b, address, w, Lane(n, t));
      }
      LedgerChanges(b, address, w', asset);
      WrappedKeepsLanes(b, c);
    }
  }

  lemma MintAccepted(l: BridgeToken.Ledger, recipient: Address, amount: Word)
    requires BridgeToken.Inv(l)
    ensures var r := BridgeToken.Mint(l, recipient, amount);
      && (r.Some? <==> recipient != 0 && l.totalSupply + amount <= MAX_WORD)
      && (r.Some? ==> BridgeToken.Inv(r.value) && r.value.totalSupply == l.totalSupply + amount)
  {
    BridgeToken.MintIsExact(l, recipient, amount);
  }

  lemma AssetOfWrapped(b: Bridge, asset: Lane)
    requires Registered(b) && asset in b.wrappedOf
    ensures b.wrappedOf[asset] in b.wrapped && b.wrapped[b.wrappedOf[asset]].asset == asset
  {
  }

  lemma UseKeepsInv(me: Id, b: Bridge, token: Address, caller: Address, call: BridgeToken.Call)
    requires BridgeInv(b)
    ensures var r := CallToken(b, token, caller, call); r.Some? ==>
      BridgeInv(r.value) && Moves(me, b, r.value, None, None)
  {
    hide Registered, Outstanding, BridgeToken.Apply;
    var r := CallToken(b, token, caller, call);
    if r.Some? {
      var c, w := r.value, b.wrapped[token];
      LedgerIsSound(b, token);
      BridgeToken.ApplyKeepsInv(w.ledger, caller, call);
      var w' := c.wrapped[token];
      assert b.wrapped[token := w] == b.wrapped;
      forall n, t
        ensures AssetMoves(me, b, c, None, None, n, t)
      {
        LedgerChanges(b, token, w', Lane(n, t));
        LedgerChanges(b, token, w, Lane(n, t));
      }
      LedgerChanges(b, token, w', w.asset);
      WrappedKeepsLanes(b, c);
    }
  }

  // ---------- tokens that come back ----------

  ghost function Debited(b: Bridge, lane: Lane, total: Word): Bridge
    requires total <= Lookup(b.bridged, lane)
  {
    b.(bridged := b.bridged[lane := Lookup(b.bridged, lane) - total])
  }

  lemma DebitKeeps(b: Bridge, lane: Lane, total: Word)
    requires BridgeInv(b) && total <= Lookup(b.bridged, lane)
    ensures var c := Debited(b, lane, total);
      Registered(c) && NoWrappedLanes(c) && CoveredWith(c, lane.token, total)
      && forall t :: t != lane.token ==> Covered(c, t)
  {
    var c := Debited(b, lane, total);
    assert Covered(b, lane.token);
    LaneUpdate(b.bridged, lane, c.bridged[lane], lane.token);
    forall t | t != lane.token
      ensures Covered(c, t)
    {
      assert Covered(b, t);
      LaneUpdate(b.bridged, lane, c.bridged[lane], t);
    }
  }

  // A transfer that comes back through a lane that covers it is refused only if it is
  // malformed, or if it goes on to a third chain for a wrapped token or for a fee that
  // exceeds it or cannot be granted: the balance always suffices, and no lane overflows.
  lemma ReturnKeepsInv(me: Id, b: Bridge, from: Id, a: Action)
    requires BridgeInv(b) && a.TransferTokens?
    ensures var lane := Lane(from, a.returned);
      var r := TransferBridgeTokens(me, b, lane, a.destination, a.receiver, a.total, a.secondaryFee);
      && (r.Some? <==>
            && a.receiver != 0 && a.destination.address != 0 && a.total <= Lookup(b.bridged, lane)
            && (a.destination == me || (a.destination.chain != me.chain && a.returned !in b.wrapped
                                        && a.secondaryFee <= a.total
                                        && GrantAndTake(b.granted, a.returned, a.secondaryFee).Some?)))
      && (r.Some? ==> BridgeInv(r.value.0) && Moves(me, b, r.value.0, Some(Message(from, me, a)), r.value.1)
                      && (r.value.1.Some? <==> a.destination != me)
                      && (r.value.1.Some? ==> GoodMessage(r.value.1.value)))
  {
    hide Registered, ProcessNative, Moves, GrantAndTake;
    var lane := Lane(from, a.returned);
    if a.receiver != 0 && a.destination.address != 0 && a.total <= Lookup(b.bridged, lane) {
      var c := Debited(b, lane, a.total);
      DebitKeeps(b, lane, a.total);
      if a.destination.chain == me.chain {
        if a.destination == me {
          PayOutKeepsInv(me, b, from, a);
        }
      } else {
        NativeKeepsInv(me, c, a.destination, lane.token, a.receiver, a.total, a.secondaryFee);
        NativeSends(me, c, a.destination, lane.token, a.receiver, a.total, a.secondaryFee);
        NativeMoves(me, c, a.destination, lane.token, a.receiver, a.total, a.secondaryFee);
        var r := ProcessNative(me, c, a.destination, lane.token, a.receiver, a.total, a.secondaryFee);
        if r.Some? {
          HopMoves(me, b, from, a, r.value.0, r.value.1);
        }
      }
    }
  }

  ghost function PaidOut(me: Id, b: Bridge, lane: Lane, recipient: Address, total: Word): Bridge
    requires total <= Lookup(b.bridged, lane) && total <= Lookup(b.custody, lane.token)
  {
    PayOut(me, Debited(b, lane, total), Account(lane.token, recipient), total)
  }

  lemma PayOutKeepsInv(me: Id, b: Bridge, from: Id, a: Action)
    requires BridgeInv(b) && a.TransferTokens? && a.total <= Lookup(b.bridged, Lane(from, a.returned))
    ensures a.total <= Lookup(b.custody, a.returned)
    ensures var c := PaidOut(me, b, Lane(from, a.returned), a.receiver, a.total);
      BridgeInv(c) && Moves(me, b, c, Some(Message(from, me, a)), None)
  {
    hide Registered, Moves;
    var lane := Lane(from, a.returned);
    var c := Debited(b, lane, a.total);
    DebitKeeps(b, lane, a.total);
    var paid := PaidOut(me, b, lane, a.receiver, a.total);
    SameLanes(c, paid);
    forall t
      ensures Covered(paid, t)
    {
      assert if t != lane.token then Covered(c, t) else CoveredWith(c, t, a.total);
    }
    PayOutMoves(me, b, from, a);
  }

  lemma PayOutMoves(me: Id, b: Bridge, from: Id, a: Action)
    requires a.TransferTokens? && a.total <= Lookup(b.bridged, Lane(from, a.returned))
    requires a.total <= Lookup(b.custody, a.returned)
    ensures Moves(me, b, PaidOut(me, b, Lane(from, a.returned), a.receiver, a.total), Some(Message(from, me, a)), None)
  {
    hide Moves;
    DebitMoves(me, b, PaidOut(me, b, Lane(from, a.returned), a.receiver, a.total), from, a);
  }

  lemma DebitMoves(me: Id, b: Bridge, c: Bridge, from: Id, a: Action)
    requires a.TransferTokens? && a.total <= Lookup(b.bridged, Lane(from, a.returned))
    requires c.bridged == Debited(b, Lane(from, a.returned), a.total).bridged
    requires c.wrappedOf == b.wrappedOf && c.wrapped == b.wrapped
    ensures Moves(me, b, c, Some(Message(from, me, a)), None)
  {
    hide Outstanding;
    SameOutstanding(b, c);
  }

  lemma SameOutstanding(b: Bridge, c: Bridge)
    requires c.wrappedOf == b.wrappedOf && c.wrapped == b.wrapped
    ensures forall asset :: Outstanding(c, asset) == Outstanding(b, asset)
  {
  }

  lemma HopMoves(me: Id, b: Bridge, from: Id, a: Action, c: Bridge, m: Message)
    requires a.TransferTokens? && a.total <= Lookup(b.bridged, Lane(from, a.returned))
    requires Moves(me, Debited(b, Lane(from, a.returned), a.total), c, None, Some(m))
    ensures Moves(me, b, c, Some(Message(from, me, a)), Some(m))
  {
    var debited := Debited(b, Lane(from, a.returned), a.total);
    forall d, t
      ensures LaneMoves(me, b, c, Some(Message(from, me, a)), Some(m), d, t)
    {
      assert LaneMoves(me, debited, c, None, Some(m), d, t);
    }
    forall n, t
      ensures AssetMoves(me, b, c, Some(Message(from, me, a)), Some(m), n, t)
    {
      assert AssetMoves(me, debited, c, None, Some(m), n, t);
    }
  }

  lemma ReceiveKeepsInv(me: Id, b: Bridge, from: Id, a: Action, newAddress: Address)
    requires BridgeInv(b)
    ensures var r := Receive(me, b, from, a, newAddress); r.Some? ==>
      && BridgeInv(r.value.0) && Moves(me, b, r.value.0, Some(Message(from, me, a)), r.value.1)
      && (r.value.1.Some? ==> GoodMessage(r.value.1.value))
  {
    hide BridgeInv, Moves, CreateBridgeToken, MintBridgeTokens, TransferBridgeTokens;
    match a
    case Create(token) => CreateKeepsInv(me, b, from, token, newAddress);
    case MintTokens(token, recipient, amount) => MintKeepsInv(me, b, from, token, recipient, amount);
    case TransferTokens(_, _, _, _, _) => ReturnKeepsInv(me, b, from, a);
  }

  // ---------- steps of the network ----------

  ghost function Carries(m: Option<Message>, n: Id, d: Id, token: Address): nat {
    Minting(m, n, d, token) + Returning(m, n, d, token)
  }

  lemma CarriedMore(messages: map<nat, Message>, id: nat, m: Message, n: Id, d: Id, token: Address)
    requires id !in messages
    ensures Sum(Carried(messages[id := m], n, d, token))
         == Sum(Carried(messages, n, d, token)) + Carries(Some(m), n, d, token)
  {
    assert Carried(messages[id := m], n, d, token)
        == Carried(messages, n, d, token)[id := Carries(Some(m), n, d, token)];
    SumUpdate(Carried(messages, n, d, token), id, Carries(Some(m), n, d, token));
  }

  lemma CarriedLess(messages: map<nat, Message>, id: nat, n: Id, d: Id, token: Address)
    requires id in messages
    ensures Sum(Carried(messages, n, d, token))
         == Sum(Carried(messages - {id}, n, d, token)) + Carries(Some(messages[id]), n, d, token)
  {
    assert Carried(messages - {id}, n, d, token) == Carried(messages, n, d, token) - {id};
    SumWithout(Carried(messages, n, d, token), id);
  }

  ghost function Without(messages: map<nat, Message>, got: Option<nat>): map<nat, Message> {
    if got.Some? then messages - {got.value} else messages
  }

  ghost function Got(messages: map<nat, Message>, got: Option<nat>): Option<Message> {
    if got.Some? && got.value in messages then Some(messages[got.value]) else None
  }

  lemma MessagesChange(y: Network, me: Id, c: Bridge, got: Option<nat>, sent: Option<Message>,
                       n: Id, d: Id, token: Address)
    requires MessagesGood(y) && (got.Some? ==> got.value in y.messages)
    ensures var z := After(y.(messages := Without(y.messages, got)), me, c, sent);
      Sum(Carried(z.messages, n, d, token)) + Carries(Got(y.messages, got), n, d, token)
        == Sum(Carried(y.messages, n, d, token)) + Carries(sent, n, d, token)
  {
    hide GoodMessage, ToMint, ToReturn;
    if got.Some? {
      CarriedLess(y.messages, got.value, n, d, token);
    }
    if sent.Some? {
      CarriedMore(Without(y.messages, got), y.nextID, sent.value, n, d, token);
    }
  }

  // A call that moves what its messages say keeps every lane conserved.
  lemma MovesConserve(y: Network, me: Id, c: Bridge, got: Option<nat>, sent: Option<Message>,
                      n: Id, d: Id, token: Address)
    requires MessagesGood(y) && me in y.bridges && n in y.bridges && d in y.bridges
    requires got.Some? ==> got.value in y.messages
    requires Moves(me, y.bridges[me], c, Got(y.messages, got), sent)
    requires Conserved(y, n, d, token)
    ensures Conserved(After(y.(messages := Without(y.messages, got)), me, c, sent), n, d, token)
  {
    hide Outstanding, Carried, MessagesGood, Without, Got;
    MessagesChange(y, me, c, got, sent, n, d, token);
    assert LaneMoves(me, y.bridges[me], c, Got(y.messages, got), sent, d, token);
    assert AssetMoves(me, y.bridges[me], c, Got(y.messages, got), sent, n, token);
  }

  lemma AfterKeepsInv(y: Network, me: Id, c: Bridge, got: Option<nat>, sent: Option<Message>)
    requires Inv(y) && me in y.bridges && BridgeInv(c)
    requires got.Some? ==> got.value in y.messages
    requires Moves(me, y.bridges[me], c, Got(y.messages, got), sent)
    requires sent.Some? ==> GoodMessage(sent.value)
    ensures Inv(After(y.(messages := Without(y.messages, got)), me, c, sent))
  {
    hide BridgeInv, Conserved, Moves;
    var z := After(y.(messages := Without(y.messages, got)), me, c, sent);
    forall n, d, token | n in z.bridges && d in z.bridges
      ensures Conserved(z, n, d, token)
    {
      assert Conserved(y, n, d, token);
      MovesConserve(y, me, c, got, sent, n, d, token);
    }
  }

  lemma SubmitFeeMoves(me: Id, b: Bridge, caller: Address, teleporter: Address, asset: Address, fee: Word,
                       received: Word)
    requires BridgeInv(b)
    ensures var r := PaySubmitFee(me, b, caller, teleporter, asset, fee, received);
      r.Some? ==> BridgeInv(r.value) && Moves(me, b, r.value, None, None)
  {
    hide BridgeInv, Moves, PayWrappedFee, GrantAndTake;
    var r := PaySubmitFee(me, b, caller, teleporter, asset, fee, received);
    if r.Some? && fee > 0 && asset in b.wrapped {
      WrappedFeeMoves(me, b, caller, teleporter, asset, fee);
    } else if r.Some? {
      GrantMoves(me, b, r.value);
    }
  }

  lemma WrappedFeeMoves(me: Id, b: Bridge, caller: Address, teleporter: Address, asset: Address, fee: Word)
    requires BridgeInv(b) && asset in b.wrapped
    ensures var r := PayWrappedFee(b.wrapped[asset].ledger, me, caller, teleporter, fee); r.Some? ==>
      var c := b.(wrapped := b.wrapped[asset := b.wrapped[asset].(ledger := r.value)]);
      BridgeInv(c) && Moves(me, b, c, None, None)
  {
    hide Registered, Outstanding, PayWrappedFee, BridgeToken.Inv;
    var w := b.wrapped[asset];
    var r := PayWrappedFee(w.ledger, me, caller, teleporter, fee);
    if r.Some? {
      var w' := w.(ledger := r.value);
      var c := b.(wrapped := b.wrapped[asset := w']);
      LedgerIsSound(b, asset);
      FeeKeepsSupply(w.ledger, me, caller, teleporter, fee);
      assert b.wrapped[asset := w] == b.wrapped;
      forall n, t
        ensures AssetMoves(me, b, c, None, None, n, t)
      {
        LedgerChanges(b, asset, w', Lane(n, t));
        LedgerChanges(b, asset, w, Lane(n, t));
      }
      LedgerChanges(b, asset, w', w.asset);
      WrappedKeepsLanes(b, c);
    }
  }

  lemma GrantMoves(me: Id, b: Bridge, c: Bridge)
    requires BridgeInv(b) && c == b.(granted := c.granted)
    ensures BridgeInv(c) && Moves(me, b, c, None, None)
  {
    hide Registered, Outstanding;
    SameLanes(b, c);
    SameOutstanding(b, c);
    assert forall t :: Covered(b, t) == Covered(c, t);
  }

  // An announcement alone moves nothing.
  lemma AnnouncementMoves(me: Id, b: Bridge, c: Bridge, destination: Id, token: Address)
    requires BridgeInv(c) && Moves(me, b, c, None, None)
    ensures var d := c.(submitted := c.submitted + {Lane(destination, token)});
      BridgeInv(d) && Moves(me, b, d, None, Some(Message(me, destination, Create(token))))
  {
    var d := c.(submitted := c.submitted + {Lane(destination, token)});
    var m := Some(Message(me, destination, Create(token)));
    assert forall t :: Covered(c, t) == Covered(d, t);
    forall n, t
      ensures LaneMoves(me, b, d, None, m, n, t) && AssetMoves(me, b, d, None, m, n, t)
    {
      assert LaneMoves(me, b, c, None, None, n, t) && AssetMoves(me, b, c, None, None, n, t);
    }
  }

  lemma SubmitMoves(me: Id, b: Bridge, caller: Address, teleporter: Address, destination: Id, token: Address,
                    feeAsset: Address, fee: Word, received: Word)
    requires BridgeInv(b)
    ensures var r := SubmitCreateBridgeToken(me, b, caller, teleporter, destination, token, feeAsset, fee, received);
      r.Some? ==>
        BridgeInv(r.value.0) && Moves(me, b, r.value.0, None, Some(r.value.1)) && GoodMessage(r.value.1)
  {
    hide BridgeInv, Moves, PaySubmitFee;
    SubmitFeeMoves(me, b, caller, teleporter, feeAsset, fee, received);
    var c := PaySubmitFee(me, b, caller, teleporter, feeAsset, fee, received);
    if c.Some? {
      AnnouncementMoves(me, b, c.value, destination, token);
    }
  }

  lemma DonateMoves(me: Id, b: Bridge, token: Address, gift: Word)
    requires BridgeInv(b) && Lookup(b.custody, token) + gift <= MAX_WORD
    ensures var c := b.(custody := b.custody[token := Lookup(b.custody, token) + gift]);
      BridgeInv(c) && Moves(me, b, c, None, None)
  {
    hide Registered;
    var c := b.(custody := b.custody[token := Lookup(b.custody, token) + gift]);
    SameLanes(b, c);
    forall t
      ensures Covered(c, t)
    {
      assert Covered(b, t);
    }
  }

  lemma ForeignKeepsInv(y: Network, m: Message)
    requires Inv(y) && m.from !in y.bridges
    ensures Inv(Next(y, ForeignSend(m)))
  {
    hide BridgeInv, Outstanding;
    var z := Next(y, ForeignSend(m));
    forall n, d, token | n in z.bridges && d in z.bridges
      ensures Conserved(z, n, d, token)
    {
      assert Conserved(y, n, d, token);
      CarriedMore(y.messages, y.nextID, m, n, d, token);
    }
  }

  lemma NextKeepsInv(y: Network, step: Step)
    requires Inv(y)
    ensures Inv(Next(y, step))
  {
    hide BridgeInv, Moves, Conserved, MessagesGood, BridgeTokens, SubmitCreateBridgeToken, Receive, CallToken;
    match step
    case Send(me, caller, destination, token, recipient, total, primaryFee, secondaryFee, received) =>
      if me in y.bridges {
        var b := y.bridges[me];
        SendKeepsInv(me, b, caller, y.teleporter, destination, token, recipient, total, primaryFee, secondaryFee,
                     received);
        var r := BridgeTokens(me, b, caller, y.teleporter, destination, token, recipient, total,
                              primaryFee, secondaryFee, received);
        if r.Some? {
          AfterKeepsInv(y, me, r.value.0, None, Some(r.value.1));
        }
      }
    case SubmitCreate(me, caller, destination, token, feeAsset, fee, received) =>
      if me in y.bridges {
        SubmitMoves(me, y.bridges[me], caller, y.teleporter, destination, token, feeAsset, fee, received);
        var r := SubmitCreateBridgeToken(me, y.bridges[me], caller, y.teleporter, destination, token, feeAsset, fee,
                                         received);
        if r.Some? {
          AfterKeepsInv(y, me, r.value.0, None, Some(r.value.1));
        }
      }
    case Execute(id, newAddress, accepted) =>
      if id in y.messages && y.messages[id].to in y.bridges {
        var m := y.messages[id];
        ReceiveKeepsInv(m.to, y.bridges[m.to], m.from, m.action, newAddress);
        var r := Receive(m.to, y.bridges[m.to], m.from, m.action, newAddress);
        if r.Some? {
          AfterKeepsInv(y, m.to, r.value.0, Some(id), r.value.1);
        }
      }
    case UseToken(me, caller, token, call) =>
      if me in y.bridges {
        UseKeepsInv(me, y.bridges[me], token, caller, call);
        var r := CallToken(y.bridges[me], token, caller, call);
        if r.Some? {
          AfterKeepsInv(y, me, r.value, None, None);
        }
      }
    case Donate(me, token, gift) =>
      if me in y.bridges && Lookup(y.bridges[me].custody, token) + gift <= MAX_WORD {
        var b := y.bridges[me];
        DonateMoves(me, b, token, gift);
        AfterKeepsInv(y, me, b.(custody := b.custody[token := Lookup(b.custody, token) + gift]), None, None);
      }
    case ForeignSend(message) =>
      if message.from !in y.bridges {
        ForeignKeepsInv(y, message);
      }
  }

  lemma StartInv(teleporter: Address, ids: set<Id>)
    ensures Inv(Start(teleporter, ids))
  {
    var y := Start(teleporter, ids);
    assert forall token :: LanesOf(NEW.bridged, token) == map[];
    assert forall n, d, token :: Carried(y.messages, n, d, token) == map[];
  }

  lemma {:induction false} RunInv(teleporter: Address, ids: set<Id>, steps: seq<Step>)
    ensures Inv(Run(Start(teleporter, ids), steps))
  {
    hide Inv;
    if steps == [] {
      StartInv(teleporter, ids);
    } else {
      RunInv(teleporter, ids, steps[..|steps| - 1]);
      NextKeepsInv(Run(Start(teleporter, ids), steps[..|steps| - 1]), steps[|steps| - 1]);
    }
  }

  ghost predicate Reachable(y: Network) {
    exists teleporter: Address, ids: set<Id>, steps: seq<Step> :: y == Run(Start(teleporter, ids), steps)
  }

  lemma ReachableInv(y: Network)
    requires Reachable(y)
    ensures Inv(y)
  {
    hide Inv;
    var teleporter, ids, steps :| y == Run(Start(teleporter, ids), steps);
    RunInv(teleporter, ids, steps);
  }

  // ---------- what Teleporter is allowed to take ----------

  // An allowance is used up as soon as it is granted, or it is unlimited.
  ghost predicate Grants(granted: map<Address, Word>, token: Address) {
    Lookup(granted, token) == 0 || Lookup(granted, token) == MAX_WORD
  }

  ghost predicate AllGrants(y: Network) {
    forall i, token :: i in y.bridges ==> Grants(y.bridges[i].granted, token)
  }

  // How a call may change the allowances: it grants and takes one fee, or does nothing.
  ghost predicate GrantsOne(b: Bridge, c: Bridge) {
    c.granted == b.granted
    || exists token: Address, fee: Word :: GrantAndTake(b.granted, token, fee) == Some(c.granted)
  }

  lemma SendGrantsOne(me: Id, b: Bridge, caller: Address, teleporter: Address, destination: Id, token: Address,
                      recipient: Address, total: Word, primaryFee: Word, secondaryFee: Word, received: Word)
    ensures var r := BridgeTokens(me, b, caller, teleporter, destination, token, recipient, total,
                                  primaryFee, secondaryFee, received);
      r.Some? ==> GrantsOne(b, r.value.0)
  {
    hide GrantAndTake, PayWrappedFee, BridgeToken.BurnFrom;
  }

  lemma ReceiveGrantsOne(me: Id, b: Bridge, from: Id, a: Action, newAddress: Address)
    ensures var r := Receive(me, b, from, a, newAddress); r.Some? ==> GrantsOne(b, r.value.0)
  {
    hide GrantAndTake, FreshAddress, BridgeToken.Mint;
  }

  lemma SubmitGrantsOne(me: Id, b: Bridge, caller: Address, teleporter: Address, destination: Id, token: Address,
                        feeAsset: Address, fee: Word, received: Word)
    ensures var r := SubmitCreateBridgeToken(me, b, caller, teleporter, destination, token, feeAsset, fee, received);
      r.Some? ==> GrantsOne(b, r.value.0)
  {
    hide GrantAndTake, PayWrappedFee;
  }

  lemma NextGrantsOne(y: Network, step: Step, i: Id)
    requires i in y.bridges
    ensures i in Next(y, step).bridges && GrantsOne(y.bridges[i], Next(y, step).bridges[i])
  {
    hide GrantsOne, BridgeTokens, SubmitCreateBridgeToken, Receive, BridgeToken.Apply;
    var b := y.bridges[i];
    assert GrantsOne(b, b) by { SameGrants(b, b); }
    match step
    case Send(me, caller, destination, token, recipient, total, primaryFee, secondaryFee, received) =>
      SendGrantsOne(i, b, caller, y.teleporter, destination, token, recipient, total, primaryFee, secondaryFee,
                    received);
    case SubmitCreate(me, caller, destination, token, feeAsset, fee, received) =>
      SubmitGrantsOne(i, b, caller, y.teleporter, destination, token, feeAsset, fee, received);
    case Execute(id, newAddress, accepted) =>
      if id in y.messages {
        ReceiveGrantsOne(i, b, y.messages[id].from, y.messages[id].action, newAddress);
      }
    case UseToken(me, caller, token, call) =>
      if CallToken(b, token, caller, call).Some? {
        SameGrants(b, CallToken(b, token, caller, call).value);
      }
    case Donate(me, token, gift) => SameGrants(b, Next(y, step).bridges[i]);
    case ForeignSend(message) =>
  }

  lemma SameGrants(b: Bridge, c: Bridge)
    requires c.granted == b.granted
    ensures GrantsOne(b, c)
  {
  }

  lemma GrantsStay(b: Bridge, c: Bridge, token: Address)
    requires GrantsOne(b, c) && Grants(b.granted, token)
    ensures Grants(c.granted, token)
  {
  }

  lemma {:induction false} RunGrants(teleporter: Address, ids: set<Id>, steps: seq<Step>, i: Id)
    requires i in ids
    ensures var y := Run(Start(teleporter, ids), steps);
      i in y.bridges && forall token :: Grants(y.bridges[i].granted, token)
  {
    hide Next;
    if steps != [] {
      var y := Run(Start(teleporter, ids), steps[..|steps| - 1]);
      RunGrants(teleporter, ids, steps[..|steps| - 1], i);
      NextGrantsOne(y, steps[|steps| - 1], i);
      var c := Next(y, steps[|steps| - 1]).bridges[i];
      forall token {:trigger Grants(c.granted, token)}
        ensures Grants(c.granted, token)
      {
        assert Grants(y.bridges[i].granted, token);
        GrantsStay(y.bridges[i], c, token);
      }
    }
  }

  lemma {:induction false} SameInstances(y: Network, steps: seq<Step>)
    ensures Run(y, steps).bridges.Keys == y.bridges.Keys
  {
    if steps != [] {
      SameInstances(y, steps[..|steps| - 1]);
    }
  }

  lemma ReachableGrants(y: Network)
    requires Reachable(y)
    ensures AllGrants(y)
  {
    hide Next, Grants;
    var teleporter, ids, steps :| y == Run(Start(teleporter, ids), steps);
    SameInstances(Start(teleporter, ids), steps);
    forall i | i in y.bridges
      ensures forall token :: Grants(y.bridges[i].granted, token)
    {
      RunGrants(teleporter, ids, steps, i);
    }
  }

  // All along the run, less than 2^256 - 1 of a token comes to instance n: it never holds
  // as much, and no announcement's fee brings as much.
  ghost predicate Scarce(teleporter: Address, ids: set<Id>, steps: seq<Step>, n: Id, token: Address) {
    && (forall k :: 0 <= k <= |steps| ==> ScarceAt(Run(Start(teleporter, ids), steps[..k]), n, token))
    && (forall k :: 0 <= k < |steps| ==> ScarceFee(steps[k], n, token))
  }

  ghost predicate ScarceAt(y: Network, n: Id, token: Address) {
    n in y.bridges && Lookup(y.bridges[n].custody, token) < MAX_WORD
  }

  predicate ScarceFee(step: Step, n: Id, token: Address) {
    step.SubmitCreate? && step.me == n && step.feeAsset == token ==> step.received < MAX_WORD
  }

  lemma ScarceGrant(granted: map<Address, Word>, token: Address, fee: Word, t: Address)
    requires Lookup(granted, t) == 0 && (token == t ==> fee < MAX_WORD)
    ensures var r := GrantAndTake(granted, token, fee); r.Some? ==> Lookup(r.value, t) == 0
  {
  }

  lemma ScarceSend(me: Id, b: Bridge, caller: Address, teleporter: Address, destination: Id, token: Address,
                   recipient: Address, total: Word, primaryFee: Word, secondaryFee: Word, received: Word, t: Address)
    requires Lookup(b.granted, t) == 0
    ensures var r := BridgeTokens(me, b, caller, teleporter, destination, token, recipient, total,
                                  primaryFee, secondaryFee, received);
      r.Some? ==> Lookup(r.value.0.granted, t) == 0
  {
    hide GrantAndTake, PayWrappedFee, BridgeToken.BurnFrom;
    if primaryFee < MAX_WORD {
      ScarceGrant(b.granted, token, primaryFee, t);
    }
  }

  lemma ScarceReceive(me: Id, b: Bridge, from: Id, a: Action, newAddress: Address, t: Address)
    requires Lookup(b.granted, t) == 0 && Lookup(b.custody, t) < MAX_WORD
    ensures var r := Receive(me, b, from, a, newAddress); r.Some? ==> Lookup(r.value.0.granted, t) == 0
  {
    hide GrantAndTake, FreshAddress, BridgeToken.Mint;
    if a.TransferTokens? && (a.returned == t ==> a.secondaryFee < MAX_WORD) {
      ScarceGrant(b.granted, a.returned, a.secondaryFee, t);
    }
  }

  lemma ScarceSubmit(me: Id, b: Bridge, caller: Address, teleporter: Address, destination: Id, token: Address,
                     feeAsset: Address, fee: Word, received: Word, t: Address)
    requires Lookup(b.granted, t) == 0 && (feeAsset == t ==> received < MAX_WORD)
    ensures var r := SubmitCreateBridgeToken(me, b, caller, teleporter, destination, token, feeAsset, fee, received);
      r.Some? ==> Lookup(r.value.0.granted, t) == 0
  {
    hide GrantAndTake, PayWrappedFee;
    ScarceGrant(b.granted, feeAsset, received, t);
  }

  lemma ScarceStepGrantsNothing(y: Network, step: Step, n: Id, t: Address)
    requires ScarceAt(y, n, t) && ScarceFee(step, n, t) && Lookup(y.bridges[n].granted, t) == 0
    ensures n in Next(y, step).bridges && Lookup(Next(y, step).bridges[n].granted, t) == 0
  {
    hide BridgeTokens, SubmitCreateBridgeToken, Receive, BridgeToken.Apply;
    var b := y.bridges[n];
    match step
    case Send(me, caller, destination, token, recipient, total, primaryFee, secondaryFee, received) =>
      ScarceSend(n, b, caller, y.teleporter, destination, token, recipient, total, primaryFee, secondaryFee, received,
                 t);
    case SubmitCreate(me, caller, destination, token, feeAsset, fee, received) =>
      if me == n {
        ScarceSubmit(n, b, caller, y.teleporter, destination, token, feeAsset, fee, received, t);
      }
    case Execute(id, newAddress, accepted) =>
      if id in y.messages {
        ScarceReceive(n, b, y.messages[id].from, y.messages[id].action, newAddress, t);
      }
    case UseToken(me, caller, token, call) =>
    case Donate(me, token, gift) =>
    case ForeignSend(message) =>
  }

  lemma {:induction false} ScarceGrantsNothing(teleporter: Address, ids: set<Id>, steps: seq<Step>, n: Id,
                                               token: Address)
    requires Scarce(teleporter, ids, steps, n, token)
    ensures var y := Run(Start(teleporter, ids), steps);
      n in y.bridges && Lookup(y.bridges[n].granted, token) == 0
  {
    hide Next;
    var k := |steps|;
    assert ScarceAt(Run(Start(teleporter, ids), steps[..k]), n, token) && steps[..k] == steps;
    if steps != [] {
      var before := steps[..k - 1];
      forall j | 0 <= j <= |before|
        ensures ScarceAt(Run(Start(teleporter, ids), before[..j]), n, token)
      {
        assert before[..j] == steps[..j];
      }
      assert ScarceFee(steps[k - 1], n, token);
      ScarceGrantsNothing(teleporter, ids, before, n, token);
      assert before[..|before|] == before;
      ScarceStepGrantsNothing(Run(Start(teleporter, ids), before), steps[k - 1], n, token);
    }
  }

  // ---------- what users can rely on ----------

  // The balance that instance n keeps for instance d is, at any time, the wrapped tokens
  // that exist on d, those burned there directly by their holders, those under way to be
  // minted and those under way back.
  lemma LaneConservation(y: Network, n: Id, d: Id, token: Address)
    requires Reachable(y) && n in y.bridges && d in y.bridges
    ensures Lookup(y.bridges[n].bridged, Lane(d, token))
         == Outstanding(y.bridges[d], Lane(n, token)) + Sum(Carried(y.messages, n, d, token))
  {
    ReachableInv(y);
    assert Conserved(y, n, d, token);
  }

  // In every token an instance holds what all other bridges together may send back.
  lemma CustodyCoversLanes(y: Network, n: Id, token: Address)
    requires Reachable(y) && n in y.bridges
    ensures Sum(LanesOf(y.bridges[n].bridged, token)) <= Lookup(y.bridges[n].custody, token)
  {
    ReachableInv(y);
    assert Covered(y.bridges[n], token);
  }

  // Tokens on their way back from an instance to their native chain arrive there exactly
  // if they stay there, or go on without a fee, or Teleporter's allowance is not unlimited:
  // lane and balance always suffice, and a hop's fee is always less than its amount.
  lemma ReturnExecutesIff(y: Network, id: nat, newAddress: Address)
    requires Reachable(y) && id in y.messages && y.messages[id].action.TransferTokens?
    requires y.messages[id].from in y.bridges && y.messages[id].to in y.bridges
    ensures var m := y.messages[id]; var a := m.action;
      Receive(m.to, y.bridges[m.to], m.from, a, newAddress).Some? <==>
        a.destination == m.to || a.secondaryFee == 0
        || Lookup(y.bridges[m.to].granted, a.returned) < MAX_WORD
  {
    hide Registered, Outstanding, Moves;
    ReachableInv(y);
    ReachableGrants(y);
    var m := y.messages[id];
    var a, lane := m.action, Lane(m.from, m.action.returned);
    assert GoodMessage(m) && Conserved(y, m.to, m.from, a.returned);
    assert Grants(y.bridges[m.to].granted, a.returned);
    SumBound(Carried(y.messages, m.to, m.from, a.returned), id);
    assert a.total <= Lookup(y.bridges[m.to].bridged, lane);
    ReturnKeepsInv(m.to, y.bridges[m.to], m.from, a);
  }

  // So for a token of which less than 2^256 - 1 exists, every return can be executed.
  lemma ReturnNeverFails(teleporter: Address, ids: set<Id>, steps: seq<Step>, id: nat, newAddress: Address)
    requires var y := Run(Start(teleporter, ids), steps);
      && id in y.messages && y.messages[id].action.TransferTokens?
      && y.messages[id].from in y.bridges && y.messages[id].to in y.bridges
      && Scarce(teleporter, ids, steps, y.messages[id].to, y.messages[id].action.returned)
    ensures var y := Run(Start(teleporter, ids), steps); var m := y.messages[id];
      Receive(m.to, y.bridges[m.to], m.from, m.action, newAddress).Some?
  {
    var y := Run(Start(teleporter, ids), steps);
    ScarceGrantsNothing(teleporter, ids, steps, y.messages[id].to, y.messages[id].action.returned);
    ReturnExecutesIff(y, id, newAddress);
  }

  // Tokens on their way to be minted by an instance are minted as soon as their wrapped
  // token exists there: the supply cannot overflow.
  lemma MintNeverFails(y: Network, id: nat, newAddress: Address)
    requires Reachable(y) && id in y.messages && y.messages[id].action.MintTokens?
    requires y.messages[id].from in y.bridges && y.messages[id].to in y.bridges
    ensures var m := y.messages[id];
      (Receive(m.to, y.bridges[m.to], m.from, m.action, newAddress).Some? <==>
        Lane(m.from, m.action.token) in y.bridges[m.to].wrappedOf)
  {
    hide Moves, Covered;
    ReachableInv(y);
    var m := y.messages[id];
    var b, asset := y.bridges[m.to], Lane(m.from, m.action.token);
    assert GoodMessage(m) && Conserved(y, m.from, m.to, m.action.token);
    SumBound(Carried(y.messages, m.from, m.to, m.action.token), id);
    if asset in b.wrappedOf {
      LedgerIsSound(b, b.wrappedOf[asset]);
      MintAccepted(b.wrapped[b.wrappedOf[asset]].ledger, m.action.recipient, m.action.amount);
    }
  }
}
