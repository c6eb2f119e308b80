// What each call of ERC20Bridge does to one bridge instance and which message it
// sends, as functions from the state before to the state after; None is a revert.
module ERC20Bridge {
  import opened Words
  import BridgeToken

  // A bridge instance, or any other sender, is known by its chain and address.
  datatype Id = Id(chain: Word, address: Address)

  // A native token together with a bridge: the one it was sent to in `bridged` and
  // `submitted`, the one it came from for a wrapped token.
  datatype Lane = Lane(bridge: Id, token: Address)

  // A deployed BridgeToken, and how much its holders burned directly.
  datatype Wrapped = Wrapped(asset: Lane, ledger: BridgeToken.Ledger, burned: nat)

  // An account in a token of the instance's own chain.
  datatype Account = Account(token: Address, owner: Address)

  datatype Bridge = Bridge(
    submitted: set<Lane>,
    bridged: map<Lane, Word>,
    wrappedOf: map<Lane, Address>,
    wrapped: map<Address, Wrapped>,
    // the instance's balance in each token of its own chain, what Teleporter is allowed to
    // take of it, and what was paid out of it
    custody: map<Address, Word>,
    granted: map<Address, Word>,
    paid: map<Account, nat>)

  const NEW: Bridge := Bridge({}, map[], map[], map[], map[], map[], map[])

  datatype Action =
    | Create(createdToken: Address)
    | MintTokens(token: Address, recipient: Address, amount: Word)
    | TransferTokens(destination: Id, returned: Address, receiver: Address, total: Word, secondaryFee: Word)

  datatype Message = Message(from: Id, to: Id, action: Action)

  // ---------- sending ----------

  // A fee in a native token is granted to Teleporter, which takes it at once. The largest
  // allowance is unlimited: taking does not reduce it, and nothing can be added to it.
  function GrantAndTake(granted: map<Address, Word>, token: Address, fee: Word): Option<map<Address, Word>> {
    var before := Lookup(granted, token);
    if fee == 0 then Some(granted)
    else if before + fee > MAX_WORD then None
    else Some(granted[token := if before + fee == MAX_WORD then MAX_WORD else before])
  }

  // Tokens already in custody go to another bridge: its lane grows by what it may mint,
  // and Teleporter takes the fee out of the instance's balance.
  function ProcessNative(me: Id, b: Bridge, destination: Id, token: Address, recipient: Address,
                         total: Word, fee: Word): Option<(Bridge, Message)>
  {
    if token in b.wrapped || destination.chain == me.chain || total < fee || Lookup(b.custody, token) < fee
    then None
    else
      var lane, amount := Lane(destination, token), total - fee;
      var granted := GrantAndTake(b.granted, token, fee);
      if Lookup(b.bridged, lane) + amount > MAX_WORD || granted.None? then None
      else Some((b.(bridged := b.bridged[lane := Lookup(b.bridged, lane) + amount],
                    custody := b.custody[token := Lookup(b.custody, token) - fee],
                    granted := granted.value),
                 Message(me, destination, MintTokens(token, recipient, amount))))
  }

  // The primary fee moves through the instance to Teleporter; the supply stays the same.
  function PayWrappedFee(l: BridgeToken.Ledger, me: Id, caller: Address, teleporter: Address, fee: Word)
    : Option<BridgeToken.Ledger>
  {
    if fee == 0 then Some(l)
    else
      match BridgeToken.TransferFrom(l, me.address, caller, me.address, fee)
      case None => None
      case Some(paid) =>
        match BridgeToken.IncreaseAllowance(paid, me.address, teleporter, fee)
        case None => None
        case Some(allowed) => BridgeToken.TransferFrom(allowed, teleporter, me.address, teleporter, fee)
  }

  function ProcessWrapped(me: Id, b: Bridge, caller: Address, teleporter: Address, destination: Id,
                          token: Address, recipient: Address, total: Word, primaryFee: Word,
                          secondaryFee: Word): Option<(Bridge, Message)>
    requires token in b.wrapped
  {
    var w := b.wrapped[token];
    if total < primaryFee then None
    else
      match PayWrappedFee(w.ledger, me, caller, teleporter, primaryFee)
      case None => None
      case Some(paid) =>
        match BridgeToken.BurnFrom(paid, me.address, caller, total - primaryFee)
        case None => None
        case Some(ledger) =>
          if destination.chain == w.asset.bridge.chain && destination != w.asset.bridge then None
          else Some((b.(wrapped := b.wrapped[token := w.(ledger := ledger)]),
                     Message(me, w.asset.bridge,
                             TransferTokens(destination, w.asset.token, recipient, total - primaryFee, secondaryFee))))
  }

  // `received` is by how much the balance grows when a native token is pulled.
  function BridgeTokens(me: Id, b: Bridge, caller: Address, teleporter: Address, destination: Id,
                        token: Address, recipient: Address, total: Word, primaryFee: Word,
                        secondaryFee: Word, received: Word): Option<(Bridge, Message)>
  {
    if destination.chain == me.chain || recipient == 0 || destination.address == 0 then None
    else if token in b.wrapped then
      if primaryFee + secondaryFee > MAX_WORD || total <= primaryFee + secondaryFee then None
      else ProcessWrapped(me, b, caller, teleporter, destination, token, recipient, total, primaryFee, secondaryFee)
    else if Lane(destination, token) !in b.submitted then None
    else if received == 0 || Lookup(b.custody, token) + received > MAX_WORD || received <= primaryFee then None
    else
      var locked := b.(custody := b.custody[token := Lookup(b.custody, token) + received]);
      ProcessNative(me, locked, destination, token, recipient, received, primaryFee)
  }

  // The fee of an announcement passes through the instance: in a wrapped token it ends
  // with Teleporter, and in a native one the balance is as it was before.
  function PaySubmitFee(me: Id, b: Bridge, caller: Address, teleporter: Address, asset: Address, fee: Word,
                        received: Word): Option<Bridge>
  {
    if fee == 0 then Some(b)
    else if asset in b.wrapped then
      match PayWrappedFee(b.wrapped[asset].ledger, me, caller, teleporter, fee)
      case None => None
      case Some(ledger) => Some(b.(wrapped := b.wrapped[asset := b.wrapped[asset].(ledger := ledger)]))
    else if asset == 0 || received == 0 || Lookup(b.custody, asset) + received > MAX_WORD then None
    else
      match GrantAndTake(b.granted, asset, received)
      case None => None
      case Some(granted) => Some(b.(granted := granted))
  }

  function SubmitCreateBridgeToken(me: Id, b: Bridge, caller: Address, teleporter: Address, destination: Id,
                                   token: Address, feeAsset: Address, fee: Word, received: Word)
    : Option<(Bridge, Message)>
  {
    if destination.address == 0 then None
    else
      match PaySubmitFee(me, b, caller, teleporter, feeAsset, fee, received)
      case None => None
      case Some(c) =>
        Some((c.(submitted := c.submitted + {Lane(destination, token)}), Message(me, destination, Create(token))))
  }

  // ---------- receiving ----------

  // The address of a new contract holds no token yet.
  predicate FreshAddress(b: Bridge, newAddress: Address) {
    newAddress !in b.wrapped && forall lane :: lane in b.bridged && b.bridged[lane] > 0 ==> lane.token != newAddress
  }

  function CreateBridgeToken(b: Bridge, asset: Lane, newAddress: Address): Option<Bridge> {
    if asset in b.wrappedOf || asset.bridge.chain == 0 || asset.bridge.address == 0 || asset.token == 0
       || !FreshAddress(b, newAddress)
    then None
    else Some(b.(wrappedOf := b.wrappedOf[asset := newAddress],
                 wrapped := b.wrapped[newAddress := Wrapped(asset, BridgeToken.EMPTY, 0)]))
  }

  function MintBridgeTokens(b: Bridge, asset: Lane, recipient: Address, amount: Word): Option<Bridge> {
    if recipient == 0 || asset !in b.wrappedOf || b.wrappedOf[asset] !in b.wrapped then None
    else
      var token := b.wrappedOf[asset];
      match BridgeToken.Mint(b.wrapped[token].ledger, recipient, amount)
      case None => None
      case Some(ledger) => Some(b.(wrapped := b.wrapped[token := b.wrapped[token].(ledger := ledger)]))
  }

  function PaidTo(b: Bridge, a: Account): nat {
    if a in b.paid then b.paid[a] else 0
  }

  // Paying itself, the instance keeps what it has.
  function PayOut(me: Id, b: Bridge, a: Account, amount: Word): Bridge
    requires amount <= Lookup(b.custody, a.token)
  {
    var paid := b.(paid := b.paid[a := PaidTo(b, a) + amount]);
    if a.owner == me.address then paid
    else paid.(custody := b.custody[a.token := Lookup(b.custody, a.token) - amount])
  }

  // The sender's lane is debited in full; the tokens are then paid out here or, less
  // the secondary fee, go on to a third chain.
  function TransferBridgeTokens(me: Id, b: Bridge, lane: Lane, destination: Id, recipient: Address,
                                total: Word, secondaryFee: Word): Option<(Bridge, Option<Message>)>
  {
    if recipient == 0 || destination.address == 0 || Lookup(b.bridged, lane) < total then None
    else
      var debited := b.(bridged := b.bridged[lane := Lookup(b.bridged, lane) - total]);
      if destination.chain == me.chain then
        if destination != me || Lookup(b.custody, lane.token) < total then None
        else Some((PayOut(me, debited, Account(lane.token, recipient), total), None))
      else
        match ProcessNative(me, debited, destination, lane.token, recipient, total, secondaryFee)
        case None => None
        case Some((after, m)) => Some((after, Some(m)))
  }

  function Receive(me: Id, b: Bridge, from: Id, action: Action, newAddress: Address)
    : Option<(Bridge, Option<Message>)>
  {
    match action
    case Create(token) =>
      (match CreateBridgeToken(b, Lane(from, token), newAddress)
       case None => None
       case Some(after) => Some((after, None)))
    case MintTokens(token, recipient, amount) =>
      (match MintBridgeTokens(b, Lane(from, token), recipient, amount)
       case None => None
       case Some(after) => Some((after, None)))
    case TransferTokens(destination, token, recipient, total, secondaryFee) =>
      TransferBridgeTokens(me, b, Lane(from, token), destination, recipient, total, secondaryFee)
  }

  // ---------- what holders do with a wrapped token ----------

  function CallToken(b: Bridge, token: Address, caller: Address, call: BridgeToken.Call): Option<Bridge> {
    if token !in b.wrapped then None
    else
      var w := b.wrapped[token];
      match BridgeToken.Apply(w.ledger, caller, call)
      case None => None
      case Some(ledger) =>
        Some(b.(wrapped := b.wrapped[token := w.(ledger := ledger, burned := w.burned + BridgeToken.BurnedBy(call))]))
  }
}
