// The networks of bridges run on the same kind of pool: each execution takes the one
// message that it executes, and whatever is sent comes in under a new id.
module BridgePools {
  import opened Words
  import opened MessagePool
  import ERC20Bridge
  import ERC20BridgeNetwork
  import NativeTokenBridge

  ghost predicate NotYet(nextID: nat, id: nat) {
    id >= nextID
  }

  // ---------- the ERC-20 bridges ----------

  ghost function ERC20View(y: ERC20BridgeNetwork.Network): Pool<nat, ERC20Bridge.Message> {
    Pool(imap i: nat | i in y.messages :: y.messages[i], iset i: nat | NotYet(y.nextID, i))
  }

  // The message that a step executes, if it succeeds.
  ghost function ERC20Taken(y: ERC20BridgeNetwork.Network, step: ERC20BridgeNetwork.Step): Option<nat> {
    if step.Execute? && step.id in y.messages && step.id !in ERC20BridgeNetwork.Next(y, step).messages
    then Some(step.id) else None
  }

  lemma ERC20StepsAsPool(y: ERC20BridgeNetwork.Network, step: ERC20BridgeNetwork.Step)
    requires ERC20BridgeNetwork.MessagesGood(y)
    ensures Steps(ERC20View(y), ERC20View(ERC20BridgeNetwork.Next(y, step)), ERC20Taken(y, step))
  {
    hide ERC20Bridge.BridgeTokens, ERC20Bridge.SubmitCreateBridgeToken, ERC20Bridge.Receive, ERC20Bridge.CallToken;
    hide ERC20BridgeNetwork.GoodMessage;
  }

  ghost function ERC20Prefix(teleporter: Address, ids: set<ERC20Bridge.Id>, steps: seq<ERC20BridgeNetwork.Step>,
                             k: nat): ERC20BridgeNetwork.Network
    requires k <= |steps|
  {
    ERC20BridgeNetwork.Run(ERC20BridgeNetwork.Start(teleporter, ids), steps[..k])
  }

  lemma ERC20RunIsPoolRun(teleporter: Address, ids: set<ERC20Bridge.Id>, steps: seq<ERC20BridgeNetwork.Step>)
    ensures IsRun(
      seq(|steps| + 1, k requires 0 <= k <= |steps| => ERC20View(ERC20Prefix(teleporter, ids, steps, k))),
      seq(|steps|, k requires 0 <= k < |steps| => ERC20Taken(ERC20Prefix(teleporter, ids, steps, k), steps[k])))
  {
    hide Steps, ERC20BridgeNetwork.Next, ERC20Taken, ERC20BridgeNetwork.BridgeInv, ERC20BridgeNetwork.Conserved;
    forall k | 0 <= k < |steps|
      ensures Steps(ERC20View(ERC20Prefix(teleporter, ids, steps, k)),
                    ERC20View(ERC20Prefix(teleporter, ids, steps, k + 1)),
                    ERC20Taken(ERC20Prefix(teleporter, ids, steps, k), steps[k]))
    {
      assert steps[..k + 1][..k] == steps[..k];
      ERC20BridgeNetwork.RunInv(teleporter, ids, steps[..k]);
      ERC20StepsAsPool(ERC20Prefix(teleporter, ids, steps, k), steps[k]);
    }
  }

  // ---------- the native token bridge ----------

  // Messages to the destination and to the source have ids of their own kind.
  datatype Item = ToDestination(id: nat) | ToSource(id: nat)
  datatype Content = Tokens(transfer: NativeTokenBridge.Transfer) | Order(message: NativeTokenBridge.SourceMessage)

  ghost predicate NativeUnderWay(y: NativeTokenBridge.System, i: Item) {
    match i
    case ToDestination(id) => id in y.toDestination
    case ToSource(id) => id in y.toSource
  }

  ghost function ContentOf(y: NativeTokenBridge.System, i: Item): Content
    requires NativeUnderWay(y, i)
  {
    match i
    case ToDestination(id) => Tokens(y.toDestination[id])
    case ToSource(id) => Order(y.toSource[id])
  }

  ghost function NativeView(y: NativeTokenBridge.System): Pool<Item, Content> {
    Pool(imap i: Item | NativeUnderWay(y, i) :: ContentOf(y, i), iset i: Item | NotYet(y.nextID, i.id))
  }

  ghost function NativeTaken(y: NativeTokenBridge.System, step: NativeTokenBridge.Step): Option<Item> {
    var z := NativeTokenBridge.Next(y, step);
    if step.Arrive? && step.id in y.toDestination && step.id !in z.toDestination then Some(ToDestination(step.id))
    else if step.Settle? && step.id in y.toSource && step.id !in z.toSource then Some(ToSource(step.id))
    else None
  }

  lemma NativeStepsAsPool(y: NativeTokenBridge.System, step: NativeTokenBridge.Step)
    requires NativeTokenBridge.MessagesSent(y)
    ensures Steps(NativeView(y), NativeView(NativeTokenBridge.Next(y, step)), NativeTaken(y, step))
  {
    hide NativeTokenBridge.Collect, NativeTokenBridge.Handle;
  }

  ghost function NativePrefix(initial: Word, steps: seq<NativeTokenBridge.Step>, k: nat): NativeTokenBridge.System
    requires k <= |steps|
  {
    NativeTokenBridge.Run(NativeTokenBridge.Start(initial), steps[..k])
  }

  lemma NativeRunIsPoolRun(initial: Word, steps: seq<NativeTokenBridge.Step>)
    ensures IsRun(seq(|steps| + 1, k requires 0 <= k <= |steps| => NativeView(NativePrefix(initial, steps, k))),
                  seq(|steps|, k requires 0 <= k < |steps| => NativeTaken(NativePrefix(initial, steps, k), steps[k])))
  {
    hide Steps, NativeTokenBridge.Next, NativeTaken;
    forall k | 0 <= k < |steps|
      ensures Steps(NativeView(NativePrefix(initial, steps, k)), NativeView(NativePrefix(initial, steps, k + 1)),
                    NativeTaken(NativePrefix(initial, steps, k), steps[k]))
    {
      assert steps[..k + 1][..k] == steps[..k];
      NativeTokenBridge.RunInv(initial, steps[..k]);
      NativeStepsAsPool(NativePrefix(initial, steps, k), steps[k]);
    }
  }
}
