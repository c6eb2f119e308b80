// The two reentrancy guards under arbitrary nesting: a guarded function may call
// anything, tokens that call back included, and any call may revert.
module ReentrancyGuards {

  datatype Kind = Sender | Receiver | Unguarded

  // A function being run: the calls it makes in turn, and whether it reverts in the end.
  datatype Frame = Frame(kind: Kind, calls: seq<Frame>, reverts: bool)

  datatype Event = Enter(kind: Kind) | Leave(kind: Kind)

  // True is _ENTERED, false is _NOT_ENTERED.
  datatype Guards = Guards(send: bool, receive: bool)

  predicate Taken(g: Guards, k: Kind) {
    (k == Sender && g.send) || (k == Receiver && g.receive)
  }

  function Take(g: Guards, k: Kind): Guards {
    match k
    case Sender => g.(send := true)
    case Receiver => g.(receive := true)
    case Unguarded => g
  }

  // Frames of kind k entered and not yet left.
  function Active(trace: seq<Event>, k: Kind): int {
    if trace == [] then 0
    else
      var e := trace[|trace| - 1];
      Active(trace[..|trace| - 1], k) + (if e == Enter(k) then 1 else if e == Leave(k) then -1 else 0)
  }

  // The function bodies that run: a call whose guard is taken is turned away.
  function Trace(g: Guards, f: Frame): seq<Event>
    decreases f, 0
  {
    if Taken(g, f.kind) then []
    else [Enter(f.kind)] + TraceAll(Take(g, f.kind), f.calls) + [Leave(f.kind)]
  }

  function TraceAll(g: Guards, fs: seq<Frame>): seq<Event>
    decreases fs
  {
    if fs == [] then [] else Trace(g, fs[0]) + TraceAll(g, fs[1..])
  }

  class ReentrancyGuarded {
    var sendEntered: int
    var receiveEntered: int
    ghost var trace: seq<Event>

    const NOT_ENTERED := 1
    const ENTERED := 2

    ghost predicate Valid()
      reads this
    {
      sendEntered in {NOT_ENTERED, ENTERED} && receiveEntered in {NOT_ENTERED, ENTERED}
    }

    ghost function Current(): Guards
      reads this
    {
      Guards(sendEntered == ENTERED, receiveEntered == ENTERED)
    }

    constructor ()
      ensures Valid() && Current() == Guards(false, false) && trace == []
    {
      sendEntered, receiveEntered, trace := 1, 1, [];
    }

    // Whatever a call does and however it ends, it leaves the guards as it found them.
    method Run(f: Frame) returns (entered: bool)
      requires Valid()
      modifies this
      ensures Valid() && Current() == old(Current())
      ensures entered <==> !Taken(old(Current()), f.kind)
      ensures trace == old(trace) + Trace(old(Current()), f)
      decreases f, 0
    {
      hide TraceAll;
      var before := (sendEntered, receiveEntered);
      entered := Enter(f.kind);
      if !entered {
        return;
      }
      trace := trace + [Event.Enter(f.kind)];
      RunAll(f.calls);
      trace := trace + [Event.Leave(f.kind)];
      if f.reverts {
        sendEntered, receiveEntered := before.0, before.1;
      } else {
        Leave(f.kind, Guards(before.0 == ENTERED, before.1 == ENTERED));
      }
    }

    // The modifier before the body: a call whose guard is taken reverts.
    method Enter(kind: Kind) returns (ok: bool)
      requires Valid()
      modifies `sendEntered, `receiveEntered
      ensures Valid()
      ensures ok <==> !Taken(old(Current()), kind)
      ensures Current() == if ok then Take(old(Current()), kind) else old(Current())
    {
      if kind == Sender {
        if sendEntered != NOT_ENTERED {
          return false;
        }
        sendEntered := ENTERED;
      } else if kind == Receiver {
        if receiveEntered != NOT_ENTERED {
          return false;
        }
        receiveEntered := ENTERED;
      }
      return true;
    }

    // The modifier after the body gives back the guard that it took.
    method Leave(kind: Kind, ghost before: Guards)
      requires Valid() && Current() == Take(before, kind) && !Taken(before, kind)
      modifies `sendEntered, `receiveEntered
      ensures Valid() && Current() == before
    {
      if kind == Sender {
        sendEntered := NOT_ENTERED;
      } else if kind == Receiver {
        receiveEntered := NOT_ENTERED;
      }
    }

    method RunAll(fs: seq<Frame>)
      requires Valid()
      modifies this
      ensures Valid() && Current() == old(Current())
      ensures trace == old(trace) + TraceAll(old(Current()), fs)
      decreases fs
    {
      if fs != [] {
        var _ := Run(fs[0]);
        RunAll(fs[1..]);
      }
    }
  }

  // ---------- at most one frame of each kind ----------

  // At every moment of the trace, `most` frames of the kind are active at most.
  ghost predicate Bounded(trace: seq<Event>, k: Kind, most: int) {
    forall i :: 0 <= i <= |trace| ==> Active(trace[..i], k) <= most
  }

  lemma {:induction false} ActiveConcat(a: seq<Event>, b: seq<Event>, k: Kind)
    ensures Active(a + b, k) == Active(a, k) + Active(b, k)
  {
    if b == [] {
      assert a + b == a;
    } else {
      ActiveConcat(a, b[..|b| - 1], k);
      assert (a + b)[..|a + b| - 1] == a + b[..|b| - 1];
    }
  }

  lemma BoundedConcat(a: seq<Event>, b: seq<Event>, k: Kind, most: int)
    requires Bounded(a, k, most) && Bounded(b, k, most - Active(a, k))
    ensures Bounded(a + b, k, most)
  {
    forall i | 0 <= i <= |a + b|
      ensures Active((a + b)[..i], k) <= most
    {
      if i <= |a| {
        assert (a + b)[..i] == a[..i];
      } else {
        assert (a + b)[..i] == a + b[..i - |a|];
        ActiveConcat(a, b[..i - |a|], k);
      }
    }
  }

  lemma OneEvent(e: Event, k: Kind)
    ensures Active([e], k) == if e == Enter(k) then 1 else if e == Leave(k) then -1 else 0
    ensures Bounded([e], k, if e == Enter(k) then 1 else 0)
  {
    assert [e][..0] == [] && [e][..1] == [e];
  }

  lemma {:induction false} TraceBounded(g: Guards, f: Frame, k: Kind)
    requires k != Unguarded
    ensures Active(Trace(g, f), k) == 0
    ensures Bounded(Trace(g, f), k, if Taken(g, k) then 0 else 1)
    decreases f, 0
  {
    if Taken(g, f.kind) {
      assert Trace(g, f) == [];
    } else {
      var most, inner := if Taken(g, k) then 0 else 1, TraceAll(Take(g, f.kind), f.calls);
      var enter, leave := [Enter(f.kind)], [Leave(f.kind)];
      TracesBounded(Take(g, f.kind), f.calls, k);
      OneEvent(Enter(f.kind), k);
      OneEvent(Leave(f.kind), k);
      BoundedConcat(enter, inner, k, most);
      ActiveConcat(enter, inner, k);
      BoundedConcat(enter + inner, leave, k, most);
      ActiveConcat(enter + inner, leave, k);
    }
  }

  lemma {:induction false} TracesBounded(g: Guards, fs: seq<Frame>, k: Kind)
    requires k != Unguarded
    ensures Active(TraceAll(g, fs), k) == 0
    ensures Bounded(TraceAll(g, fs), k, if Taken(g, k) then 0 else 1)
    decreases fs
  {
    if fs == [] {
      assert TraceAll(g, fs) == [];
    } else {
      TraceBounded(g, fs[0], k);
      TracesBounded(g, fs[1..], k);
      BoundedConcat(Trace(g, fs[0]), TraceAll(g, fs[1..]), k, if Taken(g, k) then 0 else 1);
      ActiveConcat(Trace(g, fs[0]), TraceAll(g, fs[1..]), k);
    }
  }

  // At any depth at most one sending and one receiving function are running, while
  // the two kinds do nest: a receiver may send, and what it calls may not receive.
  lemma AtMostOneOfEachKind(f: Frame, i: nat)
    requires i <= |Trace(Guards(false, false), f)|
    ensures var now := Trace(Guards(false, false), f)[..i]; Active(now, Sender) <= 1 && Active(now, Receiver) <= 1
  {
    TraceBounded(Guards(false, false), f, Sender);
    TraceBounded(Guards(false, false), f, Receiver);
  }

  lemma SendNestsInReceive()
    ensures var send := Frame(Sender, [Frame(Receiver, [], false)], false);
      Trace(Guards(false, false), Frame(Receiver, [send], false))
        == [Enter(Receiver), Enter(Sender), Leave(Sender), Leave(Receiver)]
  {
    var inner := Frame(Receiver, [], false);
    var send := Frame(Sender, [inner], false);
    var both := Guards(true, true);
    assert Trace(both, inner) == [] && TraceAll(both, [inner][1..]) == [];
    assert TraceAll(both, [inner]) == [];
    assert Trace(Guards(false, true), send) == [Enter(Sender), Leave(Sender)];
    assert TraceAll(Guards(false, true), [send]) == [Enter(Sender), Leave(Sender)];
  }

  // ---------- the guards and the frames that are running ----------

  // What runs if a call is turned away exactly when a frame of its kind is running already;
  // `running` lists the kinds of the frames around the call.
  function Nested(running: seq<Kind>, f: Frame): seq<Event>
    decreases f, 0
  {
    if f.kind != Unguarded && f.kind in running then []
    else [Enter(f.kind)] + NestedAll(running + [f.kind], f.calls) + [Leave(f.kind)]
  }

  function NestedAll(running: seq<Kind>, fs: seq<Frame>): seq<Event>
    decreases fs
  {
    if fs == [] then [] else Nested(running, fs[0]) + NestedAll(running, fs[1..])
  }

  ghost predicate Stands(g: Guards, running: seq<Kind>) {
    (g.send <==> Sender in running) && (g.receive <==> Receiver in running)
  }

  lemma TakenStands(g: Guards, running: seq<Kind>, k: Kind)
    requires Stands(g, running)
    ensures Taken(g, k) <==> k != Unguarded && k in running
    ensures Stands(Take(g, k), running + [k])
  {
    assert forall x :: x in running + [k] <==> x in running || x == k;
  }

  // So the two flags do just what the list of running frames would: a call is turned away
  // if and only if a frame of its own kind is running, at any depth.
  lemma {:induction false} GuardsAreFrames(g: Guards, running: seq<Kind>, f: Frame)
    requires Stands(g, running)
    ensures Trace(g, f) == Nested(running, f)
    decreases f, 0
  {
    TakenStands(g, running, f.kind);
    if !Taken(g, f.kind) {
      AllGuardsAreFrames(Take(g, f.kind), running + [f.kind], f.calls);
    }
  }

  lemma {:induction false} AllGuardsAreFrames(g: Guards, running: seq<Kind>, fs: seq<Frame>)
    requires Stands(g, running)
    ensures TraceAll(g, fs) == NestedAll(running, fs)
    decreases fs
  {
    if fs != [] {
      GuardsAreFrames(g, running, fs[0]);
      AllGuardsAreFrames(g, running, fs[1..]);
    }
  }
}
