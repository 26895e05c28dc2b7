// The commands of the low-level dial example are those the call machine calls for.
module LowOrders {
  import opened Options
  import opened Commands
  import opened LowCalls
  import R = Registry
  import A = CallMachine
  import L = CallMachineRuns
  import O = CallOrders

  lemma HasOnSide(a: A.State, l: A.Leg, i: nat)
    requires A.Inv(a) && A.Nameable(l) && i < |a.calls|
    ensures HasChannel(View(a.calls[i]), A.LowName(l), CalledMode) <==>
      A.CalledLive(a.calls[i]) && A.Inside(a.calls[i].n) == l
    ensures HasChannel(View(a.calls[i]), A.LowName(l), CallingMode) <==>
      A.CallingLive(a.calls[i]) && a.calls[i].calling == l
  {
    var c := a.calls[i];
    assert A.CallOk(a, c);
    OneName(l, c.calling);
    OneName(l, A.Inside(c.n));
  }

  lemma FindsCalled(a: A.State, l: A.Leg)
    requires L.Logged(a) && A.Nameable(l)
    ensures var k := FindCall(Views(a.calls), A.LowName(l), CalledMode);
      && (k < |a.calls| <==> O.LiveCalled(a, l))
      && (k < |a.calls| ==> View(a.calls[k]).dialing == O.LowShown(a, a.callers[l.n]))
  {
    var vs := Views(a.calls);
    var k := FindCall(vs, A.LowName(l), CalledMode);
    assert |vs| == |a.calls|;
    if k < |a.calls| {
      assert vs[k] == View(a.calls[k]) && A.CallOk(a, a.calls[k]);
      HasOnSide(a, l, k);
    }
    if O.LiveCalled(a, l) {
      var i := O.CalledIsListed(a, l);
      assert vs[i] == View(a.calls[i]);
      HasOnSide(a, l, i);
    }
  }

  lemma FindsCalling(a: A.State, l: A.Leg)
    requires L.Logged(a) && A.Nameable(l)
    ensures FindCall(Views(a.calls), A.LowName(l), CallingMode) < |a.calls| <==> O.LiveCaller(a, l)
  {
    var vs := Views(a.calls);
    var k := FindCall(vs, A.LowName(l), CallingMode);
    assert |vs| == |a.calls|;
    if k < |a.calls| {
      assert vs[k] == View(a.calls[k]) && A.CallOk(a, a.calls[k]);
      HasOnSide(a, l, k);
    }
    if O.LiveCaller(a, l) {
      var i := O.CallerIsListed(a, l);
      assert vs[i] == View(a.calls[i]);
      HasOnSide(a, l, i);
    }
  }

  ghost predicate Sends(s: State, t: State, cs: seq<Command>) {
    t.sent == s.sent + cs
  }

  lemma DestroySends(s: State, a: A.State, l: A.Leg, cause: int)
    requires Refines(s, a) && L.Logged(a) && A.Allowed(a, A.Destroy(l, cause))
    ensures Sends(s, Step(s, A.Destroy(l, cause)), O.LowText(a, O.OrderFor(a, A.Destroy(l, cause))))
  {
    hide Refines, L.Logged, ChannelDestroyed, A.Known, A.CallOk;
    O.FoundIsLive(a, l);
    var k := A.Find(a.calls, l);
    if k < |a.calls| { DeathSends(s, a, l, k); } else { NotFoundSends(s, a, l); }
  }

  lemma NotFoundSends(s: State, a: A.State, l: A.Leg)
    requires Refines(s, a) && A.Nameable(l) && A.Find(a.calls, l) == |a.calls|
    ensures ChannelDestroyed(s, A.LowName(l)) == s
  {
    FindsSameCall(a, l);
  }

  lemma DeathSends(s: State, a: A.State, l: A.Leg, k: nat)
    requires Refines(s, a) && A.Nameable(l) && k == A.Find(a.calls, l) < |a.calls|
    ensures var c := a.calls[k];
      var other := if l == c.calling then A.Inside(c.n) else c.calling;
      Sends(s, ChannelDestroyed(s, A.LowName(l)),
            if c.legs == A.Both then [Hangup(A.LowName(other))]
            else if c.bridge != "" then [DeleteBridge(c.bridge)] else [])
  {
    FindsSameCall(a, l);
    assert s.calls[k] == View(a.calls[k]);
    if a.calls[k].legs != A.Both {
      LowEndsCall(s, a, l, k);
    } else {
      HangupView(a, l, k);
    }
  }

  lemma BridgedSends(s: State, a: A.State, k: nat, bridge: string)
    requires Refines(s, a) && A.Allowed(a, A.Bridged(k, bridge))
    ensures Sends(s, Step(s, A.Bridged(k, bridge)), O.LowText(a, O.OrderFor(a, A.Bridged(k, bridge))))
  {
    assert s.calls[k] == View(a.calls[k]) && A.CallOk(a, a.calls[k]);
  }

  lemma EnterSends(s: State, a: A.State, l: A.Leg, external: bool, info: R.Info)
    requires Refines(s, a) && L.Logged(a) && A.Allowed(a, A.Enter(l, external, info))
    ensures var e := A.Enter(l, external, info); Sends(s, Step(s, e), O.LowText(a, O.OrderFor(a, e)))
  {
    SameCalls(s, a);
    if !external { FindsCalled(a, l); }
    hide Refines, L.Logged, Views, A.Inv;
  }

  lemma ChangeSends(s: State, a: A.State, l: A.Leg, state: string)
    requires Refines(s, a) && L.Logged(a) && A.Allowed(a, A.Change(l, state))
    ensures Sends(s, Step(s, A.Change(l, state)), O.LowText(a, O.OrderFor(a, A.Change(l, state))))
  {
    hide Refines, L.Logged, Views, A.Inv, FindCall, A.Nameable;
    SameCalls(s, a);
    FindsCalled(a, l);
    FindsCalling(a, l);
  }

  lemma SameCalls(s: State, a: A.State)
    requires Refines(s, a)
    ensures s.calls == Views(a.calls) && |s.calls| == |a.calls| && s.nextId == |a.callers|
    ensures forall i :: 0 <= i < |s.calls| ==> s.calls[i] == View(a.calls[i])
  {
  }

  lemma StepSends(s: State, a: A.State, e: A.Event)
    requires Refines(s, a) && L.Logged(a) && A.Allowed(a, e)
    ensures Sends(s, Step(s, e), O.LowText(a, O.OrderFor(a, e)))
  {
    match e
    case Announce(_, _) =>
    case Enter(l, external, info) => EnterSends(s, a, l, external, info);
    case Change(l, state) => ChangeSends(s, a, l, state);
    case Destroy(l, cause) => DestroySends(s, a, l, cause);
    case Bridged(k, bridge) => BridgedSends(s, a, k, bridge);
  }

  // In every run the example sends exactly the commands the call machine calls for.
  lemma {:induction false} RunSends(es: seq<A.Event>)
    requires A.IsRun(A.Init, es)
    ensures Run(Init, es).sent == O.LowSent(es)
    decreases |es|
  {
    if es != [] {
      var front := es[..|es| - 1];
      RunSends(front);
      RunRefines(front);
      L.RunLogged(front);
      StepSends(Run(Init, front), A.Run(A.Init, front), es[|es| - 1]);
    }
  }
}
