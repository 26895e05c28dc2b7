// The commands of the high-level dial example are those the call machine calls for.
module HighOrders {
  import opened Options
  import opened Commands
  import opened HighCalls
  import R = Registry
  import A = CallMachine
  import L = CallMachineRuns
  import O = CallOrders

  // While the objects keep their ids, FindCallByChannel finds the call with the leg on that side.
  lemma HasOnSide(s: State, a: A.State, reg: R.State, l: A.Leg, i: nat)
    requires Refines(s, a) && A.Nameable(l) && i < |s.calls|
    requires |reg.heap| == |s.reg.heap| && forall i :: 0 <= i < |reg.heap| ==> reg.heap[i].id == s.reg.heap[i].id
    ensures i < |a.calls|
    ensures HasChannel(s.(reg := reg), s.calls[i], A.HighName(l), CalledMode) <==> A.Inside(a.calls[i].n) == l
    ensures HasChannel(s.(reg := reg), s.calls[i], A.HighName(l), CallingMode) <==> a.calls[i].calling == l
  {
    var c := a.calls[i];
    assert Matches(s.reg, s.calls[i], c) && A.CallOk(a, c);
    assert A.Nameable(c.calling) && A.Nameable(A.Inside(c.n));
    if A.HighName(c.calling) == A.HighName(l) { OneName(c.calling, l); }
    if A.HighName(A.Inside(c.n)) == A.HighName(l) { OneName(A.Inside(c.n), l); }
  }

  lemma FindsCalled(s: State, a: A.State, reg: R.State, l: A.Leg)
    requires Refines(s, a) && L.Logged(a) && A.Nameable(l) && A.Known(a, l)
    requires |reg.heap| == |s.reg.heap| && forall i :: 0 <= i < |reg.heap| ==> reg.heap[i].id == s.reg.heap[i].id
    ensures var k := FindCall(s.(reg := reg), s.calls, A.HighName(l), CalledMode);
      && (k < |s.calls| <==> O.LiveCalled(a, l))
      && (k < |s.calls| ==> Id(s, s.calls[k].calling) == A.HighName(a.callers[l.n]))
  {
    var k := FindCall(s.(reg := reg), s.calls, A.HighName(l), CalledMode);
    if k < |s.calls| {
      HasOnSide(s, a, reg, l, k);
      assert Matches(s.reg, s.calls[k], a.calls[k]) && A.CallOk(a, a.calls[k]);
    }
    if O.LiveCalled(a, l) {
      var i := O.CalledIsListed(a, l);
      HasOnSide(s, a, reg, l, i);
    }
  }

  lemma FindsCalling(s: State, a: A.State, reg: R.State, l: A.Leg)
    requires Refines(s, a) && L.Logged(a) && A.Nameable(l) && A.Known(a, l)
    requires |reg.heap| == |s.reg.heap| && forall i :: 0 <= i < |reg.heap| ==> reg.heap[i].id == s.reg.heap[i].id
    ensures FindCall(s.(reg := reg), s.calls, A.HighName(l), CallingMode) < |s.calls| <==> O.LiveCaller(a, l)
  {
    var k := FindCall(s.(reg := reg), s.calls, A.HighName(l), CallingMode);
    if k < |s.calls| {
      HasOnSide(s, a, reg, l, k);
      assert A.CallOk(a, a.calls[k]);
    }
    if O.LiveCaller(a, l) {
      var i := O.CallerIsListed(a, l);
      HasOnSide(s, a, reg, l, i);
    }
  }

  // The commands an event adds.
  ghost predicate Sends(s: State, t: State, cs: seq<Command>) {
    t.sent == s.sent + cs
  }

  lemma LiveIsKnown(a: A.State, l: A.Leg)
    requires A.Inv(a) && (O.LiveCalled(a, l) || O.LiveCaller(a, l))
    ensures A.Known(a, l)
  {
  }

  lemma EnterSends(s: State, moh: bool, a: A.State, l: A.Leg, external: bool, info: R.Info)
    requires Refines(s, a) && L.Logged(a) && A.Allowed(a, A.Enter(l, external, info))
    ensures var e := A.Enter(l, external, info);
      Sends(s, Step(s, moh, e), O.HighText(moh, O.OrderFor(a, e)))
  {
    if A.HighName(l) in s.reg.dir {
      if external { ExternalSends(s, a, l, info); } else { InternalSends(s, a, l, info); }
    } else if O.LiveCalled(a, l) {
      LiveIsKnown(a, l);
    }
  }

  lemma ExternalSends(s: State, a: A.State, l: A.Leg, info: R.Info)
    requires Refines(s, a) && A.HighName(l) in s.reg.dir
    ensures Sends(s, CallingChannel(s.(reg := R.Enter(s.reg, A.HighName(l), info)), s.reg.dir[A.HighName(l)]),
                  [GetVar(A.HighName(l)), Dial(A.HighId(|a.callers|))])
  {
    var u := s.(reg := R.Enter(s.reg, A.HighName(l), info));
    EnteredRefines(s, a, A.HighName(l), info);
    CallingSends(u, a, l);
  }

  lemma InternalSends(s: State, a: A.State, l: A.Leg, info: R.Info)
    requires Refines(s, a) && L.Logged(a) && A.Nameable(l) && A.HighName(l) in s.reg.dir
    ensures Sends(s, CalledChannel(s.(reg := R.Enter(s.reg, A.HighName(l), info)), s.reg.dir[A.HighName(l)]),
                  if O.LiveCalled(a, l) then [Answer(A.HighName(a.callers[l.n]))] else [])
  {
    var name, reg := A.HighName(l), R.Enter(s.reg, A.HighName(l), info);
    EnteredIds(s, a, name, info);
    hide Refines, L.Logged, R.Enter, A.Known, A.Nameable;
    ListedIsKnown(s, a, l);
    FindsCalled(s, a, reg, l);
    SameIds(s, reg);
  }

  lemma EnteredIds(s: State, a: A.State, id: string, info: R.Info)
    requires Refines(s, a) && id in s.reg.dir
    ensures var reg := R.Enter(s.reg, id, info);
      && Id(s.(reg := reg), s.reg.dir[id]) == id
      && |reg.heap| == |s.reg.heap| && forall i :: 0 <= i < |reg.heap| ==> reg.heap[i].id == s.reg.heap[i].id
  {
  }

  lemma CallingSends(s: State, a: A.State, l: A.Leg)
    requires Refines(s, a) && A.HighName(l) in s.reg.dir
    ensures var n := |a.callers|;
      Sends(s, CallingChannel(s, s.reg.dir[A.HighName(l)]), [GetVar(A.HighName(l)), Dial(A.HighId(n))])
  {
    CreatedLeg(s, a);
  }

  lemma ChangeSends(s: State, moh: bool, a: A.State, l: A.Leg, state: string)
    requires Refines(s, a) && L.Logged(a) && A.Allowed(a, A.Change(l, state))
    ensures Sends(s, Step(s, moh, A.Change(l, state)), O.HighText(moh, O.OrderFor(a, A.Change(l, state))))
  {
    var id := A.HighName(l);
    if id in s.reg.dir {
      ReportedSends(s, moh, a, l, state);
    } else if O.LiveCalled(a, l) || O.LiveCaller(a, l) {
      LiveIsKnown(a, l);
    }
  }

  lemma ListedIsKnown(s: State, a: A.State, l: A.Leg)
    requires Refines(s, a) && A.Nameable(l) && A.HighName(l) in s.reg.dir
    ensures A.Known(a, l)
  {
  }

  // The object of a channel whose state was reported.
  lemma ReportedState(s: State, a: A.State, id: string, state: string)
    requires Refines(s, a) && id in s.reg.dir
    ensures R.Report(s.reg, id, state).dir == s.reg.dir
    ensures var u := s.(reg := R.Report(s.reg, id, state));
      Id(u, s.reg.dir[id]) == id && R.Means(state, ChannelAt(u, s.reg.dir[id]).state)
    ensures var reg := R.Report(s.reg, id, state);
      |reg.heap| == |s.reg.heap| && forall i :: 0 <= i < |reg.heap| ==> reg.heap[i].id == s.reg.heap[i].id
  {
    R.ParseMeans(state, R.ParseState(state));
  }

  lemma ReportedSends(s: State, moh: bool, a: A.State, l: A.Leg, state: string)
    requires Refines(s, a) && L.Logged(a) && A.Nameable(l) && A.HighName(l) in s.reg.dir
    ensures var u := s.(reg := R.Report(s.reg, A.HighName(l), state));
      Sends(s, StateChanged(u, moh, u.reg.dir[A.HighName(l)]), O.HighText(moh, O.OrderFor(a, A.Change(l, state))))
  {
    hide Refines, L.Logged, R.Report, R.ParseState, R.StateName, R.Means, A.Known, A.Nameable;
    ListedIsKnown(s, a, l);
    var name, reg := A.HighName(l), R.Report(s.reg, A.HighName(l), state);
    var u := s.(reg := reg);
    ReportedState(s, a, name, state);
    FindsCalled(s, a, reg, l);
    FindsCalling(s, a, reg, l);
    SameIds(s, reg);
    MeansOne(state, ChannelAt(u, s.reg.dir[name]).state);
    var caller := if O.LiveCalled(a, l) then A.HighName(a.callers[l.n]) else "";
    StateChangedSends(u, moh, s.reg.dir[name], O.LiveCalled(a, l), caller, O.LiveCaller(a, l));
  }

  // The handler of a state change, given what FindCallByChannel finds on either side.
  lemma StateChangedSends(u: State, moh: bool, ch: nat, called: bool, caller: string, calling: bool)
    requires var k := FindCall(u, u.calls, Id(u, ch), CalledMode);
      (k < |u.calls| <==> called) && (called ==> Id(u, u.calls[k].calling) == caller)
    requires FindCall(u, u.calls, Id(u, ch), CallingMode) < |u.calls| <==> calling
    ensures var st := ChannelAt(u, ch).state;
      Sends(u, StateChanged(u, moh, ch),
            if st == R.Ringing && called then [if moh then StartMoh(caller) else Ring(caller)]
            else if st == R.Up && calling then [NewBridge] else [])
  {
  }

  lemma MeansOne(state: string, st: R.ChState)
    requires R.Means(state, st)
    ensures st == R.Ringing <==> state == "Ringing"
    ensures st == R.Up <==> state == "Up"
  {
    R.ParseMeans(state, st);
    R.ParseMeans(state, R.Ringing);
    R.ParseMeans(state, R.Up);
  }

  lemma SameIds(s: State, reg: R.State)
    requires |reg.heap| == |s.reg.heap| && forall i :: 0 <= i < |reg.heap| ==> reg.heap[i].id == s.reg.heap[i].id
    ensures forall i: nat :: Id(s.(reg := reg), i) == Id(s, i)
  {
  }

  lemma DestroySends(s: State, moh: bool, a: A.State, l: A.Leg, cause: int)
    requires Refines(s, a) && L.Logged(a) && A.Allowed(a, A.Destroy(l, cause))
    ensures Sends(s, Step(s, moh, A.Destroy(l, cause)), O.HighText(moh, O.OrderFor(a, A.Destroy(l, cause))))
  {
    O.FoundIsLive(a, l);
    if A.HighName(l) in s.reg.dir {
      DeathSends(s, moh, a, l, cause);
    }
  }

  lemma DeathSends(s: State, moh: bool, a: A.State, l: A.Leg, cause: int)
    requires Refines(s, a) && L.Logged(a) && A.Nameable(l) && A.HighName(l) in s.reg.dir
    ensures Sends(s, ChannelDestroyed(s.(reg := R.Die(s.reg, A.HighName(l), cause)), s.reg.dir[A.HighName(l)]),
                  O.HighText(moh, O.OrderFor(a, A.Destroy(l, cause))))
  {
    hide Refines, L.Logged, R.Die, ChannelDestroyed, A.CallOk, A.Known, A.Nameable;
    ListedIsKnown(s, a, l);
    O.FoundIsLive(a, l);
    var k := A.Find(a.calls, l);
    if k == |a.calls| {
      NotFoundSends(s, a, l, cause);
    } else if a.calls[k].legs == A.Both {
      HighHangsUp(s, a, l, cause, k);
    } else {
      HighEndsCall(s, a, l, cause, k);
    }
  }

  lemma NotFoundSends(s: State, a: A.State, l: A.Leg, cause: int)
    requires Refines(s, a) && A.Nameable(l) && A.HighName(l) in s.reg.dir && A.Find(a.calls, l) == |a.calls|
    ensures var u := s.(reg := R.Die(s.reg, A.HighName(l), cause));
      ChannelDestroyed(u, s.reg.dir[A.HighName(l)]) == u
  {
    FindsSameCall(s, a, R.Die(s.reg, A.HighName(l), cause), l);
  }

  lemma BridgedSends(s: State, moh: bool, a: A.State, k: nat, bridge: string)
    requires Refines(s, a) && A.Allowed(a, A.Bridged(k, bridge))
    ensures Sends(s, Step(s, moh, A.Bridged(k, bridge)), O.HighText(moh, O.OrderFor(a, A.Bridged(k, bridge))))
  {
    hide Refines;
    CallNames(s, a, k);
  }

  lemma CallNames(s: State, a: A.State, k: nat)
    requires Refines(s, a) && k < |a.calls|
    ensures k < |s.calls|
    ensures Id(s, s.calls[k].calling) == A.HighName(a.calls[k].calling)
    ensures Id(s, s.calls[k].called) == A.HighName(A.Inside(a.calls[k].n))
  {
    assert Matches(s.reg, s.calls[k], a.calls[k]);
  }

  lemma StepSends(s: State, moh: bool, a: A.State, e: A.Event)
    requires Refines(s, a) && L.Logged(a) && A.Allowed(a, e)
    ensures Sends(s, Step(s, moh, e), O.HighText(moh, O.OrderFor(a, e)))
  {
    match e
    case Announce(l, state) =>
    case Enter(l, external, info) => EnterSends(s, moh, a, l, external, info);
    case Change(l, state) => ChangeSends(s, moh, a, l, state);
    case Destroy(l, cause) => DestroySends(s, moh, a, l, cause);
    case Bridged(k, bridge) => BridgedSends(s, moh, a, k, bridge);
  }

  // In every run the example sends exactly the commands the call machine calls for.
  lemma {:induction false} RunSends(moh: bool, es: seq<A.Event>)
    requires A.IsRun(A.Init, es)
    ensures Run(Init, moh, es).sent == O.HighSent(moh, es)
    decreases |es|
  {
    if es != [] {
      var front := es[..|es| - 1];
      RunSends(moh, front);
      RunRefines(moh, front);
      L.RunLogged(front);
      StepSends(Run(Init, moh, front), moh, A.Run(A.Init, front), es[|es| - 1]);
    }
  }
}
