// The high-level dial example on values: CallContainer registered with AriModel.
module HighCalls {
  import opened Options
  import opened Commands
  import R = Registry
  import A = CallMachine

  // A Call: the heap indices of its two channels, and the bridge.
  datatype Call = Call(calling: nat, called: nat, bridge: Option<string>)

  datatype State = State(reg: R.State, calls: seq<Call>, sent: seq<Command>)

  const Init := State(R.Init, [], [])

  function ChannelAt(s: State, i: nat): R.Rec {
    if i < |s.reg.heap| then s.reg.heap[i] else R.NewRec("", "")
  }

  function Id(s: State, i: nat): string { ChannelAt(s, i).id }

  predicate HasChannel(s: State, c: Call, id: string, mode: Mode) {
    (Id(s, c.calling) == id && mode != CalledMode) || (Id(s, c.called) == id && mode != CallingMode)
  }

  // The first call with this channel, or the number of calls.
  function FindCall(s: State, calls: seq<Call>, id: string, mode: Mode): (k: nat)
    ensures k <= |calls|
    ensures k < |calls| ==> HasChannel(s, calls[k], id, mode)
    ensures forall j :: 0 <= j < k ==> !HasChannel(s, calls[j], id, mode)
  {
    if calls == [] || HasChannel(s, calls[0], id, mode) then 0 else 1 + FindCall(s, calls[1..], id, mode)
  }

  function Send(s: State, c: Command): State {
    s.(sent := s.sent + [c])
  }

  // ---- handlers; `ch` is the channel object AriModel hands over ----

  function CallingChannel(s: State, ch: nat): State {
    var t := Send(s, GetVar(Id(s, ch)));
    var id := R.GeneratedId(t.reg.nextId);
    var reg := R.CreateChannel(t.reg);
    if id !in reg.dir then t
    else Send(t.(reg := reg, calls := t.calls + [Call(ch, reg.dir[id], None)]), Dial(id))
  }

  function CalledChannel(s: State, ch: nat): State {
    var k := FindCall(s, s.calls, Id(s, ch), CalledMode);
    if k < |s.calls| then Send(s, Answer(Id(s, s.calls[k].calling))) else s
  }

  function StateChanged(s: State, moh: bool, ch: nat): State {
    var state := ChannelAt(s, ch).state;
    if state == R.Ringing then
      var k := FindCall(s, s.calls, Id(s, ch), CalledMode);
      if k == |s.calls| then s
      else Send(s, if moh then StartMoh(Id(s, s.calls[k].calling)) else Ring(Id(s, s.calls[k].calling)))
    else if state == R.Up && FindCall(s, s.calls, Id(s, ch), CallingMode) < |s.calls| then Send(s, NewBridge)
    else s
  }

  // ChHangup, and Remove if it says so.
  function ChannelDestroyed(s: State, ch: nat): State {
    var k := FindCall(s, s.calls, Id(s, ch), BothMode);
    if k == |s.calls| then s
    else
      var c := s.calls[k];
      var other := if Id(s, ch) == Id(s, c.called) then c.calling else c.called;
      if ChannelAt(s, other).dead then s.(calls := A.Remove(s.calls, k)) else Send(s, Hangup(Id(s, other)))
  }

  function Bridged(s: State, k: nat, bridge: string): State {
    if k >= |s.calls| then s
    else
      var c := s.calls[k];
      var t := s.(calls := s.calls[k := c.(bridge := Some(bridge))]);
      Send(t, AddToBridge(bridge, Id(s, c.calling), Id(s, c.called)))
  }

  // ---- events: AriModel first, then the handler if AriModel calls it ----

  function Step(s: State, moh: bool, e: A.Event): State {
    match e
    case Announce(l, state) => s.(reg := R.Announce(s.reg, A.HighName(l), state))
    case Enter(l, external, info) =>
      var id := A.HighName(l);
      if id !in s.reg.dir then s
      else
        var t := s.(reg := R.Enter(s.reg, id, info));
        if external then CallingChannel(t, s.reg.dir[id]) else CalledChannel(t, s.reg.dir[id])
    case Change(l, state) =>
      var id := A.HighName(l);
      if id !in s.reg.dir then s
      else StateChanged(s.(reg := R.Report(s.reg, id, state)), moh, s.reg.dir[id])
    case Destroy(l, cause) =>
      var id := A.HighName(l);
      if id !in s.reg.dir then s
      else
        var t := ChannelDestroyed(s.(reg := R.Die(s.reg, id, cause)), s.reg.dir[id]);
        t.(reg := R.Erase(t.reg, id))
    case Bridged(k, bridge) => Bridged(s, k, bridge)
  }

  // The handlers of the example keep the registry as AriModel needs it, whatever the server does.
  lemma StepKeepsRegistry(s: State, moh: bool, e: A.Event)
    requires R.Inv(s.reg)
    ensures R.Inv(Step(s, moh, e).reg)
  {
    hide R.Inv, R.Enter, R.Report, R.Die, R.Erase, R.CreateChannel;
    match e {
      case Announce(l, state) => R.AnnounceInv(s.reg, A.HighName(l), state);
      case Enter(l, external, info) => if A.HighName(l) in s.reg.dir { EnterKeepsRegistry(s, A.HighName(l), info); }
      case Change(l, state) => if A.HighName(l) in s.reg.dir { R.ReportInv(s.reg, A.HighName(l), state); }
      case Destroy(l, cause) => if A.HighName(l) in s.reg.dir { DestroyKeepsRegistry(s, A.HighName(l), cause); }
      case Bridged(k, bridge) =>
    }
  }

  lemma EnterKeepsRegistry(s: State, id: string, info: R.Info)
    requires R.Inv(s.reg) && id in s.reg.dir
    ensures R.Inv(R.Enter(s.reg, id, info)) && R.Inv(R.CreateChannel(R.Enter(s.reg, id, info)))
  {
    R.EnterInv(s.reg, id, info);
    R.CreateInv(R.Enter(s.reg, id, info), None);
  }

  lemma DestroyKeepsRegistry(s: State, id: string, cause: int)
    requires R.Inv(s.reg) && id in s.reg.dir
    ensures R.Inv(R.Erase(R.Die(s.reg, id, cause), id))
  {
    R.DieInv(s.reg, id, cause);
    R.EraseInv(R.Die(s.reg, id, cause), id);
  }

  function Run(s: State, moh: bool, es: seq<A.Event>): State {
    if es == [] then s else Step(Run(s, moh, es[..|es| - 1]), moh, es[|es| - 1])
  }

  // ---- refinement of the call machine ----

  // Leg l of the abstract call is the channel object at heap index i; live means not dead.
  ghost predicate Shows(reg: R.State, i: nat, l: A.Leg, live: bool) {
    i < |reg.heap| && reg.heap[i].id == A.HighName(l) && reg.heap[i].dead != live
  }

  ghost predicate Matches(reg: R.State, c: Call, a: A.Call) {
    && Shows(reg, c.calling, a.calling, A.CallingLive(a))
    && Shows(reg, c.called, A.Inside(a.n), A.CalledLive(a))
    && a.bridge == (if c.bridge.Some? then c.bridge.value else "")
  }

  ghost predicate AllMatch(reg: R.State, calls: seq<Call>, acalls: seq<A.Call>) {
    |calls| == |acalls| && forall i :: 0 <= i < |calls| ==> Matches(reg, calls[i], acalls[i])
  }

  function Names(hangups: seq<(nat, A.Leg)>): seq<string> {
    seq(|hangups|, i requires 0 <= i < |hangups| => A.HighName(hangups[i].1))
  }

  ghost predicate KnowsLegs(reg: R.State, a: A.State) {
    && reg.nextId == |a.callers|
    && forall l :: A.Nameable(l) ==> (A.HighName(l) in reg.dir <==> A.Known(a, l))
  }

  ghost predicate Refines(s: State, a: A.State) {
    && A.Inv(a) && R.Inv(s.reg)
    && KnowsLegs(s.reg, a)
    && AllMatch(s.reg, s.calls, a.calls)
    && Hangups(s.sent) == Names(a.hangups)
  }

  lemma NamesAppend(hangups: seq<(nat, A.Leg)>, x: (nat, A.Leg))
    ensures Names(hangups + [x]) == Names(hangups) + [A.HighName(x.1)]
  {
  }

  // The objects of the calls keep id and deadness while AriModel handles an event that kills nothing.
  ghost predicate KeepsObjects(reg: R.State, t: R.State) {
    && |reg.heap| <= |t.heap|
    && forall i :: 0 <= i < |reg.heap| ==> t.heap[i].id == reg.heap[i].id && t.heap[i].dead == reg.heap[i].dead
  }

  lemma KeepsMatch(reg: R.State, t: R.State, calls: seq<Call>, acalls: seq<A.Call>)
    requires KeepsObjects(reg, t) && AllMatch(reg, calls, acalls)
    ensures AllMatch(t, calls, acalls)
  {
  }

  lemma OneName(l: A.Leg, m: A.Leg)
    requires A.Nameable(l) && A.Nameable(m) && A.HighName(l) == A.HighName(m)
    ensures l == m
  {
    if l != m { A.NamesDiffer(l, m); }
  }

  lemma AnnounceRefines(s: State, moh: bool, a: A.State, l: A.Leg, state: string)
    requires Refines(s, a) && A.Allowed(a, A.Announce(l, state))
    ensures Refines(Step(s, moh, A.Announce(l, state)), A.Step(a, A.Announce(l, state)))
  {
    var reg := R.Announce(s.reg, A.HighName(l), state);
    A.StepInv(a, A.Announce(l, state));
    R.AnnounceInv(s.reg, A.HighName(l), state);
    AnnouncedKnown(s, a, l, state);
    AnnounceKeeps(s.reg, A.HighName(l), state);
    hide R.Announce, R.Inv, A.Inv, KnowsLegs, Matches;
    KeepsMatch(s.reg, reg, s.calls, a.calls);
  }

  lemma AnnounceKeeps(reg: R.State, id: string, state: string)
    requires R.Inv(reg)
    ensures KeepsObjects(reg, R.Announce(reg, id, state))
  {
  }

  lemma AnnouncedKnown(s: State, a: A.State, l: A.Leg, state: string)
    requires Refines(s, a) && A.Allowed(a, A.Announce(l, state))
    ensures KnowsLegs(R.Announce(s.reg, A.HighName(l), state), A.Step(a, A.Announce(l, state)))
  {
    var reg, b := R.Announce(s.reg, A.HighName(l), state), A.Step(a, A.Announce(l, state));
    assert forall id :: id in reg.dir <==> id in s.reg.dir || id == A.HighName(l);
    hide R.Announce, R.Inv, AllMatch;
    forall m | A.Nameable(m)
      ensures A.HighName(m) in reg.dir <==> A.Known(b, m)
    {
      if A.HighName(m) == A.HighName(l) { OneName(m, l); }
    }
  }

  lemma EnterRefines(s: State, moh: bool, a: A.State, l: A.Leg, external: bool, info: R.Info)
    requires Refines(s, a) && A.Allowed(a, A.Enter(l, external, info))
    ensures Refines(Step(s, moh, A.Enter(l, external, info)), A.Step(a, A.Enter(l, external, info)))
  {
    var id := A.HighName(l);
    if id in s.reg.dir {
      var u := s.(reg := R.Enter(s.reg, id, info));
      EnteredRefines(s, a, id, info);
      if external { CallingRefines(u, a, l, s.reg.dir[id], info); } else { CalledRefines(u, a, s.reg.dir[id]); }
    }
  }

  lemma EnteredRefines(s: State, a: A.State, id: string, info: R.Info)
    requires Refines(s, a) && id in s.reg.dir
    ensures Refines(s.(reg := R.Enter(s.reg, id, info)), a)
  {
    R.EnterInv(s.reg, id, info);
    KeepsMatch(s.reg, R.Enter(s.reg, id, info), s.calls, a.calls);
  }

  // Commands other than Hangup do not matter.
  lemma SendRefines(s: State, a: A.State, c: Command)
    requires Refines(s, a) && !c.Hangup?
    ensures Refines(Send(s, c), a)
  {
    SendOne(s.sent, c);
  }

  lemma CalledRefines(s: State, a: A.State, ch: nat)
    requires Refines(s, a)
    ensures Refines(CalledChannel(s, ch), a)
  {
    var k := FindCall(s, s.calls, Id(s, ch), CalledMode);
    if k < |s.calls| { SendRefines(s, a, Answer(Id(s, s.calls[k].calling))); }
  }

  // The id of the next call is not listed yet, so the called channel is a new object.
  lemma CreatedLeg(s: State, a: A.State)
    requires Refines(s, a)
    ensures var id := A.HighName(A.Inside(|a.callers|));
      var reg := R.CreateChannel(s.reg);
      && id == R.GeneratedId(s.reg.nextId) && id !in s.reg.dir
      && reg.heap == s.reg.heap + [R.NewRec(id, "")] && reg.dir == s.reg.dir[id := |s.reg.heap|]
  {
    assert A.Nameable(A.Inside(|a.callers|)) && !A.Known(a, A.Inside(|a.callers|));
  }

  lemma CreatedKnown(s: State, a: A.State, l: A.Leg, info: R.Info)
    requires Refines(s, a) && A.Allowed(a, A.Enter(l, true, info)) && A.Known(a, l)
    ensures KnowsLegs(R.CreateChannel(s.reg), A.Step(a, A.Enter(l, true, info)))
  {
    CreatedLeg(s, a);
    hide R.CreateChannel, R.Inv, A.Inv, AllMatch;
    var reg, b := R.CreateChannel(s.reg), A.Step(a, A.Enter(l, true, info));
    var leg := A.Inside(|a.callers|);
    forall m | A.Nameable(m)
      ensures A.HighName(m) in reg.dir <==> A.Known(b, m)
    {
      if A.HighName(m) == A.HighName(leg) { OneName(m, leg); }
    }
  }

  lemma CallingRefines(s: State, a: A.State, l: A.Leg, ch: nat, info: R.Info)
    requires Refines(s, a) && A.Allowed(a, A.Enter(l, true, info)) && A.Known(a, l)
    requires A.HighName(l) in s.reg.dir && ch == s.reg.dir[A.HighName(l)]
    ensures Refines(CallingChannel(s, ch), A.Step(a, A.Enter(l, true, info)))
  {
    CreatedRefines(s, a, l, ch, info);
    var id := R.GeneratedId(s.reg.nextId);
    var t := State(R.CreateChannel(s.reg), s.calls + [Call(ch, |s.reg.heap|, None)], s.sent);
    CreatedLeg(s, a);
    SendRefines(t, A.Step(a, A.Enter(l, true, info)), GetVar(Id(s, ch)));
    SendRefines(Send(t, GetVar(Id(s, ch))), A.Step(a, A.Enter(l, true, info)), Dial(id));
    assert CallingChannel(s, ch) == Send(Send(t, GetVar(Id(s, ch))), Dial(id));
  }

  lemma CreatedRefines(s: State, a: A.State, l: A.Leg, ch: nat, info: R.Info)
    requires Refines(s, a) && A.Allowed(a, A.Enter(l, true, info)) && A.Known(a, l)
    requires A.HighName(l) in s.reg.dir && ch == s.reg.dir[A.HighName(l)]
    ensures Refines(State(R.CreateChannel(s.reg), s.calls + [Call(ch, |s.reg.heap|, None)], s.sent),
                    A.Step(a, A.Enter(l, true, info)))
  {
    A.StepInv(a, A.Enter(l, true, info));
    CreatedLeg(s, a);
    CreatedKnown(s, a, l, info);
    R.CreateInv(s.reg, None);
    var reg := R.CreateChannel(s.reg);
    KeepsMatch(s.reg, reg, s.calls, a.calls);
    assert Matches(reg, Call(ch, |s.reg.heap|, None), A.Call(|a.callers|, l, A.Both, ""));
    AppendMatch(reg, s.calls, a.calls, Call(ch, |s.reg.heap|, None), A.Call(|a.callers|, l, A.Both, ""));
  }

  lemma AppendMatch(reg: R.State, calls: seq<Call>, acalls: seq<A.Call>, c: Call, a: A.Call)
    requires AllMatch(reg, calls, acalls) && Matches(reg, c, a)
    ensures AllMatch(reg, calls + [c], acalls + [a])
  {
  }

  lemma ChangeRefines(s: State, moh: bool, a: A.State, l: A.Leg, state: string)
    requires Refines(s, a) && A.Allowed(a, A.Change(l, state))
    ensures Refines(Step(s, moh, A.Change(l, state)), a)
  {
    var id := A.HighName(l);
    if id in s.reg.dir {
      var u := s.(reg := R.Report(s.reg, id, state));
      ReportedRefines(s, a, id, state);
      StateChangedRefines(u, moh, a, s.reg.dir[id]);
    }
  }

  lemma ReportedRefines(s: State, a: A.State, id: string, state: string)
    requires Refines(s, a) && id in s.reg.dir
    ensures Refines(s.(reg := R.Report(s.reg, id, state)), a)
  {
    R.ReportInv(s.reg, id, state);
    KeepsMatch(s.reg, R.Report(s.reg, id, state), s.calls, a.calls);
  }

  lemma StateChangedRefines(s: State, moh: bool, a: A.State, ch: nat)
    requires Refines(s, a)
    ensures Refines(StateChanged(s, moh, ch), a)
  {
    var t := StateChanged(s, moh, ch);
    if t != s {
      var c := t.sent[|s.sent|];
      assert t == Send(s, c) && !c.Hangup?;
      SendRefines(s, a, c);
    }
  }

  lemma BridgedRefines(s: State, moh: bool, a: A.State, k: nat, bridge: string)
    requires Refines(s, a) && A.Allowed(a, A.Bridged(k, bridge))
    ensures Refines(Step(s, moh, A.Bridged(k, bridge)), A.Step(a, A.Bridged(k, bridge)))
  {
    var c := s.calls[k];
    var t := s.(calls := s.calls[k := c.(bridge := Some(bridge))]);
    StoredRefines(s, a, k, bridge);
    SendRefines(t, A.Step(a, A.Bridged(k, bridge)), AddToBridge(bridge, Id(s, c.calling), Id(s, c.called)));
  }

  lemma StoredRefines(s: State, a: A.State, k: nat, bridge: string)
    requires Refines(s, a) && k < |s.calls|
    ensures Refines(s.(calls := s.calls[k := s.calls[k].(bridge := Some(bridge))]), A.Step(a, A.Bridged(k, bridge)))
  {
    A.StepInv(a, A.Bridged(k, bridge));
    assert Matches(s.reg, s.calls[k], a.calls[k]);
  }

  // ---- the death of a leg ----

  lemma HasIffHolds(s: State, a: A.State, reg: R.State, l: A.Leg, i: nat)
    requires Refines(s, a) && A.Nameable(l) && A.Known(a, l) && i < |s.calls|
    requires |reg.heap| == |s.reg.heap| && forall i :: 0 <= i < |reg.heap| ==> reg.heap[i].id == s.reg.heap[i].id
    ensures HasChannel(s.(reg := reg), s.calls[i], A.HighName(l), BothMode) <==> A.Holds(a.calls[i], l)
  {
    var c := a.calls[i];
    assert Matches(s.reg, s.calls[i], c) && A.CallOk(a, c);
    assert A.Nameable(c.calling) && A.Nameable(A.Inside(c.n));
    if A.HighName(c.calling) == A.HighName(l) { OneName(c.calling, l); }
    if A.HighName(A.Inside(c.n)) == A.HighName(l) { OneName(A.Inside(c.n), l); }
  }

  // A leg just destroyed is found in the call the machine finds it in: ids are unambiguous, and no call still
  // shows an older death of the same leg.
  lemma FindsSameCall(s: State, a: A.State, reg: R.State, l: A.Leg)
    requires Refines(s, a) && A.Nameable(l) && A.Known(a, l)
    requires |reg.heap| == |s.reg.heap| && forall i :: 0 <= i < |reg.heap| ==> reg.heap[i].id == s.reg.heap[i].id
    ensures FindCall(s.(reg := reg), s.calls, A.HighName(l), BothMode) == A.Find(a.calls, l)
  {
    var k, m := FindCall(s.(reg := reg), s.calls, A.HighName(l), BothMode), A.Find(a.calls, l);
    if k < |s.calls| { HasIffHolds(s, a, reg, l, k); }
    if m < |s.calls| { HasIffHolds(s, a, reg, l, m); }
  }

  // What the death of leg l does to the legs the calls show.
  lemma DeathMatches(s: State, a: A.State, l: A.Leg, cause: int, i: nat)
    requires Refines(s, a) && A.Nameable(l) && A.Known(a, l) && i < |s.calls|
    ensures var reg := R.Die(s.reg, A.HighName(l), cause);
      var c := a.calls[i];
      && Shows(reg, s.calls[i].calling, c.calling, A.CallingLive(c) && c.calling != l)
      && Shows(reg, s.calls[i].called, A.Inside(c.n), A.CalledLive(c) && A.Inside(c.n) != l)
  {
    var c := a.calls[i];
    assert Matches(s.reg, s.calls[i], c) && A.CallOk(a, c);
    assert A.HighName(l) in s.reg.dir;
    if A.HighName(c.calling) == A.HighName(l) { OneName(c.calling, l); }
    if A.HighName(A.Inside(c.n)) == A.HighName(l) { OneName(A.Inside(c.n), l); }
  }

  lemma DestroyKnown(s: State, a: A.State, l: A.Leg, cause: int)
    requires Refines(s, a) && A.Nameable(l) && A.Known(a, l)
    ensures KnowsLegs(R.Erase(R.Die(s.reg, A.HighName(l), cause), A.HighName(l)), A.Step(a, A.Destroy(l, cause)))
  {
    var b := A.Step(a, A.Destroy(l, cause));
    var reg := R.Erase(R.Die(s.reg, A.HighName(l), cause), A.HighName(l));
    A.DestroyedIsUnknown(a, l, cause, l);
    forall m | A.Nameable(m)
      ensures A.HighName(m) in reg.dir <==> A.Known(b, m)
    {
      A.DestroyedIsUnknown(a, l, cause, m);
      if A.HighName(m) == A.HighName(l) { OneName(m, l); }
    }
  }

  // ChHangup looks at the leg that did not die.
  lemma OtherLeg(s: State, a: A.State, l: A.Leg, cause: int, k: nat)
    requires Refines(s, a) && A.Nameable(l) && A.Known(a, l) && k < |a.calls| && A.Holds(a.calls[k], l)
    ensures var t := s.(reg := R.Die(s.reg, A.HighName(l), cause));
      var c := a.calls[k];
      var other := if A.HighName(l) == Id(t, s.calls[k].called) then s.calls[k].calling else s.calls[k].called;
      && Id(t, s.reg.dir[A.HighName(l)]) == A.HighName(l)
      && (ChannelAt(t, other).dead <==> c.legs != A.Both)
      && Id(t, other) == A.HighName(if l == c.calling then A.Inside(c.n) else c.calling)
  {
  }

  // All other calls still match.
  lemma OthersMatch(s: State, a: A.State, l: A.Leg, cause: int, k: nat, i: nat)
    requires Refines(s, a) && A.Nameable(l) && A.Known(a, l) && k == A.Find(a.calls, l)
    requires i < |s.calls| && i != k
    ensures Matches(R.Die(s.reg, A.HighName(l), cause), s.calls[i], a.calls[i])
  {
    DeathMatches(s, a, l, cause, i);
    assert Matches(s.reg, s.calls[i], a.calls[i]) && A.CallOk(a, a.calls[i]);
    if k < |a.calls| { A.OneCall(a, l, k); }
  }

  // ChannelDestroyed for the dead channel of leg l, and the calls and Hangup commands of the machine.
  ghost predicate DeathRefines(s: State, a: A.State, l: A.Leg, cause: int)
    requires A.HighName(l) in s.reg.dir
  {
    var reg := R.Die(s.reg, A.HighName(l), cause);
    var t := ChannelDestroyed(s.(reg := reg), s.reg.dir[A.HighName(l)]);
    var b := A.Step(a, A.Destroy(l, cause));
    t.reg == reg && AllMatch(reg, t.calls, b.calls) && Hangups(t.sent) == Names(b.hangups)
  }

  lemma HighEndsCall(s: State, a: A.State, l: A.Leg, cause: int, k: nat)
    requires Refines(s, a) && A.Nameable(l) && A.Known(a, l) && k == A.Find(a.calls, l) < |a.calls|
    requires a.calls[k].legs != A.Both
    ensures var u := s.(reg := R.Die(s.reg, A.HighName(l), cause));
      && A.HighName(l) in s.reg.dir && k < |s.calls|
      && ChannelDestroyed(u, s.reg.dir[A.HighName(l)]) == u.(calls := A.Remove(s.calls, k))
  {
    FindsSameCall(s, a, R.Die(s.reg, A.HighName(l), cause), l);
    OtherLeg(s, a, l, cause, k);
  }

  lemma DeathEndsCall(s: State, a: A.State, l: A.Leg, cause: int, k: nat)
    requires Refines(s, a) && A.Nameable(l) && A.Known(a, l) && k == A.Find(a.calls, l) < |a.calls|
    requires a.calls[k].legs != A.Both && A.HighName(l) in s.reg.dir
    requires forall i :: 0 <= i < |s.calls| && i != k ==>
      Matches(R.Die(s.reg, A.HighName(l), cause), s.calls[i], a.calls[i])
    ensures DeathRefines(s, a, l, cause)
  {
    var reg := R.Die(s.reg, A.HighName(l), cause);
    HighEndsCall(s, a, l, cause, k);
    RemoveMatch(reg, s.calls, a.calls, k);
    A.DestroyEnds(a, l, cause, k);
  }

  lemma HighHangsUp(s: State, a: A.State, l: A.Leg, cause: int, k: nat)
    requires Refines(s, a) && A.Nameable(l) && A.Known(a, l) && k == A.Find(a.calls, l) < |a.calls|
    requires a.calls[k].legs == A.Both
    ensures var u := s.(reg := R.Die(s.reg, A.HighName(l), cause));
      var c := a.calls[k];
      && A.HighName(l) in s.reg.dir
      && ChannelDestroyed(u, s.reg.dir[A.HighName(l)])
         == Send(u, Hangup(A.HighName(if l == c.calling then A.Inside(c.n) else c.calling)))
  {
    FindsSameCall(s, a, R.Die(s.reg, A.HighName(l), cause), l);
    OtherLeg(s, a, l, cause, k);
  }

  lemma DeathHangsUp(s: State, a: A.State, l: A.Leg, cause: int, k: nat)
    requires Refines(s, a) && A.Nameable(l) && A.Known(a, l) && k == A.Find(a.calls, l) < |a.calls|
    requires a.calls[k].legs == A.Both && A.HighName(l) in s.reg.dir
    requires forall i :: 0 <= i < |s.calls| && i != k ==>
      Matches(R.Die(s.reg, A.HighName(l), cause), s.calls[i], a.calls[i])
    ensures DeathRefines(s, a, l, cause)
  {
    var c := a.calls[k];
    var other := if l == c.calling then A.Inside(c.n) else c.calling;
    var reg := R.Die(s.reg, A.HighName(l), cause);
    var d := c.(legs := if l == c.calling then A.CalledOnly else A.CallingOnly);
    HighHangsUp(s, a, l, cause, k);
    LoneLegMatches(s, a, l, cause, k);
    ReplaceMatch(reg, s.calls, a.calls, k, d);
    A.DestroyHangsUp(a, l, cause, k);
    HangupMatches(s.(reg := reg), a, k, d, (c.n, other), A.Step(a, A.Destroy(l, cause)));
  }

  lemma HangupMatches(u: State, a: A.State, k: nat, d: A.Call, x: (nat, A.Leg), b: A.State)
    requires k < |a.calls| && AllMatch(u.reg, u.calls, a.calls[k := d]) && Hangups(u.sent) == Names(a.hangups)
    requires b.calls == a.calls[k := d] && b.hangups == a.hangups + [x]
    ensures var t := Send(u, Hangup(A.HighName(x.1)));
      t.reg == u.reg && AllMatch(u.reg, t.calls, b.calls) && Hangups(t.sent) == Names(b.hangups)
  {
    SendOne(u.sent, Hangup(A.HighName(x.1)));
    NamesAppend(a.hangups, x);
  }

  lemma KnownIsListed(s: State, a: A.State, l: A.Leg)
    requires Refines(s, a) && A.Nameable(l) && A.Known(a, l)
    ensures A.HighName(l) in s.reg.dir && |s.calls| == |a.calls|
  {
  }

  lemma DestroyCalls(s: State, a: A.State, l: A.Leg, cause: int)
    requires Refines(s, a) && A.Nameable(l) && A.Known(a, l)
    ensures A.HighName(l) in s.reg.dir && DeathRefines(s, a, l, cause)
  {
    hide Refines, A.Nameable, A.Known, DeathRefines;
    KnownIsListed(s, a, l);
    var k := A.Find(a.calls, l);
    forall i | 0 <= i < |s.calls| && i != k
      ensures Matches(R.Die(s.reg, A.HighName(l), cause), s.calls[i], a.calls[i])
    {
      OthersMatch(s, a, l, cause, k, i);
    }
    if k == |a.calls| {
      DeathOfNone(s, a, l, cause);
    } else if a.calls[k].legs == A.Both {
      DeathHangsUp(s, a, l, cause, k);
    } else {
      DeathEndsCall(s, a, l, cause, k);
    }
  }

  lemma DeathOfNone(s: State, a: A.State, l: A.Leg, cause: int)
    requires Refines(s, a) && A.Nameable(l) && A.Known(a, l) && A.Find(a.calls, l) == |a.calls|
    requires A.HighName(l) in s.reg.dir
    requires forall i :: 0 <= i < |s.calls| ==> Matches(R.Die(s.reg, A.HighName(l), cause), s.calls[i], a.calls[i])
    ensures DeathRefines(s, a, l, cause)
  {
    FindsSameCall(s, a, R.Die(s.reg, A.HighName(l), cause), l);
  }

  lemma LoneLegMatches(s: State, a: A.State, l: A.Leg, cause: int, k: nat)
    requires Refines(s, a) && A.Nameable(l) && A.Known(a, l) && k < |a.calls| && A.Holds(a.calls[k], l)
    requires a.calls[k].legs == A.Both
    ensures var c := a.calls[k];
      Matches(R.Die(s.reg, A.HighName(l), cause), s.calls[k],
              c.(legs := if l == c.calling then A.CalledOnly else A.CallingOnly))
  {
  }

  lemma RemoveMatch(reg: R.State, calls: seq<Call>, acalls: seq<A.Call>, k: nat)
    requires |calls| == |acalls| && k < |calls|
    requires forall i :: 0 <= i < |calls| && i != k ==> Matches(reg, calls[i], acalls[i])
    ensures AllMatch(reg, A.Remove(calls, k), A.Remove(acalls, k))
  {
    A.RemoveAt(calls, k);
    A.RemoveAt(acalls, k);
  }

  lemma ReplaceMatch(reg: R.State, calls: seq<Call>, acalls: seq<A.Call>, k: nat, d: A.Call)
    requires |calls| == |acalls| && k < |calls| && Matches(reg, calls[k], d)
    requires forall i :: 0 <= i < |calls| && i != k ==> Matches(reg, calls[i], acalls[i])
    ensures AllMatch(reg, calls, acalls[k := d])
  {
  }

  lemma DestroyRefines(s: State, moh: bool, a: A.State, l: A.Leg, cause: int)
    requires Refines(s, a) && A.Allowed(a, A.Destroy(l, cause))
    ensures Refines(Step(s, moh, A.Destroy(l, cause)), A.Step(a, A.Destroy(l, cause)))
  {
    var e := A.Destroy(l, cause);
    var id := A.HighName(l);
    A.StepInv(a, e);
    if id in s.reg.dir {
      var u := R.Die(s.reg, id, cause);
      var t := ChannelDestroyed(s.(reg := u), s.reg.dir[id]);
      DestroyKnown(s, a, l, cause);
      R.DieInv(s.reg, id, cause);
      R.EraseInv(u, id);
      DestroyCalls(s, a, l, cause);
      KeepsMatch(u, R.Erase(u, id), t.calls, A.Step(a, e).calls);
    }
  }

  lemma StepRefines(s: State, moh: bool, a: A.State, e: A.Event)
    requires Refines(s, a) && A.Allowed(a, e)
    ensures Refines(Step(s, moh, e), A.Step(a, e))
  {
    match e
    case Announce(l, state) => AnnounceRefines(s, moh, a, l, state);
    case Enter(l, external, info) => EnterRefines(s, moh, a, l, external, info);
    case Change(l, state) => ChangeRefines(s, moh, a, l, state);
    case Destroy(l, cause) => DestroyRefines(s, moh, a, l, cause);
    case Bridged(k, bridge) => BridgedRefines(s, moh, a, k, bridge);
  }

  lemma {:induction false} RunRefines(moh: bool, es: seq<A.Event>)
    requires A.IsRun(A.Init, es)
    ensures Refines(Run(Init, moh, es), A.Run(A.Init, es))
    decreases |es|
  {
    if es != [] {
      var front := es[..|es| - 1];
      RunRefines(moh, front);
      StepRefines(Run(Init, moh, front), moh, A.Run(A.Init, front), es[|es| - 1]);
    }
  }
}
